/** `SELECT key, SUM(Revenue), SUM(Quantity) ... GROUP BY key` over a
    sequence of rows: one group per distinct key, summing revenue and
    quantity. Row order of the result is that of first appearance. */
module Grouping {

  datatype Totals = Totals(revenue: real, quantity: int)

  const Zero: Totals := Totals(0.0, 0)

  function Add(a: Totals, b: Totals): Totals {
    Totals(a.revenue + b.revenue, a.quantity + b.quantity)
  }

  datatype Group<K> = Group(key: K, totals: Totals)

  /** The totals over all rows. */
  function Sum<R>(rows: seq<R>, val: R -> Totals): Totals {
    if |rows| == 0 then Zero else Add(Sum(rows[..|rows| - 1], val), val(rows[|rows| - 1]))
  }

  /** The totals over the rows whose key is k. */
  function SumKey<R, K(==)>(rows: seq<R>, key: R -> K, val: R -> Totals, k: K): Totals {
    if |rows| == 0 then Zero
    else Add(SumKey(rows[..|rows| - 1], key, val, k), if key(rows[|rows| - 1]) == k then val(rows[|rows| - 1]) else Zero)
  }

  /** The totals over all groups. */
  function SumGroups<K>(groups: seq<Group<K>>): Totals {
    if |groups| == 0 then Zero else Add(SumGroups(groups[..|groups| - 1]), groups[|groups| - 1].totals)
  }

  /** The totals over the groups whose key h maps to y. */
  function SumGroupsWhere<K, J(==)>(groups: seq<Group<K>>, h: K -> J, y: J): Totals {
    if |groups| == 0 then Zero
    else Add(SumGroupsWhere(groups[..|groups| - 1], h, y),
             if h(groups[|groups| - 1].key) == y then groups[|groups| - 1].totals else Zero)
  }

  function Keys<K>(groups: seq<Group<K>>): (r: seq<K>)
    ensures |r| == |groups| && forall i :: 0 <= i < |groups| ==> r[i] == groups[i].key
  {
    seq(|groups|, i requires 0 <= i < |groups| => groups[i].key)
  }

  function RowKeys<R, K>(rows: seq<R>, key: R -> K): (r: seq<K>)
    ensures |r| == |rows| && forall i :: 0 <= i < |rows| ==> r[i] == key(rows[i])
  {
    seq(|rows|, i requires 0 <= i < |rows| => key(rows[i]))
  }

  /** The position of the group with key k, or |groups| when there is none. */
  function IndexOf<K(==)>(groups: seq<Group<K>>, k: K): (i: nat)
    ensures i <= |groups|
    ensures i < |groups| ==> groups[i].key == k
    ensures forall j :: 0 <= j < i ==> groups[j].key != k
  {
    if |groups| == 0 then 0
    else if groups[0].key == k then 0
    else 1 + IndexOf(groups[1..], k)
  }

  /** Adds one row's totals to its key's group, opening the group if needed. */
  function Accumulate<K(==)>(groups: seq<Group<K>>, k: K, t: Totals): seq<Group<K>> {
    var i := IndexOf(groups, k);
    if i == |groups| then groups + [Group(k, t)]
    else groups[i := Group(k, Add(groups[i].totals, t))]
  }

  function GroupSum<R, K(==)>(rows: seq<R>, key: R -> K, val: R -> Totals): seq<Group<K>> {
    if |rows| == 0 then []
    else Accumulate(GroupSum(rows[..|rows| - 1], key, val), key(rows[|rows| - 1]), val(rows[|rows| - 1]))
  }

  /** What a GROUP BY promises: the keys are distinct, they are exactly
      the keys of the rows, and each group's totals are the sums over the
      rows with its key. */
  ghost predicate IsGroupSum<R, K>(groups: seq<Group<K>>, rows: seq<R>, key: R -> K, val: R -> Totals) {
    && (forall i, j :: 0 <= i < j < |groups| ==> groups[i].key != groups[j].key)
    && (forall i :: 0 <= i < |groups| ==> groups[i].key in RowKeys(rows, key))
    && (forall j :: 0 <= j < |rows| ==> key(rows[j]) in Keys(groups))
    && (forall i :: 0 <= i < |groups| ==> groups[i].totals == SumKey(rows, key, val, groups[i].key))
  }

  lemma SumKeyAppend<R, K>(rows: seq<R>, r: R, key: R -> K, val: R -> Totals, k: K)
    ensures SumKey(rows + [r], key, val, k) == Add(SumKey(rows, key, val, k), if key(r) == k then val(r) else Zero)
  {
    assert (rows + [r])[..|rows|] == rows;
  }

  lemma {:induction false} SumKeyAbsent<R, K>(rows: seq<R>, key: R -> K, val: R -> Totals, k: K)
    requires k !in RowKeys(rows, key)
    ensures SumKey(rows, key, val, k) == Zero
  {
    if |rows| > 0 {
      var init := rows[..|rows| - 1];
      assert RowKeys(rows, key)[|rows| - 1] == key(rows[|rows| - 1]);
      forall i | 0 <= i < |init|
        ensures RowKeys(init, key)[i] in RowKeys(rows, key)
      {
        assert RowKeys(rows, key)[i] == RowKeys(init, key)[i];
      }
      SumKeyAbsent(init, key, val, k);
    }
  }

  /** One row more keeps the GROUP BY promise. */
  lemma AccumulateStep<R, K>(groups: seq<Group<K>>, rows: seq<R>, r: R, key: R -> K, val: R -> Totals)
    requires IsGroupSum(groups, rows, key, val)
    ensures IsGroupSum(Accumulate(groups, key(r), val(r)), rows + [r], key, val)
  {
    var k, t := key(r), val(r);
    var rows' := rows + [r];
    var i := IndexOf(groups, k);
    var out := Accumulate(groups, k, t);
    forall j ensures SumKey(rows', key, val, j) == Add(SumKey(rows, key, val, j), if k == j then t else Zero) {
      SumKeyAppend(rows, r, key, val, j);
    }
    assert RowKeys(rows', key) == RowKeys(rows, key) + [k];
    if i == |groups| {
      assert k !in Keys(groups);
      SumKeyAbsent(rows, key, val, k);
      assert Keys(out) == Keys(groups) + [k];
      forall a | 0 <= a < |out|
        ensures out[a].totals == SumKey(rows', key, val, out[a].key)
      {
        if a == |groups| {
          assert out[a] == Group(k, t);
        } else {
          assert out[a] == groups[a];
        }
      }
    } else {
      assert Keys(out) == Keys(groups);
      forall a | 0 <= a < |out|
        ensures out[a].totals == SumKey(rows', key, val, out[a].key)
      {
        if a != i {
          assert out[a] == groups[a];
        }
      }
    }
  }

  /** GROUP BY keeps its promise. */
  lemma {:induction false} GroupSumCorrect<R, K>(rows: seq<R>, key: R -> K, val: R -> Totals)
    ensures IsGroupSum(GroupSum(rows, key, val), rows, key, val)
  {
    if |rows| > 0 {
      var init := rows[..|rows| - 1];
      GroupSumCorrect(init, key, val);
      AccumulateStep(GroupSum(init, key, val), init, rows[|rows| - 1], key, val);
      assert init + [rows[|rows| - 1]] == rows;
    }
  }

  lemma {:induction false} UpdateSumGroups<K>(groups: seq<Group<K>>, i: nat, g: Group<K>)
    requires i < |groups|
    ensures SumGroups(groups[i := g]).revenue == SumGroups(groups).revenue - groups[i].totals.revenue + g.totals.revenue
    ensures SumGroups(groups[i := g]).quantity == SumGroups(groups).quantity - groups[i].totals.quantity + g.totals.quantity
  {
    var n := |groups|;
    var out := groups[i := g];
    assert out[..n - 1] == if i == n - 1 then groups[..n - 1] else groups[..n - 1][i := g];
    if i < n - 1 {
      UpdateSumGroups(groups[..n - 1], i, g);
    }
  }

  lemma {:induction false} UpdateSumGroupsWhere<K, J>(groups: seq<Group<K>>, i: nat, g: Group<K>, h: K -> J, y: J)
    requires i < |groups| && g.key == groups[i].key
    ensures h(g.key) == y ==>
              && SumGroupsWhere(groups[i := g], h, y).revenue
                   == SumGroupsWhere(groups, h, y).revenue - groups[i].totals.revenue + g.totals.revenue
              && SumGroupsWhere(groups[i := g], h, y).quantity
                   == SumGroupsWhere(groups, h, y).quantity - groups[i].totals.quantity + g.totals.quantity
    ensures h(g.key) != y ==> SumGroupsWhere(groups[i := g], h, y) == SumGroupsWhere(groups, h, y)
  {
    var n := |groups|;
    var out := groups[i := g];
    assert out[..n - 1] == if i == n - 1 then groups[..n - 1] else groups[..n - 1][i := g];
    if i < n - 1 {
      UpdateSumGroupsWhere(groups[..n - 1], i, g, h, y);
    }
  }

  lemma AccumulateSum<K>(groups: seq<Group<K>>, k: K, t: Totals)
    ensures SumGroups(Accumulate(groups, k, t)) == Add(SumGroups(groups), t)
  {
    var i := IndexOf(groups, k);
    if i == |groups| {
      assert (groups + [Group(k, t)])[..|groups|] == groups;
    } else {
      UpdateSumGroups(groups, i, Group(k, Add(groups[i].totals, t)));
    }
  }

  lemma AccumulateSumWhere<K, J>(groups: seq<Group<K>>, k: K, t: Totals, h: K -> J, y: J)
    ensures SumGroupsWhere(Accumulate(groups, k, t), h, y) == Add(SumGroupsWhere(groups, h, y), if h(k) == y then t else Zero)
  {
    var i := IndexOf(groups, k);
    if i == |groups| {
      assert (groups + [Group(k, t)])[..|groups|] == groups;
    } else {
      UpdateSumGroupsWhere(groups, i, Group(k, Add(groups[i].totals, t)), h, y);
    }
  }

  /** Conservation: the groups' totals add up to the totals of all rows. */
  lemma {:induction false} GroupSumConserves<R, K>(rows: seq<R>, key: R -> K, val: R -> Totals)
    ensures SumGroups(GroupSum(rows, key, val)) == Sum(rows, val)
  {
    if |rows| > 0 {
      var init := rows[..|rows| - 1];
      GroupSumConserves(init, key, val);
      AccumulateSum(GroupSum(init, key, val), key(rows[|rows| - 1]), val(rows[|rows| - 1]));
    }
  }

  /** Grouping by a finer key and then summing the groups whose key maps to
      y gives the sum over the rows whose coarser key is y. */
  lemma {:induction false} GroupSumCoarsens<R, K, J>(rows: seq<R>, key: R -> K, coarse: R -> J, h: K -> J, val: R -> Totals, y: J)
    requires forall r :: coarse(r) == h(key(r))
    ensures SumGroupsWhere(GroupSum(rows, key, val), h, y) == SumKey(rows, coarse, val, y)
  {
    if |rows| > 0 {
      var init := rows[..|rows| - 1];
      var last := rows[|rows| - 1];
      GroupSumCoarsens(init, key, coarse, h, val, y);
      AccumulateSumWhere(GroupSum(init, key, val), key(last), val(last), h, y);
    }
  }
}
