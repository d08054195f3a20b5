/** Selection of the latest raw partition: the entries named
    `ingestion_date=*`, sorted in descending string order, first one taken. */
module Partitions {
  import opened Common
  import opened Dates

  /** The glob `ingestion_date=*` on one path component. */
  predicate IsPartitionName(name: string) {
    |PartitionPrefix| <= |name| && name[..|PartitionPrefix|] == PartitionPrefix
  }

  lemma PartitionNameMatches(d: Date)
    ensures IsPartitionName(PartitionName(d))
  {
    assert PartitionName(d)[..|PartitionPrefix|] == PartitionPrefix;
  }

  /** `base.glob("ingestion_date=*")`, in the order the directory lists them. */
  function Matching(entries: seq<string>): (r: seq<string>)
    ensures forall x :: x in r <==> x in entries && IsPartitionName(x)
  {
    if |entries| == 0 then []
    else (if IsPartitionName(entries[0]) then [entries[0]] else []) + Matching(entries[1..])
  }

  /** Sorted in descending string order. */
  ghost predicate Descending(s: seq<string>) {
    forall i, j :: 0 <= i < j < |s| ==> LexLe(s[j], s[i])
  }

  function Insert(x: string, s: seq<string>): seq<string> {
    if |s| == 0 then [x]
    else if LexLe(s[0], x) then [x] + s
    else [s[0]] + Insert(x, s[1..])
  }

  /** `sorted(parts, reverse=True)`; an insertion sort, which under a total
      order gives the same list as any other sort. */
  function SortDescending(s: seq<string>): seq<string> {
    if |s| == 0 then [] else Insert(s[0], SortDescending(s[1..]))
  }

  lemma {:induction false} InsertPermutes(x: string, s: seq<string>)
    ensures multiset(Insert(x, s)) == multiset(s) + multiset{x}
  {
    if |s| > 0 && !LexLe(s[0], x) {
      InsertPermutes(x, s[1..]);
      assert s == [s[0]] + s[1..];
    }
  }

  /** Every element of Insert(x, s) is x or an element of s. */
  lemma InsertElements(x: string, s: seq<string>, j: nat)
    requires j < |Insert(x, s)|
    ensures Insert(x, s)[j] == x || Insert(x, s)[j] in s
  {
    InsertPermutes(x, s);
    assert Insert(x, s)[j] in multiset(Insert(x, s));
  }

  lemma {:induction false} InsertSorted(x: string, s: seq<string>)
    requires Descending(s)
    ensures Descending(Insert(x, s))
  {
    if |s| > 0 && !LexLe(s[0], x) {
      var rest := Insert(x, s[1..]);
      InsertSorted(x, s[1..]);
      LexLeTotal(s[0], x);
      forall j | 0 <= j < |rest|
        ensures LexLe(rest[j], s[0])
      {
        InsertElements(x, s[1..], j);
        if rest[j] != x {
          var k :| 0 <= k < |s[1..]| && s[1..][k] == rest[j];
          assert s[k + 1] == rest[j];
        }
      }
      var r := [s[0]] + rest;
      forall i, j | 0 <= i < j < |r|
        ensures LexLe(r[j], r[i])
      {
        assert r[j] == rest[j - 1];
        if i > 0 {
          assert r[i] == rest[i - 1];
        }
      }
    } else if |s| > 0 {
      var r := [x] + s;
      forall i, j | 0 <= i < j < |r|
        ensures LexLe(r[j], r[i])
      {
        if i == 0 {
          LexLeTransitive(r[j], s[0], x);
        }
      }
    }
  }

  lemma {:induction false} SortDescendingSorted(s: seq<string>)
    ensures multiset(SortDescending(s)) == multiset(s)
    ensures Descending(SortDescending(s))
  {
    if |s| > 0 {
      SortDescendingSorted(s[1..]);
      InsertSorted(s[0], SortDescending(s[1..]));
      InsertPermutes(s[0], SortDescending(s[1..]));
      assert s == [s[0]] + s[1..];
    }
  }

  /** `_latest_partition_dir(base)`, as the name of the chosen entry: fails
      when the base is absent or no entry matches; otherwise the result is a
      matching entry that no matching entry exceeds in string order. */
  function LatestPartition(present: bool, entries: seq<string>): (r: Result<string>)
    ensures !present ==> r == Failure(BaseMissing)
    ensures present && (forall e :: e in entries ==> !IsPartitionName(e)) ==> r == Failure(NoPartitions)
    ensures r.Success? ==> present && r.value in entries && IsPartitionName(r.value)
    ensures r.Success? ==> forall e :: e in entries && IsPartitionName(e) ==> LexLe(e, r.value)
    ensures present && (exists e :: e in entries && IsPartitionName(e)) ==> r.Success?
  {
    if !present then Failure(BaseMissing)
    else
      var parts := SortDescending(Matching(entries));
      SortDescendingSorted(Matching(entries));
      if |parts| == 0 then
        assert forall e :: e in entries && IsPartitionName(e) ==> e in multiset(parts);
        Failure(NoPartitions)
      else
        assert parts[0] in multiset(parts);
        assert forall e :: e in entries && IsPartitionName(e) ==> e in multiset(parts) && e in parts;
        Success(parts[0])
  }
}
