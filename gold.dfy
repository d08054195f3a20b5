/** The aggregation stage: five GROUP BY / SUM tables over the fact table
    `order_lines`, written to one file each. */
module Gold {
  import opened Common
  import opened Dates
  import opened Records
  import opened Grouping

  const OrderLinesFile: string := "order_lines.parquet"

  datatype Month = Month(year: nat, month: nat)

  /** `GROUP BY OrderID, OrderDate`: the raw timestamp, not its date. */
  function OrderKey(f: FactLine): (int, DateTime) { (f.orderId, f.orderDate) }
  /** `GROUP BY CAST(OrderDate AS DATE)`. */
  function DayKey(f: FactLine): Date { f.orderDate.date }
  /** `GROUP BY YEAR(OrderDate), MONTH(OrderDate)`. */
  function MonthKey(f: FactLine): Month { Month(f.orderDate.date.year, f.orderDate.date.month) }
  /** `GROUP BY YEAR(OrderDate)`. */
  function YearKey(f: FactLine): nat { f.orderDate.date.year }
  /** `GROUP BY ProductID, ProductName`. */
  function ProductKey(f: FactLine): (Option<int>, string) { (f.productId, f.productName) }

  function YearOf(m: Month): nat { m.year }

  /** `SUM(Revenue), SUM(Quantity)`. */
  function Value(f: FactLine): Totals { Totals(f.revenue, f.quantity) }

  /** A row of `sales_per_order`: the order, `CAST(OrderDate AS DATE)`, and the totals. */
  datatype OrderSales = OrderSales(orderId: int, orderDate: Date, totals: Totals)

  function ProjectOrders(groups: seq<Group<(int, DateTime)>>): (r: seq<OrderSales>)
    ensures |r| == |groups|
  {
    if |groups| == 0 then []
    else
      var g := groups[|groups| - 1];
      ProjectOrders(groups[..|groups| - 1]) + [OrderSales(g.key.0, g.key.1.date, g.totals)]
  }

  function SumOrders(rows: seq<OrderSales>): Totals {
    if |rows| == 0 then Zero else Add(SumOrders(rows[..|rows| - 1]), rows[|rows| - 1].totals)
  }

  datatype GoldTables = GoldTables(
    perOrder: seq<OrderSales>,
    byDay: seq<Group<Date>>,
    byMonth: seq<Group<Month>>,
    byYear: seq<Group<nat>>,
    byProduct: seq<Group<(Option<int>, string)>>)

  /** The five queries over one fact table. */
  function Aggregate(fact: seq<FactLine>): GoldTables {
    GoldTables(
      ProjectOrders(GroupSum(fact, OrderKey, Value)),
      GroupSum(fact, DayKey, Value),
      GroupSum(fact, MonthKey, Value),
      GroupSum(fact, YearKey, Value),
      GroupSum(fact, ProductKey, Value))
  }

  lemma {:induction false} ProjectOrdersAt(groups: seq<Group<(int, DateTime)>>, i: nat)
    requires i < |groups|
    ensures ProjectOrders(groups)[i] == OrderSales(groups[i].key.0, groups[i].key.1.date, groups[i].totals)
  {
    if i < |groups| - 1 {
      ProjectOrdersAt(groups[..|groups| - 1], i);
    }
  }

  lemma {:induction false} ProjectOrdersSum(groups: seq<Group<(int, DateTime)>>)
    ensures SumOrders(ProjectOrders(groups)) == SumGroups(groups)
  {
    if |groups| > 0 {
      var init := groups[..|groups| - 1];
      ProjectOrdersSum(init);
      assert ProjectOrders(groups)[..|groups| - 1] == ProjectOrders(init);
    }
  }

  /** Every table's revenue and quantity add up to those of the fact table. */
  lemma AggregateConserves(fact: seq<FactLine>)
    ensures SumOrders(Aggregate(fact).perOrder) == Sum(fact, Value)
    ensures SumGroups(Aggregate(fact).byDay) == Sum(fact, Value)
    ensures SumGroups(Aggregate(fact).byMonth) == Sum(fact, Value)
    ensures SumGroups(Aggregate(fact).byYear) == Sum(fact, Value)
    ensures SumGroups(Aggregate(fact).byProduct) == Sum(fact, Value)
  {
    GroupSumConserves(fact, OrderKey, Value);
    ProjectOrdersSum(GroupSum(fact, OrderKey, Value));
    GroupSumConserves(fact, DayKey, Value);
    GroupSumConserves(fact, MonthKey, Value);
    GroupSumConserves(fact, YearKey, Value);
    GroupSumConserves(fact, ProductKey, Value);
  }

  /** Each day, month, year and product table has one row per distinct key
      of the fact table, carrying the sums over the lines with that key. */
  lemma AggregateGroups(fact: seq<FactLine>)
    ensures IsGroupSum(Aggregate(fact).byDay, fact, DayKey, Value)
    ensures IsGroupSum(Aggregate(fact).byMonth, fact, MonthKey, Value)
    ensures IsGroupSum(Aggregate(fact).byYear, fact, YearKey, Value)
    ensures IsGroupSum(Aggregate(fact).byProduct, fact, ProductKey, Value)
  {
    GroupSumCorrect(fact, DayKey, Value);
    GroupSumCorrect(fact, MonthKey, Value);
    GroupSumCorrect(fact, YearKey, Value);
    GroupSumCorrect(fact, ProductKey, Value);
  }

  /** `sales_per_order` has one row per distinct pair of order id and raw
      timestamp; the row shows that timestamp's date. */
  lemma PerOrderGroups(fact: seq<FactLine>)
    ensures var groups := GroupSum(fact, OrderKey, Value);
            && IsGroupSum(groups, fact, OrderKey, Value)
            && |Aggregate(fact).perOrder| == |groups|
            && forall i :: 0 <= i < |groups| ==>
                 Aggregate(fact).perOrder[i] == OrderSales(groups[i].key.0, groups[i].key.1.date, groups[i].totals)
  {
    var groups := GroupSum(fact, OrderKey, Value);
    GroupSumCorrect(fact, OrderKey, Value);
    forall i | 0 <= i < |groups|
      ensures Aggregate(fact).perOrder[i] == OrderSales(groups[i].key.0, groups[i].key.1.date, groups[i].totals)
    {
      ProjectOrdersAt(groups, i);
    }
  }

  /** A year's row of `sales_by_year` equals the sum of the rows of
      `sales_by_month` in that year. */
  lemma YearIsSumOfMonths(fact: seq<FactLine>, i: nat)
    requires i < |Aggregate(fact).byYear|
    ensures Aggregate(fact).byYear[i].totals == SumGroupsWhere(Aggregate(fact).byMonth, YearOf, Aggregate(fact).byYear[i].key)
  {
    GroupSumCorrect(fact, YearKey, Value);
    GroupSumCoarsens(fact, MonthKey, YearKey, YearOf, Value, Aggregate(fact).byYear[i].key);
  }

  /** Two lines of one order on one day at different times give two rows
      of `sales_per_order` showing the same order and date. */
  lemma PerOrderSplitsByTime(a: FactLine, b: FactLine)
    requires a.orderId == b.orderId && a.orderDate.date == b.orderDate.date && a.orderDate.micros != b.orderDate.micros
    ensures var rows := Aggregate([a, b]).perOrder;
            |rows| == 2 && rows[0].orderId == rows[1].orderId && rows[0].orderDate == rows[1].orderDate
  {
    PerOrderGroups([a, b]);
    var groups := GroupSum([a, b], OrderKey, Value);
    assert [a, b][..1] == [a];
    assert [a][..0] == [];
    var first := GroupSum([a], OrderKey, Value);
    assert first == [Group(OrderKey(a), Value(a))] by {
      var empty: seq<Group<(int, DateTime)>> := [];
      assert GroupSum([a][..0], OrderKey, Value) == empty;
      assert IndexOf(empty, OrderKey(a)) == 0;
      assert first == Accumulate(empty, OrderKey(a), Value(a));
    }
    assert IndexOf(first, OrderKey(b)) == 1 by {
      assert first[0].key != OrderKey(b);
      assert first[1..] == [];
    }
    assert groups == first + [Group(OrderKey(b), Value(b))];
  }

  /** When every line of one order carries the same timestamp, as the raw
      stage guarantees, `sales_per_order` has one row per order. */
  lemma PerOrderDistinctIds(fact: seq<FactLine>)
    requires forall i, j :: 0 <= i < |fact| && 0 <= j < |fact| && fact[i].orderId == fact[j].orderId ==>
               fact[i].orderDate == fact[j].orderDate
    ensures var rows := Aggregate(fact).perOrder;
            forall i, j :: 0 <= i < j < |rows| ==> rows[i].orderId != rows[j].orderId
  {
    var groups := GroupSum(fact, OrderKey, Value);
    PerOrderGroups(fact);
    var rows := Aggregate(fact).perOrder;
    forall i, j | 0 <= i < j < |rows|
      ensures rows[i].orderId != rows[j].orderId
    {
      assert groups[i].key in RowKeys(fact, OrderKey);
      assert groups[j].key in RowKeys(fact, OrderKey);
      var a :| 0 <= a < |fact| && RowKeys(fact, OrderKey)[a] == groups[i].key;
      var b :| 0 <= b < |fact| && RowKeys(fact, OrderKey)[b] == groups[j].key;
      assert groups[i].key != groups[j].key;
    }
  }

  // ---------------------------------------------------------------------
  // Output paths and the stage

  const AggregateNames: seq<string> := ["sales_by_day", "sales_by_month", "sales_by_year", "sales_by_product", "sales_per_order"]

  function JoinPath(dir: string, name: string): string { dir + "/" + name }

  /** The default map names the configured files in `goldDir`; a given
      `gold_base` replaces it by `gold_base / (k + ".parquet")` for each name k. */
  function GoldPaths(goldBase: Option<string>, goldDir: string): map<string, string> {
    match goldBase
    case None =>
      map[
        "sales_by_day" := JoinPath(goldDir, "sales_by_day.parquet"),
        "sales_by_month" := JoinPath(goldDir, "sales_by_month.parquet"),
        "sales_by_year" := JoinPath(goldDir, "sales_by_year.parquet"),
        "sales_by_product" := JoinPath(goldDir, "sales_by_product.parquet"),
        "sales_per_order" := JoinPath(goldDir, "sales_per_order.parquet")]
    case Some(base) =>
      map k | k in AggregateNames :: JoinPath(base, k + ".parquet")
  }

  /** With `gold_base` set, the map has exactly the five names as keys and
      sends each name k to `gold_base / (k + ".parquet")`. */
  lemma OverridePaths(base: string, goldDir: string)
    ensures GoldPaths(Some(base), goldDir).Keys == set k | k in AggregateNames
    ensures forall k :: k in AggregateNames ==> GoldPaths(Some(base), goldDir)[k] == JoinPath(base, k + ".parquet")
  {
  }

  /** The default map is the override with the configured directory. */
  lemma DefaultPaths(goldDir: string)
    ensures GoldPaths(None, goldDir) == GoldPaths(Some(goldDir), goldDir)
  {
    var d, o := GoldPaths(None, goldDir), GoldPaths(Some(goldDir), goldDir);
    assert "sales_by_day" + ".parquet" == "sales_by_day.parquet";
    assert "sales_by_month" + ".parquet" == "sales_by_month.parquet";
    assert "sales_by_year" + ".parquet" == "sales_by_year.parquet";
    assert "sales_by_product" + ".parquet" == "sales_by_product.parquet";
    assert "sales_per_order" + ".parquet" == "sales_per_order.parquet";
    assert d.Keys == o.Keys;
    forall k | k in d.Keys
      ensures d[k] == o[k]
    {
    }
  }

  datatype GoldOutput = GoldOutput(paths: map<string, string>, tables: GoldTables)

  /** `run`: refuses a missing fact table before anything is written;
      otherwise computes the five tables and returns the path map. */
  function Run(fact: Option<seq<FactLine>>, goldBase: Option<string>, goldDir: string): (r: Result<GoldOutput>)
    ensures r.Failure? <==> fact.None?
    ensures r.Failure? ==> r.error == FileMissing(OrderLinesFile)
    ensures r.Success? ==> r.value.tables == Aggregate(fact.value)
    ensures r.Success? ==> r.value.paths == GoldPaths(goldBase, goldDir)
  {
    match fact
    case None => Failure(FileMissing(OrderLinesFile))
    case Some(lines) => Success(GoldOutput(GoldPaths(goldBase, goldDir), Aggregate(lines)))
  }
}
