/** Properties that connect the stages: the raw stage's partition names and
    the refinement stage's choice of the latest one, the raw stage's order
    numbering and the aggregation per order, and the end-to-end example of
    one order with one product. */
module Pipeline {
  import opened Common
  import opened Dates
  import opened Records
  import opened Partitions
  import opened Bronze
  import opened Silver
  import opened Grouping
  import opened Gold
  import opened Flatten

  /** The entries of a raw directory, each the partition of a valid date. */
  ghost predicate DatedEntries(entries: seq<string>, dates: seq<Date>) {
    && |entries| == |dates|
    && forall i :: 0 <= i < |dates| ==> ValidDate(dates[i]) && entries[i] == PartitionName(dates[i])
  }

  /** A partition name no smaller than that of d belongs to a date not before d. */
  lemma NotAfter(d: Date, e: Date)
    requires ValidDate(d) && ValidDate(e)
    requires LexLe(PartitionName(d), PartitionName(e))
    ensures !Before(e, d)
  {
    PartitionNameOrder(e, d);
    if LexLess(PartitionName(d), PartitionName(e)) {
      LexLessAsymmetric(PartitionName(d), PartitionName(e));
    } else {
      LexLessIrreflexive(PartitionName(e));
    }
  }

  /** Over partitions written by the raw stage, the string-order choice of
      the refinement stage picks the partition of the newest date. */
  lemma LatestIsNewestDate(entries: seq<string>, dates: seq<Date>)
    requires DatedEntries(entries, dates) && |dates| > 0
    ensures LatestPartition(true, entries).Success?
    ensures exists i :: 0 <= i < |dates| && LatestPartition(true, entries).value == PartitionName(dates[i])
                     && forall j :: 0 <= j < |dates| ==> !Before(dates[i], dates[j])
  {
    PartitionNameMatches(dates[0]);
    assert entries[0] in entries;
    var v := LatestPartition(true, entries).value;
    var i :| 0 <= i < |entries| && entries[i] == v;
    forall j | 0 <= j < |dates|
      ensures !Before(dates[i], dates[j])
    {
      PartitionNameMatches(dates[j]);
      assert entries[j] in entries;
      NotAfter(dates[j], dates[i]);
    }
  }

  /** Publishing today's snapshot, when no existing partition is of a later
      date, makes it the one the next refinement reads. */
  lemma PublishedTodayIsLatest<T>(store: Store<T>, dates: seq<Date>, today: Date, table: T)
    requires DatedEntries(store.entries, dates) && ValidDate(today)
    requires forall j :: 0 <= j < |dates| ==> !Before(today, dates[j])
    ensures var after := Publish(store, PartitionName(today), table);
            LatestPartition(after.present, after.entries) == Success(PartitionName(today))
  {
    var name := PartitionName(today);
    var after := Publish(store, name, table);
    PartitionNameMatches(today);
    assert name in after.entries;
    var v := LatestPartition(true, after.entries).value;
    assert LexLe(name, v);
    if v != name {
      assert v in store.entries;
      var j :| 0 <= j < |store.entries| && store.entries[j] == v;
      PartitionNameOrder(today, dates[j]);
    }
  }

  ghost predicate NumberedFromOne(rows: seq<Order>) {
    forall i :: 0 <= i < |rows| ==> rows[i].orderId == i + 1
  }

  /** Rows with one order id share one timestamp. */
  ghost predicate IdFixesDate(fact: seq<FactLine>) {
    forall a, b :: 0 <= a < |fact| && 0 <= b < |fact| && fact[a].orderId == fact[b].orderId ==>
      fact[a].orderDate == fact[b].orderDate
  }

  /** A line of numbered orders has the id and the timestamp of one order. */
  lemma NumberedLineOrigin(rows: seq<Order>, parse: string -> Option<seq<Item>>, k: nat)
    requires NumberedFromOne(rows) && k < |Lines(rows, parse)|
    ensures exists i :: 0 <= i < |rows| && Lines(rows, parse)[k].orderId == i + 1
                     && Lines(rows, parse)[k].orderDate == rows[i].orderDate
  {
    LineOrigin(rows, parse, k);
    var i, j :| 0 <= i < |rows| && 0 <= j < |Items(rows[i], parse)|
              && Lines(rows, parse)[k] == MakeLine(rows[i], Items(rows[i], parse)[j]);
  }

  /** Lines with one order id share one timestamp. */
  ghost predicate LineIdFixesDate(lines: seq<Line>) {
    forall a, b :: 0 <= a < |lines| && 0 <= b < |lines| && lines[a].orderId == lines[b].orderId ==>
      lines[a].orderDate == lines[b].orderDate
  }

  lemma NumberedLinesFixDate(rows: seq<Order>, parse: string -> Option<seq<Item>>)
    requires NumberedFromOne(rows)
    ensures LineIdFixesDate(Lines(rows, parse))
  {
    var lines := Lines(rows, parse);
    forall a, b | 0 <= a < |lines| && 0 <= b < |lines| && lines[a].orderId == lines[b].orderId
      ensures lines[a].orderDate == lines[b].orderDate
    {
      NumberedLineOrigin(rows, parse, a);
      NumberedLineOrigin(rows, parse, b);
    }
  }

  lemma FactKeepsDateOfId(lines: seq<Line>, products: Option<seq<Product>>)
    requires LineIdFixesDate(lines)
    ensures IdFixesDate(FactTable(lines, products))
  {
    var fact := FactTable(lines, products);
    FactTableKeepsLines(lines, products);
    forall a, b | 0 <= a < |fact| && 0 <= b < |fact| && fact[a].orderId == fact[b].orderId
      ensures fact[a].orderDate == fact[b].orderDate
    {
      assert LineOf(fact[a]) in lines && LineOf(fact[b]) in lines;
      var ka :| 0 <= ka < |lines| && lines[ka] == LineOf(fact[a]);
      var kb :| 0 <= kb < |lines| && lines[kb] == LineOf(fact[b]);
    }
  }

  /** Raw order numbering makes the refined lines of one order id share
      one timestamp, whatever the product table. */
  lemma StampedLinesConsistent(csv: seq<RawOrder>, rows: seq<Order>, parseDate: string -> Option<DateTime>, iso: string,
                               parse: string -> Option<seq<Item>>, products: Option<seq<Product>>)
    requires StampedOrders(csv, rows, parseDate, iso)
    ensures IdFixesDate(FactTable(Lines(rows, parse), products))
  {
    assert NumberedFromOne(rows);
    NumberedLinesFixDate(rows, parse);
    FactKeepsDateOfId(Lines(rows, parse), products);
  }

  /** Through the whole pipeline, `sales_per_order` has one row per order. */
  lemma OneRowPerOrder(csv: seq<RawOrder>, rows: seq<Order>, parseDate: string -> Option<DateTime>, iso: string,
                       parse: string -> Option<seq<Item>>, products: Option<seq<Product>>)
    requires StampedOrders(csv, rows, parseDate, iso)
    ensures var perOrder := Aggregate(FactTable(Lines(rows, parse), products)).perOrder;
            forall i, j :: 0 <= i < j < |perOrder| ==> perOrder[i].orderId != perOrder[j].orderId
  {
    StampedLinesConsistent(csv, rows, parseDate, iso, parse, products);
    PerOrderDistinctIds(FactTable(Lines(rows, parse), products));
  }

  /** One order of two units of product 1, which costs 10.0: one line of
      revenue 20.0, and a day total of 20.0 for two units. */
  lemma OneOrderExample(order: Order, product: Product, parse: string -> Option<seq<Item>>)
    requires order.products.Some? && parse(NormalizeQuotes(order.products.value)) == Some([Item(Some(1), Some(2))])
    requires product == Product(Some(1), Some("Widget"), Some(10.0), product.ingestionTs)
    ensures var fact := FactTable(Lines([order], parse), Some([product]));
            && fact == [FactLine(order.orderId, order.orderDate, order.customerId, Some(1), "Widget", 2, 10.0, 20.0)]
            && Aggregate(fact).byDay == [Group(order.orderDate.date, Totals(20.0, 2))]
  {
    var line := Line(order.orderId, order.orderDate, order.customerId, Some(1), 2);
    ConcatOne(order, LinesPerOrder(parse));
    assert Lines([order], parse) == [line];
    assert MatchesOf(line, [product]) == [product] by {
      assert [product][1..] == [];
    }
    ConcatOne(line, JoinWith([product]));
    var fact := FactTable([line], Some([product]));
    assert fact == [FactLine(order.orderId, order.orderDate, order.customerId, Some(1), "Widget", 2, 10.0, 20.0)];
    assert fact[..0] == [];
    var empty: seq<Group<Date>> := [];
    assert GroupSum(fact[..0], DayKey, Value) == empty;
    assert IndexOf(empty, order.orderDate.date) == 0;
  }

  /** Without a product table every line is kept with name '', price 0 and
      revenue 0. */
  lemma NoProductTableExample(rows: seq<Order>, parse: string -> Option<seq<Item>>)
    ensures var fact := FactTable(Lines(rows, parse), None);
            && |fact| == |Lines(rows, parse)|
            && forall k :: 0 <= k < |fact| ==>
                 LineOf(fact[k]) == Lines(rows, parse)[k] && fact[k].productName == "" && fact[k].price == 0.0 && fact[k].revenue == 0.0
  {
    NoProductsDefaults(Lines(rows, parse));
  }

  /** A missing directory, partition or file is reported as not found by
      the refinement and aggregation stages. */
  lemma MissingInputsAreNotFound(ordersSrc: OrdersSource, ordersStore: Store<seq<Order>>,
                                 productsSrc: ProductsSource, productsStore: Store<seq<Product>>,
                                 fact: Option<seq<FactLine>>, goldBase: Option<string>, goldDir: string)
    ensures ResolveOrders(ordersSrc, ordersStore).Failure? ==> ResolveOrders(ordersSrc, ordersStore).error.IsNotFound()
    ensures ResolveProducts(productsSrc, productsStore).Failure? ==> ResolveProducts(productsSrc, productsStore).error.IsNotFound()
    ensures Gold.Run(fact, goldBase, goldDir).Failure? ==> Gold.Run(fact, goldBase, goldDir).error.IsNotFound()
  {
  }
}
