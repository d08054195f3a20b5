/** The refinement stage: explode each raw order into one line per item of
    its product list, left-join the lines with the product snapshot, and
    compute the revenue of every line. */
module Silver {
  import opened Common
  import opened Dates
  import opened Records
  import opened Partitions
  import opened Flatten

  const OrdersParquet: string := "orders.parquet"

  // ---------------------------------------------------------------------
  // Explode

  /** `text.replace("'", '"')`. */
  function NormalizeQuotes(s: string): (r: string)
    ensures |r| == |s|
    ensures forall i :: 0 <= i < |s| ==> r[i] == (if s[i] == '\'' then '"' else s[i])
  {
    if |s| == 0 then "" else [if s[0] == '\'' then '"' else s[0]] + NormalizeQuotes(s[1..])
  }

  /** Every `products` cell holds text; a null cell makes `.replace` raise. */
  predicate Readable(orders: seq<Order>) {
    forall i :: 0 <= i < |orders| ==> orders[i].products.Some?
  }

  /** The parsed product list of an order; a failed parse counts as empty.
      A null cell has no list (the explode fails on it before this matters). */
  function Items(o: Order, parse: string -> Option<seq<Item>>): seq<Item> {
    match o.products
    case None => []
    case Some(text) =>
      match parse(NormalizeQuotes(text))
      case Some(items) => items
      case None => []
  }

  /** `int(item.get("Quantity", 0))`. */
  function Quantity(it: Item): int {
    match it.quantity
    case Some(q) => q
    case None => 0
  }

  function MakeLine(o: Order, it: Item): Line {
    Line(o.orderId, o.orderDate, o.customerId, it.productId, Quantity(it))
  }

  function OrderLines(o: Order, parse: string -> Option<seq<Item>>): seq<Line> {
    var items := Items(o, parse);
    seq(|items|, j requires 0 <= j < |items| => MakeLine(o, items[j]))
  }

  function LinesPerOrder(parse: string -> Option<seq<Item>>): Order -> seq<Line> {
    o => OrderLines(o, parse)
  }

  /** The lines of all orders, order by order, item by item. */
  function Lines(orders: seq<Order>, parse: string -> Option<seq<Item>>): seq<Line> {
    Concat(orders, LinesPerOrder(parse))
  }

  /** The total number of parsed items over all orders. */
  function ItemCount(orders: seq<Order>, parse: string -> Option<seq<Item>>): nat {
    if |orders| == 0 then 0 else ItemCount(orders[..|orders| - 1], parse) + |Items(orders[|orders| - 1], parse)|
  }

  lemma {:induction false} ItemCountIsTotal(orders: seq<Order>, parse: string -> Option<seq<Item>>)
    ensures ItemCount(orders, parse) == Total(orders, LinesPerOrder(parse))
  {
    if |orders| > 0 {
      ItemCountIsTotal(orders[..|orders| - 1], parse);
    }
  }

  /** One line per parsed item: the number of lines is the sum over the
      orders of the length of their parsed lists. */
  lemma LinesCount(orders: seq<Order>, parse: string -> Option<seq<Item>>)
    ensures |Lines(orders, parse)| == ItemCount(orders, parse)
  {
    ConcatLength(orders, LinesPerOrder(parse));
    ItemCountIsTotal(orders, parse);
  }

  /** Item j of order i becomes line ItemCount(orders[..i]) + j: it copies the
      order's id, date and customer, and the item's product and quantity
      (0 when absent). */
  lemma LinesAt(orders: seq<Order>, parse: string -> Option<seq<Item>>, i: nat, j: nat)
    requires i < |orders| && j < |Items(orders[i], parse)|
    ensures ItemCount(orders[..i], parse) + j < |Lines(orders, parse)|
    ensures var it := Items(orders[i], parse)[j];
            Lines(orders, parse)[ItemCount(orders[..i], parse) + j]
              == Line(orders[i].orderId, orders[i].orderDate, orders[i].customerId, it.productId,
                      if it.quantity.Some? then it.quantity.value else 0)
  {
    ConcatAt(orders, LinesPerOrder(parse), i, j);
    ItemCountIsTotal(orders[..i], parse);
  }

  /** Every line comes from some item of some order. */
  lemma LineOrigin(orders: seq<Order>, parse: string -> Option<seq<Item>>, k: nat)
    requires k < |Lines(orders, parse)|
    ensures exists i, j :: 0 <= i < |orders| && 0 <= j < |Items(orders[i], parse)|
                        && Lines(orders, parse)[k] == MakeLine(orders[i], Items(orders[i], parse)[j])
  {
    ConcatOrigin(orders, LinesPerOrder(parse), k);
  }

  /** An order whose list does not parse contributes no line: the lines are
      those of the other orders. */
  lemma UnparsableContributesNothing(orders: seq<Order>, parse: string -> Option<seq<Item>>, i: nat)
    requires i < |orders| && orders[i].products.Some?
    requires parse(NormalizeQuotes(orders[i].products.value)).None?
    ensures Lines(orders, parse) == Lines(orders[..i] + orders[i + 1..], parse)
  {
    var f := LinesPerOrder(parse);
    var before, after := orders[..i], orders[i + 1..];
    assert f(orders[i]) == [] by {
      assert Items(orders[i], parse) == [];
    }
    assert Concat([orders[i]], f) == [] by {
      assert [orders[i]][..0] == [];
    }
    assert orders == before + ([orders[i]] + after);
    ConcatAppend([orders[i]], after, f);
    ConcatAppend(before, [orders[i]] + after, f);
    ConcatAppend(before, after, f);
  }

  /** `explode_orders_to_lines`: one pass over the orders, appending one line
      per item; a null `products` cell raises. */
  method ExplodeOrdersToLines(orders: seq<Order>, parse: string -> Option<seq<Item>>) returns (r: Result<seq<Line>>)
    ensures r.Failure? <==> !Readable(orders)
    ensures r.Failure? ==> r.error == ProductsNotText
    ensures r.Success? ==> r.value == Lines(orders, parse)
  {
    var rows: seq<Line> := [];
    var i := 0;
    while i < |orders|
      invariant 0 <= i <= |orders|
      invariant Readable(orders[..i])
      invariant rows == Lines(orders[..i], parse)
    {
      var row := orders[i];
      if row.products.None? {
        return Failure(ProductsNotText);
      }
      var products := match parse(NormalizeQuotes(row.products.value))
        case Some(items) => items
        case None => [];
      var j := 0;
      while j < |products|
        invariant 0 <= j <= |products|
        invariant products == Items(row, parse)
        invariant rows == Lines(orders[..i], parse) + OrderLines(row, parse)[..j]
      {
        rows := rows + [MakeLine(row, products[j])];
        j := j + 1;
      }
      assert orders[..i + 1][..i] == orders[..i];
      i := i + 1;
    }
    assert orders[..|orders|] == orders;
    return Success(rows);
  }

  // ---------------------------------------------------------------------
  // Enrichment

  /** The join condition `l.ProductID = p."ProductID"`; a NULL id matches nothing. */
  predicate Matches(l: Line, p: Product) {
    l.productId.Some? && p.productId == l.productId
  }

  function MatchesOf(l: Line, products: seq<Product>): (r: seq<Product>)
    ensures forall p :: p in r <==> p in products && Matches(l, p)
  {
    if |products| == 0 then []
    else (if Matches(l, products[0]) then [products[0]] else []) + MatchesOf(l, products[1..])
  }

  /** A joined row: `COALESCE(p.ProductName, '')`, `COALESCE(p.Price, 0)`
      and `Quantity * COALESCE(p.Price, 0)`, with `p` NULL when unmatched. */
  function Enrich(l: Line, p: Option<Product>): FactLine {
    var name := if p.Some? && p.value.productName.Some? then p.value.productName.value else "";
    var price := if p.Some? && p.value.price.Some? then p.value.price.value else 0.0;
    FactLine(l.orderId, l.orderDate, l.customerId, l.productId, name, l.quantity, price, (l.quantity as real) * price)
  }

  /** The rows a LEFT JOIN makes of one line: one per matching product, or
      one with NULL product columns when nothing matches. */
  function JoinLine(l: Line, products: seq<Product>): seq<FactLine> {
    var ms := MatchesOf(l, products);
    if |ms| == 0 then [Enrich(l, None)]
    else seq(|ms|, k requires 0 <= k < |ms| => Enrich(l, Some(ms[k])))
  }

  function JoinWith(products: seq<Product>): Line -> seq<FactLine> {
    l => JoinLine(l, products)
  }

  /** `lines LEFT JOIN products`, line by line. */
  function LeftJoin(lines: seq<Line>, products: seq<Product>): seq<FactLine> {
    Concat(lines, JoinWith(products))
  }

  /** The branch without a product snapshot: every price is 0. */
  function NoProducts(lines: seq<Line>): (r: seq<FactLine>)
    ensures |r| == |lines|
  {
    seq(|lines|, i requires 0 <= i < |lines| =>
      var l := lines[i];
      FactLine(l.orderId, l.orderDate, l.customerId, l.productId, "", l.quantity, 0.0, (l.quantity as real) * 0.0))
  }

  /** The `order_lines` table, by whether a product snapshot was found. */
  function FactTable(lines: seq<Line>, products: Option<seq<Product>>): seq<FactLine> {
    match products
    case Some(ps) => LeftJoin(lines, ps)
    case None => NoProducts(lines)
  }

  /** `Quantity * Price AS Revenue`. */
  predicate RevenueConsistent(row: FactLine) {
    row.revenue == (row.quantity as real) * row.price
  }

  ghost predicate RevenueIsQuantityTimesPrice(rows: seq<FactLine>) {
    forall k :: 0 <= k < |rows| ==> RevenueConsistent(rows[k])
  }

  function CarriesLineOf(lines: seq<Line>): FactLine -> bool {
    row => LineOf(row) in lines
  }

  ghost predicate UniqueProductIds(products: seq<Product>) {
    forall i, j :: 0 <= i < j < |products| && products[i].productId.Some? ==>
      products[i].productId != products[j].productId
  }

  /** The product a line joins with when ids are unique. */
  function Lookup(l: Line, products: seq<Product>): Option<Product> {
    var ms := MatchesOf(l, products);
    if |ms| == 0 then None else Some(ms[0])
  }

  lemma JoinLineRows(l: Line, products: seq<Product>, k: nat)
    requires k < |JoinLine(l, products)|
    ensures LineOf(JoinLine(l, products)[k]) == l
    ensures JoinLine(l, products)[k].revenue == (l.quantity as real) * JoinLine(l, products)[k].price
  {
  }

  /** Every joined row carries the columns of an input line, and
      Revenue = Quantity * Price on it. */
  lemma LeftJoinRows(lines: seq<Line>, products: seq<Product>)
    ensures RevenueIsQuantityTimesPrice(LeftJoin(lines, products))
    ensures forall k :: 0 <= k < |LeftJoin(lines, products)| ==> LineOf(LeftJoin(lines, products)[k]) in lines
  {
    var f := JoinWith(products);
    forall i, j | 0 <= i < |lines| && 0 <= j < |f(lines[i])|
      ensures RevenueConsistent(f(lines[i])[j]) && CarriesLineOf(lines)(f(lines[i])[j])
    {
      JoinLineRows(lines[i], products, j);
    }
    ConcatEvery(lines, f, RevenueConsistent);
    ConcatEvery(lines, f, CarriesLineOf(lines));
  }

  /** Every line survives the join; an unmatched one survives once, with
      name '' and price 0. */
  lemma LeftJoinKeepsLine(lines: seq<Line>, products: seq<Product>, i: nat)
    requires i < |lines|
    ensures exists k :: 0 <= k < |LeftJoin(lines, products)| && LineOf(LeftJoin(lines, products)[k]) == lines[i]
    ensures MatchesOf(lines[i], products) == [] ==>
              exists k :: 0 <= k < |LeftJoin(lines, products)| && LeftJoin(lines, products)[k]
                == FactLine(lines[i].orderId, lines[i].orderDate, lines[i].customerId, lines[i].productId,
                            "", lines[i].quantity, 0.0, (lines[i].quantity as real) * 0.0)
  {
    var f := JoinWith(products);
    JoinLineRows(lines[i], products, 0);
    ConcatAt(lines, f, i, 0);
    var k := Total(lines[..i], f);
    assert LeftJoin(lines, products)[k] == JoinLine(lines[i], products)[0];
  }

  lemma {:induction false} NoMatchEmpty(l: Line, products: seq<Product>)
    requires forall p :: p in products ==> !Matches(l, p)
    ensures MatchesOf(l, products) == []
  {
    if |products| > 0 {
      assert products[0] in products;
      assert forall p :: p in products[1..] ==> p in products;
      NoMatchEmpty(l, products[1..]);
    }
  }

  lemma {:induction false} UniqueMatchesAtMostOne(l: Line, products: seq<Product>)
    requires UniqueProductIds(products)
    ensures |MatchesOf(l, products)| <= 1
  {
    if |products| > 0 {
      var rest := products[1..];
      assert UniqueProductIds(rest) by {
        forall i, j | 0 <= i < j < |rest| && rest[i].productId.Some?
          ensures rest[i].productId != rest[j].productId
        {
          assert rest[i] == products[i + 1] && rest[j] == products[j + 1];
        }
      }
      UniqueMatchesAtMostOne(l, rest);
      if Matches(l, products[0]) {
        forall p | p in rest
          ensures !Matches(l, p)
        {
          var j :| 0 <= j < |rest| && rest[j] == p;
          assert products[j + 1] == p;
        }
        NoMatchEmpty(l, rest);
      }
    }
  }

  /** With unique product ids the join keeps the line count and row i is
      line i enriched with its product, or with the defaults when none
      matches. */
  lemma LeftJoinUnique(lines: seq<Line>, products: seq<Product>)
    requires UniqueProductIds(products)
    ensures |LeftJoin(lines, products)| == |lines|
    ensures forall i :: 0 <= i < |lines| ==> LeftJoin(lines, products)[i] == Enrich(lines[i], Lookup(lines[i], products))
  {
    var f := JoinWith(products);
    forall i | 0 <= i < |lines|
      ensures |f(lines[i])| == 1 && f(lines[i])[0] == Enrich(lines[i], Lookup(lines[i], products))
    {
      UniqueMatchesAtMostOne(lines[i], products);
    }
    ConcatSingletons(lines, f);
  }

  /** Two products with one id double a line that matches them. */
  lemma DuplicateIdDoublesLine(l: Line, p: Product)
    requires l.productId.Some? && p.productId == l.productId
    ensures |LeftJoin([l], [p, p])| == 2
  {
    assert MatchesOf(l, [p]) == [p] by {
      assert [p][1..] == [];
    }
    assert MatchesOf(l, [p, p]) == [p, p] by {
      assert [p, p][1..] == [p];
    }
    ConcatOne(l, JoinWith([p, p]));
  }

  /** With no product snapshot every row has name '', price 0 and revenue 0,
      which is what a join with an empty product table gives. */
  lemma NoProductsDefaults(lines: seq<Line>)
    ensures |NoProducts(lines)| == |lines|
    ensures forall i :: 0 <= i < |lines| ==>
              && LineOf(NoProducts(lines)[i]) == lines[i]
              && NoProducts(lines)[i].productName == ""
              && NoProducts(lines)[i].price == 0.0
              && NoProducts(lines)[i].revenue == 0.0
    ensures NoProducts(lines) == LeftJoin(lines, [])
  {
    var f := JoinWith([]);
    ConcatSingletons(lines, f);
  }

  /** Both branches keep every line and satisfy Revenue = Quantity * Price. */
  lemma FactTableKeepsLines(lines: seq<Line>, products: Option<seq<Product>>)
    ensures RevenueIsQuantityTimesPrice(FactTable(lines, products))
    ensures forall i :: 0 <= i < |lines| ==>
              exists k :: 0 <= k < |FactTable(lines, products)| && LineOf(FactTable(lines, products)[k]) == lines[i]
    ensures forall k :: 0 <= k < |FactTable(lines, products)| ==> LineOf(FactTable(lines, products)[k]) in lines
  {
    match products
    case Some(ps) =>
      LeftJoinRows(lines, ps);
      forall i | 0 <= i < |lines|
        ensures exists k :: 0 <= k < |LeftJoin(lines, ps)| && LineOf(LeftJoin(lines, ps)[k]) == lines[i]
      {
        LeftJoinKeepsLine(lines, ps, i);
      }
    case None =>
      NoProductsDefaults(lines);
      forall i | 0 <= i < |lines|
        ensures exists k :: 0 <= k < |NoProducts(lines)| && LineOf(NoProducts(lines)[k]) == lines[i]
      {
        assert LineOf(NoProducts(lines)[i]) == lines[i];
      }
  }

  /** The fact table as the SQL engine sees it: an explode with no lines
      produces a frame without columns, and the query over `l.OrderID`
      fails on it. */
  function FactTableAsWritten(lines: seq<Line>, products: Option<seq<Product>>): (r: Result<seq<FactLine>>)
    ensures r.Failure? <==> |lines| == 0
    ensures r.Success? ==> r.value == FactTable(lines, products)
  {
    if |lines| == 0 then Failure(NoLineColumns) else Success(FactTable(lines, products))
  }

  /** A single order whose list parses as empty fails the run as written,
      although such an order is meant to contribute nothing and fail nothing. */
  lemma EmptyItemListsFailAsWritten(o: Order, parse: string -> Option<seq<Item>>, products: Option<seq<Product>>)
    requires o.products.Some? && parse(NormalizeQuotes(o.products.value)) == Some([])
    ensures Readable([o])
    ensures Lines([o], parse) == []
    ensures FactTableAsWritten(Lines([o], parse), products) == Failure(NoLineColumns)
  {
    assert Items(o, parse) == [];
    ConcatOne(o, LinesPerOrder(parse));
  }

  /** The corrected table: orders without items contribute no row and the
      table exists (empty) even when no order has an item. */
  lemma FactTableWithoutItems(orders: seq<Order>, parse: string -> Option<seq<Item>>, products: Option<seq<Product>>)
    requires forall i :: 0 <= i < |orders| ==> Items(orders[i], parse) == []
    ensures FactTable(Lines(orders, parse), products) == []
  {
    LinesCount(orders, parse);
    assert ItemCount(orders, parse) == 0 by {
      ItemCountZero(orders, parse);
    }
  }

  lemma {:induction false} ItemCountZero(orders: seq<Order>, parse: string -> Option<seq<Item>>)
    requires forall i :: 0 <= i < |orders| ==> Items(orders[i], parse) == []
    ensures ItemCount(orders, parse) == 0
  {
    if |orders| > 0 {
      var init := orders[..|orders| - 1];
      assert forall i :: 0 <= i < |init| ==> init[i] == orders[i];
      ItemCountZero(init, parse);
    }
  }

  // ---------------------------------------------------------------------
  // Inputs of the stage and the stage itself

  /** Where the raw orders come from: an explicit path (holding a table or
      not), or the latest partition of the raw orders directory. */
  datatype OrdersSource = OrdersPath(file: Option<seq<Order>>) | LatestOrders

  /** Where the products come from: an explicit partition directory (whose
      `products.parquet` may be absent), or the latest raw partition. */
  datatype ProductsSource = ProductsPath(file: Option<seq<Product>>) | LatestProducts

  /** `bronze_orders_path or _latest_partition_dir(BRONZE_ORDERS)`, then
      `read_parquet`. An explicit path names the orders file, which may be
      absent. The latest partition is read as a directory: its orders table,
      or no rows when it holds none. */
  function ResolveOrders(src: OrdersSource, store: Store<seq<Order>>): (r: Result<seq<Order>>)
    ensures src.OrdersPath? ==>
              r == if src.file.Some? then Success(src.file.value) else Failure(FileMissing(OrdersParquet))
    ensures src.LatestOrders? && !store.present ==> r == Failure(BaseMissing)
    ensures src.LatestOrders? && store.present && (forall e :: e in store.entries ==> !IsPartitionName(e)) ==>
              r == Failure(NoPartitions)
    ensures src.LatestOrders? && LatestPartition(store.present, store.entries).Failure? ==>
              r == Failure(LatestPartition(store.present, store.entries).error)
    ensures src.LatestOrders? && LatestPartition(store.present, store.entries).Success? ==>
              var name := LatestPartition(store.present, store.entries).value;
              r == Success(if name in store.files then store.files[name] else [])
  {
    match src
    case OrdersPath(file) =>
      if file.None? then Failure(FileMissing(OrdersParquet)) else Success(file.value)
    case LatestOrders =>
      var name :- LatestPartition(store.present, store.entries);
      Success(if name in store.files then store.files[name] else [])
  }

  /** The product table, if any: an explicit directory is used as given;
      otherwise the latest partition when the raw products directory exists
      (an existing directory without partitions raises), and no table when
      it does not. */
  function ResolveProducts(src: ProductsSource, store: Store<seq<Product>>): (r: Result<Option<seq<Product>>>)
    ensures src.LatestProducts? && !store.present ==> r == Success(None)
    ensures src.LatestProducts? && store.present && (forall e :: e in store.entries ==> !IsPartitionName(e)) ==>
              r == Failure(NoPartitions)
    ensures src.ProductsPath? ==> r == Success(src.file)
    ensures src.LatestProducts? && store.present && LatestPartition(true, store.entries).Failure? ==>
              r == Failure(LatestPartition(true, store.entries).error)
    ensures src.LatestProducts? && store.present && LatestPartition(true, store.entries).Success? ==>
              var name := LatestPartition(true, store.entries).value;
              r == Success(if name in store.files then Some(store.files[name]) else None)
    ensures src.LatestProducts? && r.Success? && r.value.Some? ==>
              LatestPartition(store.present, store.entries).Success?
              && var name := LatestPartition(store.present, store.entries).value;
                 name in store.files && r.value.value == store.files[name]
  {
    match src
    case ProductsPath(file) => Success(file)
    case LatestProducts =>
      if !store.present then Success(None)
      else
        var name :- LatestPartition(true, store.entries);
        Success(if name in store.files then Some(store.files[name]) else None)
  }

  /** `run`: resolve and read the orders, explode them, resolve the product
      table, then run the fact query, which as written fails when the
      explode produced no line. */
  method Run(ordersSrc: OrdersSource, ordersStore: Store<seq<Order>>,
             productsSrc: ProductsSource, productsStore: Store<seq<Product>>,
             parse: string -> Option<seq<Item>>)
    returns (r: Result<seq<FactLine>>)
    ensures ResolveOrders(ordersSrc, ordersStore).Failure? ==>
              r == Failure(ResolveOrders(ordersSrc, ordersStore).error)
    ensures ResolveOrders(ordersSrc, ordersStore).Success? && !Readable(ResolveOrders(ordersSrc, ordersStore).value) ==>
              r == Failure(ProductsNotText)
    ensures ResolveOrders(ordersSrc, ordersStore).Success? && Readable(ResolveOrders(ordersSrc, ordersStore).value) ==>
              var orders := ResolveOrders(ordersSrc, ordersStore).value;
              var products := ResolveProducts(productsSrc, productsStore);
              r == if products.Failure? then Failure(products.error)
                   else FactTableAsWritten(Lines(orders, parse), products.value)
  {
    var orders :- ResolveOrders(ordersSrc, ordersStore);
    var lines :- ExplodeOrdersToLines(orders, parse);
    var products :- ResolveProducts(productsSrc, productsStore);
    return FactTableAsWritten(lines, products);
  }
}
