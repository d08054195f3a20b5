/** The raw-copy stage: validate the two CSV sources, stamp them, and write
    each as a snapshot into the partition named after the ingestion date. */
module Bronze {
  import opened Common
  import opened Dates
  import opened Records

  const OrdersFile: string := "orders.csv"
  const ProductsFile: string := "products.csv"
  const RequiredColumns: seq<string> := ["ProductID", "ProductName", "Price"]
  const IngestionTsColumn: string := "ingestion_ts"

  /** One reading of the UTC clock: the date (`strftime("%Y-%m-%d")`) and
      the ISO timestamp (`isoformat()`). */
  datatype Clock = Clock(date: Date, iso: string)

  datatype OrdersSnapshot = OrdersSnapshot(partition: string, rows: seq<Order>)
  datatype ProductsSnapshot = ProductsSnapshot(partition: string, columns: seq<string>, rows: seq<Product>)

  // ---------------------------------------------------------------------
  // Orders

  predicate DatesParse(csv: seq<RawOrder>, parseDate: string -> Option<DateTime>) {
    forall i :: 0 <= i < |csv| ==> parseDate(csv[i].orderDate).Some?
  }

  /** `rows` is `csv` with row i numbered i+1, its date parsed, and the
      ingestion timestamp `iso` stamped on it. */
  ghost predicate StampedOrders(csv: seq<RawOrder>, rows: seq<Order>, parseDate: string -> Option<DateTime>, iso: string) {
    && |rows| == |csv|
    && forall i :: 0 <= i < |csv| ==>
         && parseDate(csv[i].orderDate) == Some(rows[i].orderDate)
         && rows[i] == Order(i + 1, rows[i].orderDate, csv[i].customerId, csv[i].products, iso)
  }

  /** `ingest_orders`, up to the write: rejects an empty table and any
      unparsable date; otherwise overwrites the identifiers with 1..N and
      stamps every row with the same timestamp. */
  method IngestOrders(csv: seq<RawOrder>, parseDate: string -> Option<DateTime>, clock: Clock)
    returns (r: Result<OrdersSnapshot>)
    ensures |csv| == 0 ==> r == Failure(EmptySource(OrdersFile))
    ensures |csv| > 0 && !DatesParse(csv, parseDate) ==> r == Failure(InvalidOrderDate)
    ensures r.Success? <==> |csv| > 0 && DatesParse(csv, parseDate)
    ensures r.Success? ==> r.value.partition == PartitionName(clock.date)
    ensures r.Success? ==> StampedOrders(csv, r.value.rows, parseDate, clock.iso)
  {
    if |csv| == 0 {
      return Failure(EmptySource(OrdersFile));
    }
    // df["OrderDate"] = pd.to_datetime(df["OrderDate"], errors="coerce")
    var dates := seq(|csv|, i requires 0 <= i < |csv| => parseDate(csv[i].orderDate));
    assert forall i :: 0 <= i < |csv| ==> dates[i] == parseDate(csv[i].orderDate);
    if !(forall i :: 0 <= i < |dates| ==> dates[i].Some?) {
      return Failure(InvalidOrderDate);
    }
    // df["OrderID"] = range(1, len(df) + 1)
    var ids := seq(|csv|, i => i + 1);
    // df["ingestion_ts"] = now
    var stamps := seq(|csv|, _ => clock.iso);
    var rows := seq(|csv|, i requires 0 <= i < |csv| && dates[i].Some? =>
      Order(ids[i], dates[i].value, csv[i].customerId, csv[i].products, stamps[i]));
    return Success(OrdersSnapshot(PartitionName(clock.date), rows));
  }

  // ---------------------------------------------------------------------
  // Products

  /** `r` lists elements of `s` in the order they occur in `s`. */
  predicate InOrderOf(r: seq<string>, s: seq<string>)
    decreases |s|
  {
    if |r| == 0 then true
    else if |s| == 0 then false
    else if r[0] == s[0] then InOrderOf(r[1..], s[1..])
    else InOrderOf(r, s[1..])
  }

  /** `[c for c in wanted if c not in columns]`. */
  function Absent(wanted: seq<string>, columns: seq<string>): (r: seq<string>)
    ensures forall c :: c in r <==> c in wanted && c !in columns
    ensures InOrderOf(r, wanted)
  {
    if |wanted| == 0 then []
    else if wanted[0] !in columns then [wanted[0]] + Absent(wanted[1..], columns)
    else Absent(wanted[1..], columns)
  }

  /** `[c for c in wanted if c in columns]`. */
  function Present(wanted: seq<string>, columns: seq<string>): (r: seq<string>)
    ensures forall c :: c in r <==> c in wanted && c in columns
    ensures InOrderOf(r, wanted)
  {
    if |wanted| == 0 then []
    else if wanted[0] in columns then [wanted[0]] + Present(wanted[1..], columns)
    else Present(wanted[1..], columns)
  }

  /** The required columns absent from the header, in the fixed order
      ProductID, ProductName, Price. */
  function MissingRequired(columns: seq<string>): (r: seq<string>)
    ensures r == (if "ProductID" in columns then [] else ["ProductID"])
               + (if "ProductName" in columns then [] else ["ProductName"])
               + (if "Price" in columns then [] else ["Price"])
  {
    Absent(RequiredColumns, columns)
  }

  lemma {:induction false} NothingAbsentKeepsAll(wanted: seq<string>, columns: seq<string>)
    requires Absent(wanted, columns) == []
    ensures Present(wanted, columns) == wanted
  {
    if |wanted| > 0 {
      NothingAbsentKeepsAll(wanted[1..], columns);
    }
  }

  ghost predicate StampedProducts(raw: seq<RawProduct>, rows: seq<Product>, iso: string) {
    && |rows| == |raw|
    && forall i :: 0 <= i < |raw| ==>
         rows[i] == Product(raw[i].productId, raw[i].productName, raw[i].price, iso)
  }

  /** `ingest_products`, up to the write: a missing file gives None; an
      empty one is rejected, then one lacking a required column (the error
      names the missing ones); otherwise only the required columns are
      kept and the timestamp column is added. */
  method IngestProducts(file: Option<ProductsCsv>, clock: Clock) returns (r: Result<Option<ProductsSnapshot>>)
    ensures file.None? ==> r == Success(None)
    ensures file.Some? && |file.value.rows| == 0 ==> r == Failure(EmptySource(ProductsFile))
    ensures file.Some? && |file.value.rows| > 0 && MissingRequired(file.value.columns) != [] ==>
              r == Failure(MissingColumns(MissingRequired(file.value.columns)))
    ensures file.Some? && |file.value.rows| > 0 && MissingRequired(file.value.columns) == [] ==>
              && r.Success? && r.value.Some?
              && r.value.value.partition == PartitionName(clock.date)
              && r.value.value.columns == ["ProductID", "ProductName", "Price", "ingestion_ts"]
              && StampedProducts(file.value.rows, r.value.value.rows, clock.iso)
  {
    if file.None? {
      return Success(None);
    }
    var df := file.value;
    if |df.rows| == 0 {
      return Failure(EmptySource(ProductsFile));
    }
    var missing := MissingRequired(df.columns);
    if |missing| > 0 {
      return Failure(MissingColumns(missing));
    }
    var keep := Present(RequiredColumns, df.columns);
    NothingAbsentKeepsAll(RequiredColumns, df.columns);
    // df = df[keep] if keep else df
    var columns := if |keep| > 0 then keep else df.columns;
    // df["ingestion_ts"] = now
    columns := columns + [IngestionTsColumn];
    var rows := seq(|df.rows|, i requires 0 <= i < |df.rows| =>
      Product(df.rows[i].productId, df.rows[i].productName, df.rows[i].price, clock.iso));
    return Success(Some(ProductsSnapshot(PartitionName(clock.date), columns, rows)));
  }

  // ---------------------------------------------------------------------
  // Writing and orchestration

  /** `out_dir.mkdir(parents=True, exist_ok=True)` then `to_parquet`: the
      directory exists afterwards, the partition is listed once, and its
      table file is replaced. */
  function Publish<T>(store: Store<T>, partition: string, table: T): (s: Store<T>)
    ensures s.present
    ensures forall e :: e in s.entries <==> e in store.entries || e == partition
    ensures s.entries == if partition in store.entries then store.entries else store.entries + [partition]
    ensures s.files == store.files[partition := table]
  {
    Store(true, if partition in store.entries then store.entries else store.entries + [partition],
          store.files[partition := table])
  }

  ghost predicate Written<T>(before: Store<T>, after: Store<T>, partition: string) {
    partition in after.files && after == Publish(before, partition, after.files[partition])
  }

  /** The outcome of the raw stage: both stores as they are afterwards and
      the error raised, if any. */
  datatype BronzeOutcome = BronzeOutcome(orders: Store<seq<Order>>, products: Store<seq<Product>>, error: Option<PipelineError>)

  /** `run`: both source paths must exist before anything is read; then
      the orders are ingested and written, then the products. A products
      failure therefore leaves the orders snapshot written. */
  method Run(ordersCsv: Option<seq<RawOrder>>, productsCsv: Option<ProductsCsv>,
             ordersStore: Store<seq<Order>>, productsStore: Store<seq<Product>>,
             parseDate: string -> Option<DateTime>, ordersClock: Clock, productsClock: Clock)
    returns (out: BronzeOutcome)
    ensures ordersCsv.None? ==>
              out == BronzeOutcome(ordersStore, productsStore, Some(SourceMissing(OrdersFile)))
    ensures ordersCsv.Some? && productsCsv.None? ==>
              out == BronzeOutcome(ordersStore, productsStore, Some(SourceMissing(ProductsFile)))
    ensures ordersCsv.Some? && productsCsv.Some? && |ordersCsv.value| == 0 ==>
              out == BronzeOutcome(ordersStore, productsStore, Some(EmptySource(OrdersFile)))
    ensures ordersCsv.Some? && productsCsv.Some? && |ordersCsv.value| > 0 && !DatesParse(ordersCsv.value, parseDate) ==>
              out == BronzeOutcome(ordersStore, productsStore, Some(InvalidOrderDate))
    ensures ordersCsv.Some? && productsCsv.Some? && |ordersCsv.value| > 0 && DatesParse(ordersCsv.value, parseDate) ==>
              var name := PartitionName(ordersClock.date);
              && Written(ordersStore, out.orders, name)
              && StampedOrders(ordersCsv.value, out.orders.files[name], parseDate, ordersClock.iso)
    ensures ordersCsv.Some? && productsCsv.Some? && |ordersCsv.value| > 0 && DatesParse(ordersCsv.value, parseDate) ==>
              var p := productsCsv.value;
              var name := PartitionName(productsClock.date);
              if |p.rows| == 0 then
                out.products == productsStore && out.error == Some(EmptySource(ProductsFile))
              else if MissingRequired(p.columns) != [] then
                out.products == productsStore && out.error == Some(MissingColumns(MissingRequired(p.columns)))
              else
                && out.error.None?
                && Written(productsStore, out.products, name)
                && StampedProducts(p.rows, out.products.files[name], productsClock.iso)
    ensures out.error.Some? ==> (out.error.value.IsNotFound() <==> ordersCsv.None? || productsCsv.None?)
    ensures out.error.Some? ==> out.error.value.IsNotFound() || out.error.value.IsValidation()
  {
    if ordersCsv.None? {
      return BronzeOutcome(ordersStore, productsStore, Some(SourceMissing(OrdersFile)));
    }
    if productsCsv.None? {
      return BronzeOutcome(ordersStore, productsStore, Some(SourceMissing(ProductsFile)));
    }
    var orders := IngestOrders(ordersCsv.value, parseDate, ordersClock);
    if orders.Failure? {
      return BronzeOutcome(ordersStore, productsStore, Some(orders.error));
    }
    var ordersAfter := Publish(ordersStore, orders.value.partition, orders.value.rows);
    var products := IngestProducts(productsCsv, productsClock);
    if products.Failure? {
      return BronzeOutcome(ordersAfter, productsStore, Some(products.error));
    }
    // ingest_products returns None only for a missing file, refused above
    var snapshot := products.value.value;
    var productsAfter := Publish(productsStore, snapshot.partition, snapshot.rows);
    return BronzeOutcome(ordersAfter, productsAfter, None);
  }
}
