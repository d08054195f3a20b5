/** The rows of the tables the stages pass to each other, and the
    date-partitioned directories the raw stage writes into. */
module Records {
  import opened Common
  import opened Dates

  /** A row of `orders.csv`. `OrderDate` is still text; `products` is the
      serialised item list, absent when the cell is empty. */
  datatype RawOrder = RawOrder(orderId: Option<int>, orderDate: string, customerId: string, products: Option<string>)

  /** A row of the raw orders snapshot. */
  datatype Order = Order(orderId: int, orderDate: DateTime, customerId: string, products: Option<string>, ingestionTs: string)

  /** The part of `products.csv` the pipeline reads: its header, and for each
      row the cells of the three required columns (absent when empty). */
  datatype ProductsCsv = ProductsCsv(columns: seq<string>, rows: seq<RawProduct>)
  datatype RawProduct = RawProduct(productId: Option<int>, productName: Option<string>, price: Option<real>)

  /** A row of the raw products snapshot. */
  datatype Product = Product(productId: Option<int>, productName: Option<string>, price: Option<real>, ingestionTs: string)

  /** One entry of an order's parsed product list. */
  datatype Item = Item(productId: Option<int>, quantity: Option<int>)

  /** An exploded order line. */
  datatype Line = Line(orderId: int, orderDate: DateTime, customerId: string, productId: Option<int>, quantity: int)

  /** A row of the refined fact table `order_lines`. */
  datatype FactLine = FactLine(
    orderId: int, orderDate: DateTime, customerId: string, productId: Option<int>,
    productName: string, quantity: int, price: real, revenue: real)

  /** The order-line columns of a fact row. */
  function LineOf(f: FactLine): Line {
    Line(f.orderId, f.orderDate, f.customerId, f.productId, f.quantity)
  }

  /** A partitioned raw directory: whether it exists, the names of its
      entries, and the table file held by each partition that has one. */
  datatype Store<T> = Store(present: bool, entries: seq<string>, files: map<string, T>)
}
