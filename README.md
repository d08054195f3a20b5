# A verified model of the order-analytics pipeline

The pipeline has three stages. Each one turns tables into tables.

- **Raw copy** (`src/pipeline/bronze/ingest.py`). It reads `orders.csv` and `products.csv` and validates them. It renumbers the orders 1..N and stamps every row with one ingestion timestamp. It writes each table into a partition directory named `ingestion_date=YYYY-MM-DD`.
- **Refinement** (`src/pipeline/silver/transform.py`). It picks the latest raw partition by descending string order of the directory names. It explodes each order's embedded product list into one line per item. It left-joins the lines with the product snapshot, defaulting the name to `''` and the price to 0. It computes `Revenue = Quantity * Price`.
- **Aggregation** (`src/pipeline/gold/aggregate.py`). It runs five GROUP BY / SUM queries over the fact table: per order, per day, per month, per year and per product. It refuses a missing fact table. It returns the map from aggregate name to output path.

Tables are sequences of records, and directories are values. A partitioned raw directory is a `Store`: whether it exists, its entry names, and the table held by each partition. Each stage fails with a `PipelineError` from `Common`. Its `IsNotFound` and `IsValidation` predicates follow the code's split between FileNotFoundError and ValueError.

Modules:

| module | what it holds |
|---|---|
| `Common` | `Option`, `Result` and the error taxonomy |
| `Dates` | dates, the zero-padded text `YYYY-MM-DD`, string order, and the proof that string order on partition names is date order |
| `Records` | the row types passed between stages, and `Store` |
| `Partitions` | `_latest_partition_dir` |
| `Bronze` | `ingest_orders`, `ingest_products` and the raw stage's `run`, as methods |
| `Flatten` | concatenating one block of output per input row (shared by the explode and the join) |
| `Silver` | the explode loop (a method with nested loops), the join, the no-products branch, and the refinement `run` |
| `Grouping` | one GROUP BY / SUM, with its promise and conservation |
| `Gold` | the five aggregates, the path map, and the aggregation `run` |
| `Pipeline` | properties that link the stages |

Parameters stand in for the parts not modelled:
- `pd.to_datetime` (`parseDate`) and `json.loads` (`parse`) are function parameters that return an `Option`.
- `datetime.now(timezone.utc)` is a `Clock` parameter that carries the date and the ISO text.
- An input file is an `Option` of its table; `None` means the path does not exist.

Where the code and its own documentation disagree, the model follows the code. The docstring of the raw stage's `run` says the products result is `None` when the products source is missing (`ingest.py:92-93`). The code raises FileNotFoundError for it instead (`ingest.py:102-103`). So `Bronze.Run` fails with `SourceMissing("products.csv")`, and the `None` result of `Bronze.IngestProducts` cannot be reached through `Bronze.Run`. The refinement stage does tolerate a missing products directory (`transform.py:118-122`). There, `Silver.ResolveProducts` yields no table and the fact table takes the zero-price branch.

## Model

| member | source | states |
|---|---|---|
| `Dates.DigitsOrder` | src/pipeline/bronze/ingest.py:34 | for numbers below 10^w, string order on their zero-padded w-digit text is numeric order, and the texts are equal exactly when the numbers are |
| `Dates.FormatDateOrder` | src/pipeline/bronze/ingest.py:34 | for valid dates, `%Y-%m-%d` texts compare in string order exactly as the dates compare in time, and are equal exactly when the dates are |
| `Dates.PartitionNameOrder` | src/pipeline/bronze/ingest.py:34-36 | the same holds for the directory names `ingestion_date=YYYY-MM-DD` |
| `Partitions.PartitionNameMatches` | src/pipeline/bronze/ingest.py:36 | every name the raw stage writes matches the glob `ingestion_date=*` |
| `Partitions.Matching` | src/pipeline/silver/transform.py:39 | the glob keeps exactly the entries whose name starts with `ingestion_date=` |
| `Partitions.SortDescendingSorted` | src/pipeline/silver/transform.py:39 | `sorted(..., reverse=True)` gives a permutation of its input in descending string order |
| `Partitions.LatestPartition` | src/pipeline/silver/transform.py:37-42 | fails with BaseMissing when the base is absent and with NoPartitions when nothing matches; succeeds whenever the base exists and some entry matches; the result is a matching entry that no matching entry exceeds in string order |
| `Bronze.IngestOrders` | src/pipeline/bronze/ingest.py:27-36 | an empty table fails with EmptySource; any unparsable date fails with InvalidOrderDate; it succeeds exactly when neither holds. On success row i has id i+1, its parsed date, its customer and products unchanged, and the one timestamp; the partition is `ingestion_date=` plus the date |
| `Bronze.Absent` | src/pipeline/bronze/ingest.py:66 | the comprehension keeps exactly the wanted names not in the header, in wanted order |
| `Bronze.Present` | src/pipeline/bronze/ingest.py:71 | the comprehension keeps exactly the wanted names in the header, in wanted order |
| `Bronze.MissingRequired` | src/pipeline/bronze/ingest.py:65-66 | the missing-column list is ProductID, ProductName, Price in that order, each included exactly when absent from the header |
| `Bronze.NothingAbsentKeepsAll` | src/pipeline/bronze/ingest.py:67-72 | when no required column is missing, `keep` is all three required columns |
| `Bronze.IngestProducts` | src/pipeline/bronze/ingest.py:58-74 | a missing file gives no snapshot and no error; an empty one fails with EmptySource; missing columns fail with MissingColumns listing them; otherwise the columns are ProductID, ProductName, Price, ingestion_ts and every row is stamped with the one timestamp |
| `Bronze.Publish` | src/pipeline/bronze/ingest.py:36-39 | after a write the directory exists, its entries are the old ones with the partition appended when it was not yet listed, and the partition's table is replaced while every other partition keeps its table |
| `Bronze.Run` | src/pipeline/bronze/ingest.py:98-106 | a missing orders or products path fails with SourceMissing before anything is written; an orders failure writes nothing; valid orders are written before the products are read, so a products failure leaves the orders snapshot written; a not-found error arises exactly for a missing path, and every error is not-found or validation |
| `Silver.NormalizeQuotes` | src/pipeline/silver/transform.py:72 | every `'` becomes `"`, every other character and the length are unchanged |
| `Silver.ExplodeOrdersToLines` | src/pipeline/silver/transform.py:69-83 | the loop fails with ProductsNotText exactly when some `products` cell is null; otherwise it returns the concatenation, order by order, of one line per parsed item |
| `Silver.LinesCount` | src/pipeline/silver/transform.py:69-83 | the number of lines is the sum over the orders of their parsed list lengths |
| `Silver.LinesAt` | src/pipeline/silver/transform.py:75-82 | item j of order i is line `ItemCount(orders[..i]) + j`: it has the order's id, date and customer, the item's product, and the item's quantity or 0 |
| `Silver.LineOrigin` | src/pipeline/silver/transform.py:70-82 | every line is made from some item of some order |
| `Silver.UnparsableContributesNothing` | src/pipeline/silver/transform.py:71-74 | an order whose list fails to parse adds no line: the lines equal those of the other orders |
| `Silver.MatchesOf` | src/pipeline/silver/transform.py:132 | the products a line joins with are exactly those with its product id; a NULL id matches none |
| `Silver.JoinLineRows` | src/pipeline/silver/transform.py:127-130 | every row made from a line carries that line's columns and `Revenue = Quantity * Price` |
| `Silver.LeftJoinRows` | src/pipeline/silver/transform.py:126-132 | every joined row carries the columns of an input line, and Revenue = Quantity * Price holds on every row |
| `Silver.LeftJoinKeepsLine` | src/pipeline/silver/transform.py:127-132 | every line occurs in the join; an unmatched line occurs with name `''`, price 0 and revenue 0 |
| `Silver.UniqueMatchesAtMostOne` | src/pipeline/silver/transform.py:132 | with unique product ids a line matches at most one product |
| `Silver.LeftJoinUnique` | src/pipeline/silver/transform.py:124-133 | with unique product ids the join keeps the line count, and row i is line i enriched with its product, or with the defaults |
| `Silver.DuplicateIdDoublesLine` | src/pipeline/silver/transform.py:132 | two products with one id give a matching line two rows, so uniqueness is needed for length preservation |
| `Silver.NoProducts` | src/pipeline/silver/transform.py:135-140 | the branch without products has one row per line |
| `Silver.NoProductsDefaults` | src/pipeline/silver/transform.py:135-140 | that branch keeps each line with name `''`, price 0 and revenue 0, the same as a join with an empty product table |
| `Silver.FactTableKeepsLines` | src/pipeline/silver/transform.py:118-140 | in both branches every line occurs in the fact table, each fact row comes from a line, and Revenue = Quantity * Price |
| `Silver.FactTableAsWritten` | src/pipeline/silver/transform.py:83 | as written, the fact query fails exactly when the explode produced no line |
| `Silver.EmptyItemListsFailAsWritten` | src/pipeline/silver/transform.py:83 | one order whose list parses as `[]` fails the refinement as written |
| `Silver.FactTableWithoutItems` | src/pipeline/silver/transform.py:69-83 | corrected: orders without items give an empty fact table and no failure |
| `Silver.ResolveOrders` | src/pipeline/silver/transform.py:106-111 | an explicit path gives its table, or FileMissing when the file is absent; otherwise BaseMissing for an absent directory, NoPartitions when nothing matches, and on success the orders table of the latest partition (no rows when that partition holds none) |
| `Silver.ResolveProducts` | src/pipeline/silver/transform.py:118-122 | an explicit directory gives its `products.parquet` if present and no table otherwise; without one, an absent products directory gives no table, one without partitions fails with NoPartitions, and otherwise the result is the latest partition's table if it holds one and no table if not |
| `Silver.Run` | src/pipeline/silver/transform.py:106-140 | the orders are resolved, then exploded, then the products are resolved, each failure stopping the stage; then the fact query runs as written: it fails with NoLineColumns when no line was produced, and otherwise returns the fact table of the exploded lines |
| `Grouping.GroupSumCorrect` | src/pipeline/gold/aggregate.py:78-89 | GROUP BY gives distinct keys, exactly the keys of the rows, each with the sums over the rows with that key |
| `Grouping.GroupSumConserves` | src/pipeline/gold/aggregate.py:75-89 | the groups' revenue and quantity add up to those of all rows |
| `Grouping.GroupSumCoarsens` | src/pipeline/gold/aggregate.py:81-86 | summing the groups of a finer key whose key maps to y gives the sum over the rows whose coarser key is y |
| `Gold.AggregateConserves` | src/pipeline/gold/aggregate.py:75-89 | each of the five tables sums to the fact table's revenue and quantity |
| `Gold.AggregateGroups` | src/pipeline/gold/aggregate.py:78-89 | the day, month, year and product tables each have one row per key of the fact table with that key's sums |
| `Gold.PerOrderGroups` | src/pipeline/gold/aggregate.py:75-77 | `sales_per_order` has one row per distinct pair of order id and raw timestamp, showing that timestamp's date |
| `Gold.PerOrderSplitsByTime` | src/pipeline/gold/aggregate.py:76 | two lines of one order on one day at different times give two rows with the same order and date |
| `Gold.PerOrderDistinctIds` | src/pipeline/gold/aggregate.py:76 | when lines of one order share one timestamp, `sales_per_order` has one row per order id |
| `Gold.YearIsSumOfMonths` | src/pipeline/gold/aggregate.py:81-86 | each year's row equals the sum of that year's month rows |
| `Gold.OverridePaths` | src/pipeline/gold/aggregate.py:60-61 | with `gold_base` the keys are exactly the five names and k maps to `gold_base/k.parquet` |
| `Gold.DefaultPaths` | src/pipeline/gold/aggregate.py:53-61 | the default map is the override with the configured gold directory |
| `Gold.Run` | src/pipeline/gold/aggregate.py:48-61 | fails exactly when the fact table is missing, with a not-found error; otherwise returns the five tables and the path map |
| `Pipeline.LatestIsNewestDate` | src/pipeline/silver/transform.py:39-42 | over partitions written by the raw stage the choice by string order is the partition of a newest date |
| `Pipeline.PublishedTodayIsLatest` | src/pipeline/bronze/ingest.py:34-39 | after today's snapshot is written, with no partition of a later date, it is the one the refinement reads |
| `Pipeline.StampedLinesConsistent` | src/pipeline/silver/transform.py:77-79 | after raw numbering, fact rows with one order id share one timestamp |
| `Pipeline.OneRowPerOrder` | src/pipeline/gold/aggregate.py:76 | through the whole pipeline `sales_per_order` has one row per order id |
| `Pipeline.OneOrderExample` | src/pipeline/silver/transform.py:124-133 | one order of two units of a product priced 10.0 gives one line of revenue 20.0 and a day row of 20.0 for 2 units |
| `Pipeline.NoProductTableExample` | src/pipeline/silver/transform.py:135-140 | without a product table every line is kept with name `''`, price 0 and revenue 0 |
| `Pipeline.MissingInputsAreNotFound` | src/pipeline/silver/transform.py:37-41 | every failure of resolving the refinement's inputs (a missing directory, no partition, a missing explicit orders file) and of the aggregation's missing input is a not-found error |

## Findings

| source | as written | input that shows it | evidently intended | confidence | as-written member | corrected member |
|---|---|---|---|---|---|---|
| src/pipeline/silver/transform.py:83 | `pd.DataFrame(rows)` over an empty `rows` has no columns, so both fact queries (lines 124-140) fail to bind `OrderID` | one order whose `products` is `"[]"` (or does not parse): no line is produced and the refinement raises | orders without items contribute nothing and the run does not fail, which gives an empty fact table | medium, not executed | `Silver.FactTableAsWritten`, `Silver.EmptyItemListsFailAsWritten` | `Silver.FactTable`, `Silver.FactTableWithoutItems` |

## Left out

- File I/O is not modelled: `read_csv`, `read_parquet`, `to_parquet`, `COPY ... TO`, `mkdir`, path resolution and backslash replacement. Stored tables are values; a directory is a `Store`.
- DuckDB and pandas are modelled only by the relational meaning of the visible SQL and the column updates.
- `pd.to_datetime` and `json.loads` are abstract parameters. A parse result that is JSON but not a list of objects is outside the model.
- The uncaught `int()` and `.get` failures on malformed items (`transform.py:80-81`) are not modelled; an item is a pair of optional id and optional integer quantity.
- `Bronze.IngestOrders`: one `Clock` reading supplies both the partition date and the timestamp. The source reads the clock twice (`ingest.py:34-35`), so the two can disagree across midnight; the model does not capture that.
- Floating-point `DOUBLE` arithmetic is modelled by exact `real` arithmetic, so the sum-conservation lemmas hold exactly. The `::DOUBLE` casts are the identity.
- `read_csv` failures (a malformed file, or an absent `OrderDate` or `products` column raising KeyError) are not modelled. Orders columns other than OrderID, OrderDate, CustomerID and `products` are not carried.
- Column type inference is not modelled: `ProductID` is an integer in both tables, so differently typed ids cannot meet in the join.
- `Silver.ResolveOrders`: the latest orders partition is handed to `read_parquet` as a directory (`transform.py:106, 111`). The model reads a partition that holds no orders table as no rows, which then meets the no-column failure of the fact query. What pyarrow does with a directory holding other files is not modelled.
- `Silver.Run`: the no-column failure is placed at the fact query (`transform.py:124-140`). Should DuckDB already refuse the empty frame at `register` (`transform.py:116`), that failure would come before the products are resolved; the model reports a products failure first.
- `Silver.LeftJoin` and `Grouping.GroupSum` fix a row order (line then product; first appearance of a key). SQL leaves row order unspecified, so every property is stated over the rows as a whole, or per row of that fixed order.
- `Dates`: only the year, month and day of a date, and a microsecond count within the day, are represented. `CAST(OrderDate AS DATE)`, `YEAR` and `MONTH` read those fields. Validity is 1 ≤ year ≤ 9999, 1 ≤ month ≤ 12, 1 ≤ day ≤ 31, without days-per-month checks.
- The directory loop `aggregate.py:62-63` only creates directories, and lines 142-147 only write the file and count the rows.
- `src/pipeline/run.py` (sequential calls and publishing to Parquet, CSV and SQLite sinks), `src/pipeline/config.py` (path constants), `dags/airflow_dag.py`, `src/logging_config.py` and `src/main.py` are not part of this model.
