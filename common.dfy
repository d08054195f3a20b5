/** Failure-compatible wrappers and the pipeline's error taxonomy. */
module Common {

  datatype Option<+T> = None | Some(value: T)

  /** The conditions under which a stage raises. The first group is raised as
      FileNotFoundError, the second as ValueError, the last two surface as
      uncaught library errors. */
  datatype PipelineError =
    | SourceMissing(file: string)          // a CSV source path does not exist
    | BaseMissing                          // a partitioned raw directory does not exist
    | NoPartitions                         // no `ingestion_date=*` entry under it
    | FileMissing(file: string)            // a table file to be read does not exist
    | EmptySource(file: string)            // the CSV has no rows
    | InvalidOrderDate                     // some OrderDate does not parse
    | MissingColumns(columns: seq<string>) // required product columns are absent
    | ProductsNotText                      // an order's `products` cell is null
    | NoLineColumns                        // the line table handed to the SQL engine has no columns
  {
    predicate IsNotFound() {
      SourceMissing? || BaseMissing? || NoPartitions? || FileMissing?
    }

    predicate IsValidation() {
      EmptySource? || InvalidOrderDate? || MissingColumns?
    }
  }

  datatype Result<+T> = Success(value: T) | Failure(error: PipelineError) {
    predicate IsFailure() {
      Failure?
    }

    function PropagateFailure<U>(): Result<U>
      requires Failure?
    {
      Failure(error)
    }

    function Extract(): T
      requires Success?
    {
      value
    }
  }
}
