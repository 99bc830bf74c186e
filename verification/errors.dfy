/** Failure-carrying values shared by every module of the model.
    Go's `(value, error)` pairs become `Result<T>`; the text of an error is
    modelled as a structured `Error` naming the failed check or the
    operation whose failure was wrapped with `%w`. */
module Errors {

  datatype Option<+T> = None | Some(value: T)

  /** Which call failed when an error from a collaborator is wrapped. */
  datatype Context =
    | LatestHeightQuery            // GetLatestBlockHeight
    | BlockRangeQuery              // GetBlockRange
    | BlockQuery(height: int)      // GetBlockByHeight / one block of a range
    | CurrentBlockQuery            // the block at the current height
    | StatisticsQuery              // CalculateStats inside the predictor

  datatype Error =
    | InvalidRange(startHeight: int, endHeight: int)
    | InsufficientSampleSize(size: int, minimum: int)
    | InsufficientValidBlockTimes(count: int, minimum: int)
    | NonPositiveCount
    | MissingEndpoint
    | InvalidTargetHeight(arg: string)
    | Upstream(reason: string)               // reported by the chain node
    | Wrapped(context: Context, cause: Error)
    | Panic(reason: string)                  // a Go runtime panic

  datatype Result<+T> = Ok(value: T) | Err(error: Error)
}
