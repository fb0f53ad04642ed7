/** Failure-compatible wrappers and the Python exceptions the recommender core can raise. */
module Wrappers {

  datatype Option<+T> = None | Some(value: T)

  datatype Result<+T, +E> = Success(value: T) | Failure(error: E) {
    predicate IsFailure() {
      Failure?
    }

    function PropagateFailure<U>(): Result<U, E>
      requires Failure?
    {
      Failure(error)
    }

    function Extract(): T
      requires Success?
    {
      value
    }
  }

  /** The exceptions raised (and never caught) along the evaluation pipeline. */
  datatype PyError =
    | ZeroDivisionError   // a mean over an empty dictionary of users
    | ValueError          // an empty matrix for cosine similarity, an impossible fold split
    | KeyError            // a missing dictionary key or data-frame column
    | IndexError          // the first element of an empty ranking
    | UnboundLocalError   // a ranking key that no branch assigns a result for
    | AttributeError      // `.group()` on a regex search that found nothing
    | PredictorError      // anything the external predictor raises in fit/test/rmse

  /** numpy's float as far as the pipeline distinguishes it: a number or NaN (`np.mean([])`). */
  datatype Score = Value(v: real) | NaN
}
