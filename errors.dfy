/**
 * Failure-carrying values shared by every module of the model.
 *
 * The Python code signals failure by raising exceptions; the model returns
 * them as values. `Error` names the exception classes the modelled code can
 * raise, plus `NotANumber` for the places where numpy quietly produces NaN
 * instead of raising.
 */
module Errors {

  datatype Error =
    | ValueError            // dimension guard, train-set validation, ECDF padding
    | NotImplementedError   // a surrogate queried before `train`
    | IndexError            // `x[0]` / `y[-1]` / `results_log[0]` on an empty list
    | AttributeError        // `self.train_set` read before any successful `train`
    | NotFittedError        // scikit-learn model queried before `fit`
    | ZeroDivisionError     // Python `/` by the integer 0
    | NotANumber            // numpy `0.0 / 0.0`: the source goes on with NaN

  datatype Option<+T> = None | Some(value: T)

  datatype Result<+T> = Ok(value: T) | Err(error: Error)

  /** The result of a call whose only observable product is success or an exception. */
  datatype Outcome = Pass | Fail(error: Error)
}
