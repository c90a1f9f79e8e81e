/** Failure-carrying values and the error conditions the DMD code raises. */
module Wrappers {

  datatype Option<T> = None | Some(value: T)

  datatype Result<T, E> = Success(value: T) | Failure(error: E)

  /** The outcome of an operation that only changes state. */
  datatype Outcome<E> = Pass | Fail(error: E)

  /** The exceptions the modelled code can raise, one constructor per cause. */
  datatype Error =
      /** `AttributeError`: the operator `A` was never assigned, the model is not fitted. */
    | NotFitted
      /** `ValueError` of `DMDwC.fit`: X and U differ in their number of time steps. */
    | TimeStepMismatch(stateSteps: nat, controlSteps: nat)
      /** `ValueError` of `DMDwC.predict`: u does not have `forecast` time steps. */
    | ForecastMismatch(controlSteps: nat, forecast: int)
      /** `ValueError` raised by numpy when the operands of `@`, `+` or an assignment do not fit. */
    | OperandShape
      /** `ValueError` raised by `np.zeros` for a negative dimension. */
    | NegativeDimension
      /** `IndexError`: a column index past the end of an array. */
    | IndexOutOfRange
      /** The broadcast subtraction of the known control effect failed. */
    | BroadcastFailure
}
