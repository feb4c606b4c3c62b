/** The error path of numpy's array routines used by the estimator:
    `np.correlate` and `argmax` raise ValueError on an empty array. */
module Outcome {

  datatype Error = EmptyArray

  datatype Result<T> = Success(value: T) | Failure(error: Error)
}
