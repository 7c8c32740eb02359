/** Failure-carrying wrappers and the error conditions the fusion code can hit. */
module Common {

  datatype Option<+T> = None | Some(value: T)

  /** The ways a run of the mesher stops early, one per exception the code can raise. */
  datatype Error =
    | FrameIndexOutOfRange   // `graph.frames[rfid]` raises IndexError
    | FrameIdMismatch        // `assert rframe.id == rfid` fails
    | ModelIdMismatch        // `assert rmodel.id == rframe.model_id` fails
    | PoseShape              // `reshape(3, 4)` of a pose that does not hold 12 values
    | ProjectionTooShort     // `rframe.projmatrix[3]` raises IndexError
    | NegativeSampleCount    // `np.random.choice` with a negative size
    | EmptySample            // `np.random.choice(0, k)` with k > 0
    | NoneComparison         // `None > 0` or `None < 0` raises TypeError
    | QuantileOutOfRange     // `np.quantile` with q outside [0, 1]
    | EmptyDensities         // `np.quantile` of an empty array
    | SolverArgument         // the Poisson binding refuses `width=None` or a negative `depth`
    | NoNormals              // the Poisson solver refuses a cloud without normals, such as an empty one

  datatype Result<+T> = Ok(value: T) | Err(error: Error) {
    predicate IsFailure() { Err? }

    function PropagateFailure<U>(): Result<U>
      requires Err?
    {
      Err(error)
    }

    function Extract(): T
      requires Ok?
    {
      value
    }
  }
}
