/** The Option datatype used throughout the model: `None` stands for Python's
    `None`, and for numpy's NaN in the timing columns of the trial table. */
module Wrappers {

  datatype Option<+T> = None | Some(value: T) {

    /** Returns the value in Some or a default value if None. */
    function GetOr(default: T): T
    {
      match this
      case Some(v) => v
      case None => default
    }
  }
}
