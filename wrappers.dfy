/** Small value wrappers shared by the model. */
module Wrappers {

  /** An optional value; `None` stands for JavaScript's `undefined`/`NaN` markers. */
  datatype Option<+T> = None | Some(value: T) {

    /** The wrapped value, or `default` when there is none (JavaScript's `??`). */
    function GetOr(default: T): T {
      match this
      case Some(v) => v
      case None => default
    }
  }
}
