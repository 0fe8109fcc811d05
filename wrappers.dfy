/** The `None`-or-value results of the time-series helpers. */
module Wrappers {

  /** `None` stands for the helpers' Python `None` ("too little history"). */
  datatype Option<+T> = None | Some(value: T)

  /** The fallback the MA-cross indicators apply: a missing average becomes 0. */
  function OrZero(o: Option<real>): (r: real)
    ensures o.Some? ==> r == o.value
    ensures r == 0.0 <==> o.None? || o.value == 0.0
  {
    match o
    case None => 0.0
    case Some(v) => v
  }
}
