/** Error kinds raised by the validators and the probability functions, and the
    result types that carry them. The package's exception classes are not
    modelled as a hierarchy: each kind is a plain constructor. */
module Errors {

  datatype Error =
    | NegativeNumber      // a count argument is below zero
    | InvalidInput        // a score outside the modelled state space (current modules)
    | InvalidProbability  // a probability outside [0, 1]
    | InvalidScore        // legacy module: bad in-game score
    | InvalidGamesWon     // legacy module: bad games-won pair

  /** The outcome of a validator: it either passes or raises one error. */
  datatype Outcome = Pass | Fail(error: Error) {
    /** Runs `next` only when this check passed, as consecutive guard calls do. */
    function Then(next: Outcome): (r: Outcome)
      ensures r.Pass? <==> Pass? && next.Pass?
      ensures Fail? ==> r == this
      ensures Pass? ==> r == next
    {
      if Fail? then this else next
    }
  }

  /** The value of a probability function, or the error it raises. */
  datatype Result<T> = Ok(value: T) | Err(error: Error)

  /** The result seen from the other player's side: a win probability v
      becomes 1 - v, an error stays the same error. */
  function Flip(res: Result<real>): (r: Result<real>)
    ensures r.Ok? <==> res.Ok?
    ensures res.Err? ==> r == res
  {
    match res
    case Ok(v) => Ok(1.0 - v)
    case Err(e) => Err(e)
  }
}
