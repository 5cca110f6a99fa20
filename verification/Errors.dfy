/** Errors that carry the process exit code, possibly below further wrapping. */
module Errors {
  import opened Common

  /**
   `Exit` is the coded error, with the error it holds; `Wrap` is any other error. `inner` is what they unwrap
   to, `None` when that does not unwrap any further.
   */
  datatype Error = Exit(code: int, inner: Option<Error>) | Wrap(inner: Option<Error>)

  const USAGE: int := 2
  const OPERATIONAL: int := 1
  const TIMEOUT: int := 124
  const INTERRUPTED: int := 130

  function Usage(): Error { Exit(USAGE, None) }
  function Operational(): Error { Exit(OPERATIONAL, None) }
  function Timeout(): Error { Exit(TIMEOUT, None) }
  function Interrupt(): Error { Exit(INTERRUPTED, None) }

  /** The coded errors met along the unwrap chain, outermost first. */
  function Codes(err: Option<Error>): seq<int> {
    match err
    case None => []
    case Some(Exit(code, inner)) => [code] + Codes(inner)
    case Some(Wrap(inner)) => Codes(inner)
  }

  /** The outermost code decides; an error without one counts as operational. */
  method ExitCode(err: Option<Error>) returns (code: int)
    ensures err.None? ==> code == 0
    ensures err.Some? && Codes(err) != [] ==> code == Codes(err)[0]
    ensures err.Some? && Codes(err) == [] ==> code == OPERATIONAL
  {
    if err.None? { return 0; }
    var rest := err;
    while rest.Some?
      invariant Codes(rest) == Codes(err)
      decreases rest
    {
      match rest.value {
        case Exit(c, _) => return c;
        case Wrap(inner) => rest := inner;
      }
    }
    return OPERATIONAL;
  }

  /** The exit code as a value, for use in statements about whole runs. */
  function CodeOf(err: Option<Error>): int {
    if err.None? then 0 else if Codes(err) == [] then OPERATIONAL else Codes(err)[0]
  }
}
