/**
 * Shared value types of the rating engine: optional values, results that carry the
 * exception the Python code would raise, and the transcendental functions the engine
 * calls (`math.exp`, `math.log`, `10 ** x`), supplied as function values.
 */
module Base {

  datatype Option<+T> = None | Some(value: T) {
    function GetOr(default: T): T {
      match this
      case Some(v) => v
      case None => default
    }
  }

  /** The exceptions the engine can raise part-way through a run. */
  datatype Error =
    | ZeroDivision     // ZeroDivisionError from `/` with a zero divisor
    | MathDomain       // ValueError from `math.log` of a non-positive number
    | MissingDriver    // AttributeError: a driver lookup returned None and `.ratings` was read
    | EmptyIndex       // IndexError: `xs[0]` or `xs[-1]` on an empty list

  datatype Result<+T> = Ok(value: T) | Err(error: Error) {
    predicate IsFailure() { Err? }
    function PropagateFailure<U>(): Result<U>
      requires Err?
    {
      Err(error)
    }
    function Extract(): T
      requires Ok?
    {
      value
    }
  }

  /**
   * `exp`, `log` and `pow10` stand for `math.exp`, `math.log` and `10 ** x`.
   * Nothing about them is assumed beyond what `Lawful` states: both exponentials are
   * positive and map 0 to 1.
   */
  datatype Math = Math(exp: real -> real, log: real -> real, pow10: real -> real)

  ghost predicate Lawful(m: Math) {
    && (forall x :: m.exp(x) > 0.0)
    && m.exp(0.0) == 1.0
    && (forall x :: m.pow10(x) > 0.0)
    && m.pow10(0.0) == 1.0
  }

  function Abs(x: int): nat {
    if x < 0 then -x else x
  }

  /** `sum(...)` over a list of reals. */
  function Sum(s: seq<real>): real
  {
    if |s| == 0 then 0.0 else Sum(s[..|s| - 1]) + s[|s| - 1]
  }

  /** The Elo expected score `1 / (1 + 10 ** ((opponent - own) / 400))`. */
  function ExpectedScore(m: Math, own: real, opponent: real): (e: real)
    requires Lawful(m)
    ensures 0.0 < e < 1.0
    ensures own == opponent ==> e == 0.5
  {
    var p := m.pow10((opponent - own) / 400.0);
    assert p > 0.0;
    1.0 / (1.0 + p)
  }
}
