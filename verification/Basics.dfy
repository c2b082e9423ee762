/** Types shared by every component: optional values, results that carry the
    state they leave behind, and rounding to whole kobo. */
module Basics {

  datatype Option<+T> = None | Some(value: T)

  datatype Error =
    | NotFound
    | TooFewLines
    | TypeRequired
    | InvalidDate
    | NegativeAmount(line: nat)
    | MissingAccount(line: nat)
    | Unbalanced
    | PeriodClosed
    | WrongStatus
    | InvalidInput
    | NothingToCharge
    | AlreadyDone
    | RequestLocked
    | Forbidden
    | NotYourStep
    | PastCutOff
    | UnknownAction

  datatype Result<+T> = Ok(value: T) | Err(error: Error)

  /** What a service call leaves behind. A failed call may still have changed
      the state: work committed before the failure stays. */
  datatype Outcome<+S, +T> = Outcome(state: S, result: Result<T>)

  function Abs(x: int): nat {
    if x < 0 then -x else x
  }

  function Max(x: int, y: int): int {
    if x < y then y else x
  }

  function Min(x: int, y: int): int {
    if x < y then x else y
  }

  /** The k-th of a list of choices, zero once they run out. */
  function Nth(choices: seq<nat>, k: nat): nat {
    if k < |choices| then choices[k] else 0
  }

  function Product(x: real, y: real): real {
    x * y
  }

  /** Rounding half away from zero. `Round(k)` of an amount in kobo is the
      whole number of kobo nearest to `k`. */
  function Round(x: real): (r: int)
    ensures -0.5 <= r as real - x <= 0.5
    ensures x == x.Floor as real ==> r == x.Floor
  {
    if x >= 0.0 then (x + 0.5).Floor else -((-x + 0.5).Floor)
  }

  lemma RoundMonotone(x: real, y: real)
    requires x <= y
    ensures Round(x) <= Round(y)
  {
  }

  lemma RoundWhole(n: int)
    ensures Round(n as real) == n
  {
  }

  function AbsReal(x: real): real {
    if x < 0.0 then -x else x
  }

  lemma ProductOfQuotient(x: real, total: real)
    requires x != 0.0
    ensures Product(x, total / x) == total
  {
  }

  lemma ProductNear(x: real, a: real, b: real)
    requires -0.5 <= a - b <= 0.5
    ensures AbsReal(Product(x, a) - Product(x, b)) <= AbsReal(x) / 2.0
  {
    var d := a - b;
    assert Product(x, a) - Product(x, b) == x * d;
    if x >= 0.0 {
      assert x * -0.5 <= x * d <= x * 0.5;
    } else {
      assert -x * -0.5 <= -x * d <= -x * 0.5;
      assert -x * d == -(x * d);
    }
  }

  /** Halves go away from zero, on either side. */
  lemma HalvesGoOut(n: nat)
    ensures Round(n as real + 0.5) == n + 1 && Round(-(n as real) - 0.5) == -1 - n
  {
  }
}
