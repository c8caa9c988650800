/**
 * The observations screen: free-text observations and the arithmetic check
 * ("a + b = ?") that must be answered before the order is finished.
 */
module ObservationsForm {
  import opened Wrappers
  import opened JsText

  /** The message shown after a wrong answer. */
  const WrongAnswerError: string := "Codul de verificare este incorect."

  /** `Math.floor(r * 10) + 1` for a draw `r` of `Math.random()`. */
  function Operand(r: real): (n: int)
    requires 0.0 <= r < 1.0
    ensures 1 <= n <= 10
  {
    (r * 10.0).Floor + 1
  }

  /** Every operand from 1 to 10 comes out of some draw. */
  lemma EveryOperandReachable(n: int)
    requires 1 <= n <= 10
    ensures 0.0 <= (n - 1) as real / 10.0 < 1.0
    ensures Operand((n - 1) as real / 10.0) == n
  {
    assert (n - 1) as real / 10.0 * 10.0 == (n - 1) as real;
  }

  /** The check passes when `parseInt` of the answer equals the expected sum. */
  predicate Accepts(answer: string, result: int)
  {
    ParseInt(answer) == Some(result)
  }

  /** A plain decimal answer passes exactly when it is the sum. */
  lemma DecimalAnswerAcceptedIffSum(n: nat, result: int)
    ensures Accepts(NatToString(n), result) <==> n == result
  {
    ParseIntOfNatString(n);
  }

  /** `parseInt` stops at the first non-digit, so the sum followed by other text
      passes too; a number input can hold such text as a fraction or an exponent
      ("7.9" or "7e1" for 3 + 4). */
  lemma TrailingTextAccepted(n: nat, rest: string)
    requires |rest| == 0 || (!IsDigit(rest[0]) && rest[0] != 'x' && rest[0] != 'X')
    ensures Accepts(NatToString(n) + rest, n)
  {
    ParseIntOfNatStringThen(n, rest);
  }

  /** The number input's value "7.9" passes the challenge 3 + 4. */
  lemma FractionalAnswerAccepted()
    ensures Accepts("7.9", 3 + 4)
  {
    TrailingTextAccepted(7, ".9");
    assert NatToString(7) + ".9" == "7.9";
  }

  /** An empty or blank answer never passes, whatever the sum. */
  lemma BlankAnswerRejected(answer: string, result: int)
    requires forall i :: 0 <= i < |answer| ==> IsSpace(answer[i])
    ensures !Accepts(answer, result)
  {
    ParseIntOfBlank(answer);
  }

  class ObservationsForm {
    var observations: string
    var a: int
    var b: int
    var result: int
    var answer: string
    var error: Option<string>

    /** The expected result is the sum of the operands, which are 1..10 once drawn. */
    ghost predicate Valid()
      reads this
    {
      && result == a + b
      && ((a == 0 && b == 0) || (1 <= a <= 10 && 1 <= b <= 10))
    }

    /** The state as first rendered, before the mount effect draws the operands. */
    constructor ()
      ensures Valid()
      ensures observations == "" && a == 0 && b == 0 && result == 0 && answer == "" && error == None
    {
      observations := "";
      a, b, result := 0, 0, 0;
      answer := "";
      error := None;
    }

    /** `generateCaptcha`, with the two draws of `Math.random()` given: new operands,
        their sum, and an empty answer. */
    method GenerateCaptcha(ra: real, rb: real)
      requires Valid() && 0.0 <= ra < 1.0 && 0.0 <= rb < 1.0
      modifies this
      ensures Valid()
      ensures a == Operand(ra) && b == Operand(rb) && 2 <= result <= 20
      ensures answer == "" && observations == old(observations) && error == old(error)
    {
      a := Operand(ra);
      b := Operand(rb);
      result := a + b;
      answer := "";
    }

    /** Typing in the observations box. */
    method EditObservations(text: string)
      requires Valid()
      modifies this
      ensures Valid() && observations == text
      ensures a == old(a) && b == old(b) && result == old(result)
      ensures answer == old(answer) && error == old(error)
    {
      observations := text;
    }

    /** Typing in the answer box clears the error. */
    method EditAnswer(text: string)
      requires Valid()
      modifies this
      ensures Valid() && answer == text && error == None
      ensures a == old(a) && b == old(b) && result == old(result) && observations == old(observations)
    {
      answer := text;
      error := None;
    }

    /** `handleFinishClick`, with the draws a new challenge would use: a passing
        answer hands the observations on and changes nothing; a failing one sets
        the error and replaces the challenge. */
    method ClickFinish(ra: real, rb: real) returns (finished: Option<string>)
      requires Valid() && 0.0 <= ra < 1.0 && 0.0 <= rb < 1.0
      modifies this
      ensures Valid() && observations == old(observations)
      ensures finished.Some? <==> Accepts(old(answer), old(result))
      ensures finished.Some? ==>
        && finished.value == observations
        && a == old(a) && b == old(b) && result == old(result)
        && answer == old(answer) && error == old(error)
      ensures finished.None? ==>
        && error == Some(WrongAnswerError)
        && a == Operand(ra) && b == Operand(rb) && result == a + b && answer == ""
    {
      if ParseInt(answer) != Some(result) {
        error := Some(WrongAnswerError);
        GenerateCaptcha(ra, rb);
        return None;
      }
      finished := Some(observations);
    }
  }
}
