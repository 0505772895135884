/**
 * `generate_otp` (accounts/views.py:17-19): a one-time code of `length`
 * characters, each drawn from `string.digits`. The random choices are an
 * input: one index into the digit alphabet per character.
 */
module Otp {
  import opened Text

  /** `string.digits` */
  const DIGITS: string := "0123456789"

  /** The length every caller in the views uses (the default argument). */
  const DEFAULT_LENGTH: nat := 6

  /** What `random.choices(string.digits, k=length)` can draw: `length` indices into DIGITS. */
  predicate IsDigitDraws(draws: seq<int>, length: nat) {
    |draws| == length && forall i :: 0 <= i < |draws| ==> 0 <= draws[i] < |DIGITS|
  }

  /** The code joined from the drawn digits: exactly `length` decimal digits, in draw order. */
  function GenerateOtp(length: nat, draws: seq<int>): (code: string)
    requires IsDigitDraws(draws, length)
    ensures |code| == length && IsDigits(code)
    ensures forall i :: 0 <= i < length ==> code[i] == DIGITS[draws[i]]
  {
    if length == 0 then "" else [DIGITS[draws[0]]] + GenerateOtp(length - 1, draws[1..])
  }

  /** The index in DIGITS of a decimal digit. */
  function DigitIndex(c: char): (k: int)
    requires IsDigit(c)
    ensures 0 <= k < |DIGITS| && DIGITS[k] == c
  {
    c as int - '0' as int
  }

  /** Different draws give different codes: the code determines the draws. */
  lemma {:induction false} OtpDeterminesDraws(length: nat, a: seq<int>, b: seq<int>)
    requires IsDigitDraws(a, length) && IsDigitDraws(b, length)
    ensures GenerateOtp(length, a) == GenerateOtp(length, b) <==> a == b
  {
    if GenerateOtp(length, a) == GenerateOtp(length, b) {
      forall i | 0 <= i < length
        ensures a[i] == b[i]
      {
        assert DIGITS[a[i]] == DIGITS[b[i]];
      }
    }
  }

  /**
   * Every string of `length` decimal digits, leading zeros included, is a
   * code the generator can produce.
   */
  lemma OtpReachesEveryDigitString(code: string)
    requires IsDigits(code)
    ensures exists draws :: IsDigitDraws(draws, |code|) && GenerateOtp(|code|, draws) == code
  {
    var draws := seq(|code|, i requires 0 <= i < |code| => DigitIndex(code[i]));
    assert IsDigitDraws(draws, |code|);
    assert GenerateOtp(|code|, draws) == code;
  }
}
