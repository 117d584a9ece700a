/**
 * The pairing-code prompt: the typed phone number is stripped of everything
 * but digits, and the process exits with code 1 unless what remains starts
 * with the country code 62; otherwise a pairing code is requested for it.
 */
module Pairing {
  import opened Wrappers
  import opened JsString

  const COUNTRY_CODE := "62"
  const EXIT_BAD_NUMBER: int := 1

  /** What the prompt leads to. */
  datatype PairingStep = ExitProcess(code: int) | RequestCode(number: string)

  /** `s.replace(/\D/g, '')`: the digits of `s`, and only them. */
  function StripNonDigits(s: string): (r: string)
    ensures |r| <= |s|
    ensures forall i :: 0 <= i < |r| ==> IsDigit(r[i])
  {
    if s == [] then [] else (if IsDigit(s[0]) then [s[0]] else []) + StripNonDigits(s[1..])
  }

  /** Stripping works piece by piece, so the digits stay in their original order. */
  lemma {:induction false} StripConcat(a: string, b: string)
    ensures StripNonDigits(a + b) == StripNonDigits(a) + StripNonDigits(b)
    decreases |a|
  {
    if a != [] {
      assert (a + b)[0] == a[0];
      assert (a + b)[1..] == a[1..] + b;
      StripConcat(a[1..], b);
      assert StripNonDigits(a + b) == (if IsDigit(a[0]) then [a[0]] else []) + StripNonDigits(a[1..] + b);
    } else {
      assert a + b == b;
    }
  }

  /** No digit is removed: each digit occurs as often after stripping as before. */
  lemma {:induction false} StripKeepsEveryDigit(s: string, c: char)
    requires IsDigit(c)
    ensures multiset(StripNonDigits(s))[c] == multiset(s)[c]
    decreases |s|
  {
    if s != [] {
      assert s == [s[0]] + s[1..];
      StripKeepsEveryDigit(s[1..], c);
    }
  }

  /** A number typed as bare digits is taken exactly as typed. */
  lemma {:induction false} StripDigitsOnly(s: string)
    requires forall i :: 0 <= i < |s| ==> IsDigit(s[i])
    ensures StripNonDigits(s) == s
    decreases |s|
  {
    if s != [] {
      StripDigitsOnly(s[1..]);
    }
  }

  /**
   * The prompt's outcome.  It exits with code 1 iff the stripped number does
   * not start with 62; otherwise the pairing code is requested for the
   * stripped number, which is all digits and starts with 62.
   */
  function CheckNumber(typed: string): (r: PairingStep)
    ensures r.ExitProcess? <==> !StartsWith(StripNonDigits(typed), COUNTRY_CODE)
    ensures r.ExitProcess? ==> r.code == EXIT_BAD_NUMBER
    ensures r.RequestCode? ==>
      r.number == StripNonDigits(typed) && StartsWith(r.number, COUNTRY_CODE)
      && forall i :: 0 <= i < |r.number| ==> IsDigit(r.number[i])
  {
    var number := StripNonDigits(typed);
    if !StartsWith(number, COUNTRY_CODE) then ExitProcess(EXIT_BAD_NUMBER) else RequestCode(number)
  }

  /**
   * The prompt only appears when pairing codes are enabled and the
   * credentials are not registered yet; otherwise nothing is asked.
   */
  function PairingPrompt(usePairingCode: bool, registered: bool, typed: string): (r: Option<PairingStep>)
    ensures r.Some? <==> usePairingCode && !registered
    ensures r.Some? ==> r.value == CheckNumber(typed)
  {
    if usePairingCode && !registered then Some(CheckNumber(typed)) else None
  }
}
