/**
 * `validateCNPJ`: strip the non-digits, demand exactly fourteen digits and
 * reject a string that repeats one digit. The official mod-11 check digits
 * are not computed.
 */
module CnpjValidation {
  import opened Text

  /** `/^(\d)\1+$/`: a digit followed by one or more copies of itself. */
  predicate RepeatedDigit(s: string)
  {
    |s| >= 2 && IsDigit(s[0]) && forall i :: 1 <= i < |s| ==> s[i] == s[0]
  }

  function ValidateCNPJ(cnpj: string): (ok: bool)
    ensures ok ==> |Digits(cnpj)| == 14
    ensures ok ==> exists i :: 0 <= i < |Digits(cnpj)| && Digits(cnpj)[i] != Digits(cnpj)[0]
  {
    var cleaned := Digits(cnpj);
    if |cleaned| != 14 then false
    else if RepeatedDigit(cleaned) then false
    else true
  }

  /**
   * The whole decision: fourteen digits after cleaning, not all equal.
   * Every such string passes, whatever its check digits.
   */
  lemma ValidateCNPJIff(cnpj: string)
    ensures ValidateCNPJ(cnpj) <==>
      |Digits(cnpj)| == 14 && exists i :: 0 <= i < 14 && Digits(cnpj)[i] != Digits(cnpj)[0]
  {
    var d := Digits(cnpj);
    if |d| == 14 && (exists i :: 0 <= i < 14 && d[i] != d[0]) {
      var i :| 0 <= i < 14 && d[i] != d[0];
      assert i != 0;
      assert !RepeatedDigit(d);
    }
  }

  /** Validating a cleaned string gives the same answer: cleaning is idempotent. */
  lemma ValidateCNPJOfDigits(cnpj: string)
    ensures ValidateCNPJ(Digits(cnpj)) == ValidateCNPJ(cnpj)
  {
    DigitsIdempotent(cnpj);
  }

  /** Only the digits matter: a punctuation character anywhere is ignored. */
  lemma ValidateCNPJIgnoresNonDigit(a: string, c: char, b: string)
    requires !IsDigit(c)
    ensures ValidateCNPJ(a + [c] + b) == ValidateCNPJ(a + b)
  {
    DigitsIgnoresNonDigit(a, c, b);
  }

  /** Fourteen copies of one digit are rejected. */
  lemma {:induction false} RejectsUniformDigits(c: char, s: string)
    requires IsDigit(c) && |s| == 14
    requires forall i :: 0 <= i < |s| ==> s[i] == c
    ensures !ValidateCNPJ(s)
  {
    assert AllDigits(s);
    DigitsOfDigits(s);
    assert RepeatedDigit(s);
  }
}
