/**
 * Character classes and the digit-stripping `s.replace(/[^\d]+/g, '')`
 * used by the CNPJ validator, the CNPJ form and the submission payload.
 */
module Text {

  /** JavaScript's `\d`: the ASCII digits only. */
  predicate IsDigit(c: char)
  {
    '0' <= c <= '9'
  }

  predicate AllDigits(s: string)
  {
    forall i :: 0 <= i < |s| ==> IsDigit(s[i])
  }

  /** Both halves of an all-digit text are all digits. */
  lemma AllDigitsSplit(s: string, k: nat)
    requires AllDigits(s) && k <= |s|
    ensures AllDigits(s[..k]) && AllDigits(s[k..])
  {
    assert forall i :: 0 <= i < k ==> s[..k][i] == s[i];
    assert forall i :: 0 <= i < |s| - k ==> s[k..][i] == s[k + i];
  }

  /** JavaScript's `\s`: the ECMAScript WhiteSpace and LineTerminator characters. */
  predicate IsSpace(c: char)
  {
    c == '\t' || c == '\n' || c == '\U{B}' || c == '\U{C}' || c == '\r' || c == ' '
    || c == '\U{A0}' || c == '\U{1680}' || ('\U{2000}' <= c <= '\U{200A}')
    || c == '\U{2028}' || c == '\U{2029}' || c == '\U{202F}' || c == '\U{205F}'
    || c == '\U{3000}' || c == '\U{FEFF}'
  }

  /** `s.replace(/[^\d]+/g, '')`: every non-digit removed, the digits kept in order. */
  function Digits(s: string): (r: string)
    ensures AllDigits(r)
    ensures |r| <= |s|
  {
    if s == [] then []
    else (if IsDigit(s[0]) then [s[0]] else []) + Digits(s[1..])
  }

  /** Stripping distributes over concatenation. */
  lemma {:induction false} DigitsAppend(a: string, b: string)
    ensures Digits(a + b) == Digits(a) + Digits(b)
  {
    if a == [] {
      assert a + b == b;
    } else {
      assert (a + b)[0] == a[0];
      assert (a + b)[1..] == a[1..] + b;
      DigitsAppend(a[1..], b);
    }
  }

  /** A string of digits only is left unchanged. */
  lemma {:induction false} DigitsOfDigits(s: string)
    requires AllDigits(s)
    ensures Digits(s) == s
  {
    if s != [] {
      DigitsOfDigits(s[1..]);
    }
  }

  /** A string with no digit at all is erased. */
  lemma {:induction false} DigitsOfNonDigits(s: string)
    requires forall i :: 0 <= i < |s| ==> !IsDigit(s[i])
    ensures Digits(s) == []
  {
    if s != [] {
      DigitsOfNonDigits(s[1..]);
    }
  }

  /** Cleaning is idempotent. */
  lemma DigitsIdempotent(s: string)
    ensures Digits(Digits(s)) == Digits(s)
  {
    DigitsOfDigits(Digits(s));
  }

  /** Inserting a non-digit anywhere does not change the cleaned string. */
  lemma DigitsIgnoresNonDigit(a: string, c: char, b: string)
    requires !IsDigit(c)
    ensures Digits(a + [c] + b) == Digits(a + b)
  {
    DigitsAppend(a + [c], b);
    DigitsAppend(a, [c]);
    DigitsAppend(a, b);
    assert Digits([c]) == [];
  }
}
