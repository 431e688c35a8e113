/**
 * The CNPJ step: the field's schema (non-empty, the masked format, then
 * `validateCNPJ`) and the submit handler that cleans the value, asks the
 * company lookup whether it exists and hands both to the controller.
 */
module CnpjInfoForm {
  import opened Wrappers
  import opened Text
  import opened CnpjValidation
  import opened WizardTypes

  /**
   * The shape demanded by `/^[\d]{2}\.[\d]{3}\.[\d]{3}\/[\d]{4}-[\d]{2}$/`,
   * position by position: 'N' stands for one digit, any other character for itself.
   */
  const Template: string := "NN.NNN.NNN/NNNN-NN"

  predicate Fits(c: char, t: char)
  {
    if t == 'N' then IsDigit(c) else c == t
  }

  /** The format refinement. */
  predicate CnpjFormat(s: string)
  {
    |s| == |Template| && forall i :: 0 <= i < |s| ==> Fits(s[i], Template[i])
  }

  /** `cnpjSchema`: non-empty, then the format, then `validateCNPJ`. */
  predicate CnpjSchema(s: string)
  {
    s != "" && CnpjFormat(s) && ValidateCNPJ(s)
  }

  /** The input mask "99.999.999/9999-99" laid over fourteen digits. */
  function Masked(d: string): (s: string)
    requires |d| == 14
    ensures |s| == 18
  {
    d[..2] + ['.'] + (d[2..5] + ['.'] + (d[5..8] + ['/'] + (d[8..12] + ['-'] + d[12..])))
  }

  /** Cleaning a digit block, a separator and a tail keeps the block and cleans the tail. */
  lemma DigitsOfBlockThen(x: string, c: char, y: string)
    requires AllDigits(x) && !IsDigit(c)
    ensures Digits(x + [c] + y) == x + Digits(y)
  {
    DigitsIgnoresNonDigit(x, c, y);
    DigitsAppend(x, y);
    DigitsOfDigits(x);
  }

  /** The digits of five digit blocks joined by four non-digits are the blocks, joined. */
  lemma DigitsOfBlocks(a: string, b: string, c: string, d: string, e: string,
                       s1: char, s2: char, s3: char, s4: char)
    requires AllDigits(a) && AllDigits(b) && AllDigits(c) && AllDigits(d) && AllDigits(e)
    requires !IsDigit(s1) && !IsDigit(s2) && !IsDigit(s3) && !IsDigit(s4)
    ensures Digits(a + [s1] + (b + [s2] + (c + [s3] + (d + [s4] + e)))) == a + (b + (c + (d + e)))
  {
    var t4 := d + [s4] + e;
    DigitsOfBlockThen(d, s4, e);
    DigitsOfDigits(e);
    var t3 := c + [s3] + t4;
    DigitsOfBlockThen(c, s3, t4);
    var t2 := b + [s2] + t3;
    DigitsOfBlockThen(b, s2, t3);
    DigitsOfBlockThen(a, s1, t2);
  }

  /** Masking fourteen digits yields a well-formatted CNPJ whose cleaned form is those digits. */
  lemma MaskedRoundTrip(d: string)
    requires |d| == 14 && AllDigits(d)
    ensures CnpjFormat(Masked(d))
    ensures Digits(Masked(d)) == d
  {
    DigitsOfBlocks(d[..2], d[2..5], d[5..8], d[8..12], d[12..], '.', '.', '/', '-');
    assert d[..2] + (d[2..5] + (d[5..8] + (d[8..12] + d[12..]))) == d;
  }

  /** A formatted CNPJ is five digit blocks separated by '.', '.', '/' and '-'. */
  lemma FormatBlocks(s: string)
    requires CnpjFormat(s)
    ensures AllDigits(s[..2]) && AllDigits(s[3..6]) && AllDigits(s[7..10]) && AllDigits(s[11..15]) && AllDigits(s[16..])
    ensures s[2] == '.' && s[6] == '.' && s[10] == '/' && s[15] == '-'
    ensures s == s[..2] + [s[2]] + (s[3..6] + [s[6]] + (s[7..10] + [s[10]] + (s[11..15] + [s[15]] + s[16..])))
  {
    assert forall i :: 0 <= i < 18 && Template[i] == 'N' ==> IsDigit(s[i]);
  }

  /** The mask laid over five joined blocks puts the separators back between them. */
  lemma MaskedOfBlocks(a: string, b: string, c: string, d: string, e: string)
    requires |a| == 2 && |b| == 3 && |c| == 3 && |d| == 4 && |e| == 2
    ensures Masked(a + (b + (c + (d + e)))) == a + ['.'] + (b + ['.'] + (c + ['/'] + (d + ['-'] + e)))
  {
    var ds := a + (b + (c + (d + e)));
    assert ds[..2] == a && ds[2..5] == b && ds[5..8] == c && ds[8..12] == d && ds[12..] == e;
  }

  /** Every well-formatted string is the mask over its own fourteen digits. */
  lemma FormatIsMasked(s: string)
    requires CnpjFormat(s)
    ensures |Digits(s)| == 14
    ensures Masked(Digits(s)) == s
  {
    var a, b, c, d, e := s[..2], s[3..6], s[7..10], s[11..15], s[16..];
    FormatBlocks(s);
    DigitsOfBlocks(a, b, c, d, e, s[2], s[6], s[10], s[15]);
    MaskedOfBlocks(a, b, c, d, e);
  }


  /**
   * A well-formatted value always has fourteen digits, so the validity
   * refinement can only reject it for repeating a single digit.
   */
  lemma CnpjSchemaIff(s: string)
    ensures CnpjSchema(s) <==> CnpjFormat(s) && !RepeatedDigit(Digits(s))
  {
    if CnpjFormat(s) {
      FormatIsMasked(s);
    }
  }

  /** The result `onNext` receives: the cleaned CNPJ and the lookup's answer. */
  function CnpjResult(cleaned: string, exists_: bool): Partial
  {
    NoData.(cnpj := Some(cleaned), cnpjExists := Some(exists_))
  }

  /**
   * One submission: react-hook-form runs `onSubmit` only when the schema
   * passes; `onSubmit` strips the non-digits, asks `lookup` and calls
   * `onNext` with its answer, or alerts (and calls nothing) when it throws.
   */
  function Submit(value: string, lookup: string -> Result<bool>): (r: Option<Partial>)
    ensures r.Some? <==> CnpjSchema(value) && lookup(Digits(value)).Success?
    ensures r.Some? ==>
      && r.value.cnpj.Some?
      && var cnpj := r.value.cnpj.value;
      && |cnpj| == 14 && AllDigits(cnpj) && ValidateCNPJ(cnpj)
      && Masked(cnpj) == value
      && lookup(cnpj).Success?
      && r.value.cnpjExists == Some(lookup(cnpj).value)
      && r.value.(cnpj := None, cnpjExists := None) == NoData
  {
    if !CnpjSchema(value) then None
    else
      var cleaned := Digits(value);
      FormatIsMasked(value);
      ValidateCNPJOfDigits(value);
      match lookup(cleaned)
      case Success(found) => Some(CnpjResult(cleaned, found))
      case Failure => None
  }
}
