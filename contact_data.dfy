/**
 * The first contact step: the Brazilian phone pattern, the required
 * fields, and the handler that builds one contact stamped with the email
 * of the email step.
 */
module ContactDataForm {
  import opened Wrappers
  import opened Text
  import opened WizardTypes

  /** Drops one leading `c`, if there is one (`c?` in a pattern). */
  function DropOptional(s: string, c: char): (r: string)
    ensures r == s || (s != [] && s[0] == c && r == s[1..])
  {
    if s != [] && s[0] == c then s[1..] else s
  }

  /** Drops one leading `\s` character, if there is one. */
  function DropSpace(s: string): (r: string)
    ensures r == s || (s != [] && IsSpace(s[0]) && r == s[1..])
  {
    if s != [] && IsSpace(s[0]) then s[1..] else s
  }

  /** `\d{4,5}-?\d{4}$`: four or five digits, an optional hyphen, four digits. */
  predicate LocalNumber(r: string)
  {
    || (AllDigits(r) && (|r| == 8 || |r| == 9))
    || ((|r| == 9 || |r| == 10) && r[|r| - 5] == '-' && AllDigits(r[..|r| - 5]) && AllDigits(r[|r| - 4..]))
  }

  /**
   * `/^\(?\d{2}\)?\s?\d{4,5}-?\d{4}$/`. Each optional token is taken
   * greedily: the token after it can never start with the same character,
   * so no other way of matching exists.
   */
  predicate PhoneOk(s: string)
  {
    var t := DropOptional(s, '(');
    |t| >= 2 && AllDigits(t[..2]) && LocalNumber(DropSpace(DropOptional(t[2..], ')')))
  }

  /** The pieces of a phone number as the pattern reads it. */
  datatype PhoneParts = PhoneParts(
    open: bool, area: string, close: bool, space: Option<char>,
    prefix: string, hyphen: bool, line: string)

  predicate PartsOk(p: PhoneParts)
  {
    && |p.area| == 2 && AllDigits(p.area)
    && (|p.prefix| == 4 || |p.prefix| == 5) && AllDigits(p.prefix)
    && |p.line| == 4 && AllDigits(p.line)
    && (p.space.Some? ==> IsSpace(p.space.value))
  }

  /** `[c]` when the optional token is present, nothing otherwise. */
  function Optional(present: bool, c: char): string
  {
    if present then [c] else []
  }

  function SpaceText(space: Option<char>): string
  {
    if space.Some? then [space.value] else []
  }

  function LocalPart(p: PhoneParts): string
  {
    p.prefix + (Optional(p.hyphen, '-') + p.line)
  }

  /** The text the pieces spell. */
  function Render(p: PhoneParts): string
  {
    Optional(p.open, '(') + (p.area + (Optional(p.close, ')') + (SpaceText(p.space) + LocalPart(p))))
  }

  lemma DigitIsNoSpace(c: char)
    requires IsDigit(c) || IsSpace(c)
    ensures IsDigit(c) != IsSpace(c)
  {
  }

  /** An optional token in front of text that cannot start with it is dropped exactly. */
  lemma DropOptionalOf(present: bool, c: char, x: string)
    requires x != [] && x[0] != c
    ensures DropOptional(Optional(present, c) + x, c) == x
  {
    if present {
      assert (Optional(present, c) + x)[1..] == x;
    } else {
      assert Optional(present, c) + x == x;
    }
  }

  lemma DropSpaceOf(space: Option<char>, x: string)
    requires space.Some? ==> IsSpace(space.value)
    requires x != [] && !IsSpace(x[0])
    ensures DropSpace(SpaceText(space) + x) == x
  {
    if space.Some? {
      assert (SpaceText(space) + x)[1..] == x;
    } else {
      assert SpaceText(space) + x == x;
    }
  }

  lemma LocalPartOk(p: PhoneParts)
    requires PartsOk(p)
    ensures LocalNumber(LocalPart(p))
    ensures LocalPart(p) != [] && IsDigit(LocalPart(p)[0])
  {
    var r := LocalPart(p);
    if p.hyphen {
      assert r[..|r| - 5] == p.prefix;
      assert r[|r| - 4..] == p.line;
      assert r[|r| - 5] == '-';
    } else {
      assert r == p.prefix + p.line;
    }
    assert r[0] == p.prefix[0];
  }

  /** Every string the pieces spell is accepted: the recognizer misses nothing. */
  lemma RenderAccepted(p: PhoneParts)
    requires PartsOk(p)
    ensures PhoneOk(Render(p))
  {
    LocalPartOk(p);
    var l := LocalPart(p);
    DigitIsNoSpace(l[0]);
    DropSpaceOf(p.space, l);
    var u := SpaceText(p.space) + l;
    assert u != [] && u[0] != ')' by {
      if p.space.Some? { assert u[0] == p.space.value; } else { assert u == l; }
    }
    DropOptionalOf(p.close, ')', u);
    var w := Optional(p.close, ')') + u;
    var t := p.area + w;
    assert t[..2] == p.area && t[2..] == w;
    DropOptionalOf(p.open, '(', t);
  }

  /** Splits what `\d{4,5}-?\d{4}$` accepts into its three pieces. */
  function ParseLocal(r: string): (pieces: (string, bool, string))
    requires LocalNumber(r)
    ensures (|pieces.0| == 4 || |pieces.0| == 5) && AllDigits(pieces.0)
    ensures |pieces.2| == 4 && AllDigits(pieces.2)
    ensures pieces.0 + (Optional(pieces.1, '-') + pieces.2) == r
  {
    if AllDigits(r) then
      assert |r| == 8 || |r| == 9 by {
        if |r| == 9 || |r| == 10 {
          assert IsDigit(r[|r| - 5]);
        }
      }
      AllDigitsSplit(r, |r| - 4);
      var pieces := (r[..|r| - 4], false, r[|r| - 4..]);
      assert pieces.0 + (Optional(pieces.1, '-') + pieces.2) == r;
      pieces
    else
      var pieces := (r[..|r| - 5], true, r[|r| - 4..]);
      assert pieces.0 + (Optional(pieces.1, '-') + pieces.2) == r;
      pieces
  }

  /** What `DropOptional` removed, put back. */
  lemma UndoDropOptional(s: string, c: char)
    ensures Optional(s != [] && s[0] == c, c) + DropOptional(s, c) == s
  {
    if s != [] && s[0] == c {
      assert [s[0]] + s[1..] == s;
    }
  }

  /** The space `DropSpace` removed, if any. */
  function SpaceOf(u: string): (space: Option<char>)
    ensures space.Some? ==> IsSpace(space.value)
    ensures SpaceText(space) + DropSpace(u) == u
  {
    if u != [] && IsSpace(u[0]) then
      assert [u[0]] + u[1..] == u;
      Some(u[0])
    else None
  }

  /** The pieces after the area code: the closing parenthesis, the space and the local number. */
  function ParseTail(w: string): (p: PhoneParts)
    requires LocalNumber(DropSpace(DropOptional(w, ')')))
    ensures (|p.prefix| == 4 || |p.prefix| == 5) && AllDigits(p.prefix)
    ensures |p.line| == 4 && AllDigits(p.line)
    ensures p.space.Some? ==> IsSpace(p.space.value)
    ensures Optional(p.close, ')') + (SpaceText(p.space) + LocalPart(p)) == w
  {
    var close := w != [] && w[0] == ')';
    var u := DropOptional(w, ')');
    UndoDropOptional(w, ')');
    var space := SpaceOf(u);
    var local := ParseLocal(DropSpace(u));
    PhoneParts(false, "", close, space, local.0, local.1, local.2)
  }

  /** The text the pieces spell, with everything after the area code given as one string. */
  lemma RenderAfterArea(p: PhoneParts, rest: string)
    requires Optional(p.close, ')') + (SpaceText(p.space) + LocalPart(p)) == rest
    ensures Render(p) == Optional(p.open, '(') + (p.area + rest)
  {
  }

  lemma SplitAfterTwo(o: string, t: string, s: string)
    requires |t| >= 2 && o + t == s
    ensures o + (t[..2] + t[2..]) == s
  {
    assert t[..2] + t[2..] == t;
  }

  /** Every accepted string is spelled by well-formed pieces: the recognizer admits nothing else. */
  function ParsePhone(s: string): (p: PhoneParts)
    requires PhoneOk(s)
    ensures PartsOk(p) && Render(p) == s
  {
    var open := s != [] && s[0] == '(';
    var t := DropOptional(s, '(');
    var tail := ParseTail(t[2..]);
    var p := tail.(open := open, area := t[..2]);
    assert LocalPart(p) == LocalPart(tail);
    RenderAfterArea(p, t[2..]);
    UndoDropOptional(s, '(');
    SplitAfterTwo(Optional(open, '('), t, s);
    p
  }

  /** The optional tokens carry no digit. */
  lemma DigitsOfTokens(p: PhoneParts)
    requires PartsOk(p)
    ensures Digits(Optional(p.open, '(')) == [] && Digits(Optional(p.close, ')')) == []
    ensures Digits(Optional(p.hyphen, '-')) == [] && Digits(SpaceText(p.space)) == []
  {
    if p.space.Some? {
      DigitIsNoSpace(p.space.value);
      assert Digits(SpaceText(p.space)) == Digits([]);
    }
  }

  /** The local number's digits: the prefix's and the line's. */
  lemma DigitsOfLocalPart(p: PhoneParts)
    requires PartsOk(p)
    ensures |Digits(LocalPart(p))| == |p.prefix| + 4
  {
    DigitsOfTokens(p);
    var hy := Optional(p.hyphen, '-');
    DigitsAppend(hy, p.line);
    DigitsAppend(p.prefix, hy + p.line);
    DigitsOfDigits(p.prefix);
    DigitsOfDigits(p.line);
  }

  /** Everything after the area code contributes the local number's digits only. */
  lemma DigitsAfterArea(p: PhoneParts)
    requires PartsOk(p)
    ensures |Digits(Optional(p.close, ')') + (SpaceText(p.space) + LocalPart(p)))| == |p.prefix| + 4
  {
    DigitsOfTokens(p);
    DigitsOfLocalPart(p);
    var sp := SpaceText(p.space);
    DigitsAppend(sp, LocalPart(p));
    DigitsAppend(Optional(p.close, ')'), sp + LocalPart(p));
  }

  /** An accepted phone carries ten or eleven digits: two of area code, then eight or nine. */
  lemma PhoneDigitCount(s: string)
    requires PhoneOk(s)
    ensures |Digits(s)| == 10 || |Digits(s)| == 11
  {
    var p := ParsePhone(s);
    var rest := Optional(p.close, ')') + (SpaceText(p.space) + LocalPart(p));
    DigitsAfterArea(p);
    DigitsOfTokens(p);
    DigitsAppend(p.area, rest);
    DigitsOfDigits(p.area);
    DigitsAppend(Optional(p.open, '('), p.area + rest);
  }

  /** A character that is no digit, no space and no hyphen occurs in no token but the parentheses. */
  lemma TokensFree(p: PhoneParts, c: char)
    requires PartsOk(p) && !IsDigit(c) && !IsSpace(c) && c != '-'
    ensures c !in p.area && c !in SpaceText(p.space) + LocalPart(p)
  {
    assert c !in p.prefix && c !in p.line && c !in Optional(p.hyphen, '-');
    assert c !in SpaceText(p.space) by {
      if p.space.Some? { assert SpaceText(p.space) == [p.space.value]; }
    }
  }

  /** Where the parentheses sit when only one of them is typed. */
  lemma LoneParenthesis(p: PhoneParts)
    requires PartsOk(p) && p.open != p.close
    ensures p.open ==> Render(p)[0] == '(' && ')' !in Render(p)
    ensures p.close ==> Render(p)[2] == ')' && '(' !in Render(p)
  {
    var rest := SpaceText(p.space) + LocalPart(p);
    if p.open {
      TokensFree(p, ')');
      assert Render(p) == ['('] + (p.area + rest);
    } else {
      TokensFree(p, '(');
      assert Render(p) == p.area + ([')'] + rest);
    }
  }

  /**
   * The parentheses are optional independently: an opening parenthesis
   * with no closing one, as in "(11 91234-5678", is accepted.
   */
  lemma UnbalancedParenthesisAccepted(p: PhoneParts)
    requires PartsOk(p) && p.open && !p.close
    ensures PhoneOk(Render(p))
    ensures Render(p)[0] == '(' && ')' !in Render(p)
  {
    RenderAccepted(p);
    LoneParenthesis(p);
  }

  /** The reverse: a closing parenthesis with no opening one, as in "11) 91234-5678", is accepted too. */
  lemma UnbalancedClosingAccepted(p: PhoneParts)
    requires PartsOk(p) && !p.open && p.close
    ensures PhoneOk(Render(p))
    ensures Render(p)[2] == ')' && '(' !in Render(p)
  {
    RenderAccepted(p);
    LoneParenthesis(p);
  }

  /** The form's four fields, as typed. */
  datatype ContactForm = ContactForm(nomeCompleto: string, telefone: string, setor: string, cargo: string)

  /** `contactDataSchema`: four non-empty fields and the phone pattern. */
  predicate ContactSchema(f: ContactForm)
  {
    f.nomeCompleto != "" && f.telefone != "" && PhoneOk(f.telefone) && f.setor != "" && f.cargo != ""
  }

  /**
   * `submitHandler`, run only when the schema passes: a result whose only
   * field is a one-element `contatos`, the form's fields copied and the
   * `email` prop stamped on the contact.
   */
  function Submit(f: ContactForm, email: string): (r: Option<Partial>)
    ensures r.Some? <==> ContactSchema(f)
    ensures r.Some? ==>
      && r.value.contatos.Some? && |r.value.contatos.value| == 1
      && var c := r.value.contatos.value[0];
      && c.nomeCompleto == f.nomeCompleto && c.telefone == f.telefone
      && c.setor == f.setor && c.cargo == f.cargo
      && c.email == Some(email)
      && r.value.(contatos := None) == NoData
  {
    if !ContactSchema(f) then None
    else Some(NoData.(contatos := Some([Contact(f.nomeCompleto, f.telefone, f.setor, f.cargo, Some(email))])))
  }
}
