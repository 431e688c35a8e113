/**
 * The company-data step: ten required fields, the CEP (postal code)
 * pattern, and the handler that hands the ten fields on unchanged.
 */
module NacionalDataForm {
  import opened Wrappers
  import opened Text
  import opened WizardTypes

  /** `/^\d{5}-?\d{3}$/`: five digits, an optional hyphen, three digits. */
  predicate CepOk(s: string)
  {
    || (|s| == 8 && AllDigits(s))
    || (|s| == 9 && AllDigits(s[..5]) && s[5] == '-' && AllDigits(s[6..]))
  }

  /** An accepted CEP has eight digits, and is those digits with or without the hyphen. */
  lemma CepShape(s: string)
    requires CepOk(s)
    ensures |s| == 8 || |s| == 9
    ensures |Digits(s)| == 8
    ensures |s| == 8 ==> s == Digits(s)
    ensures |s| == 9 ==> s == Digits(s)[..5] + "-" + Digits(s)[5..]
  {
    if |s| == 8 {
      DigitsOfDigits(s);
    } else {
      assert s == s[..5] + [s[5]] + s[6..];
      DigitsIgnoresNonDigit(s[..5], s[5], s[6..]);
      assert AllDigits(s[..5] + s[6..]);
      DigitsOfDigits(s[..5] + s[6..]);
      assert (s[..5] + s[6..])[..5] == s[..5];
      assert (s[..5] + s[6..])[5..] == s[6..];
    }
  }

  /** Eight digits are accepted both bare and as "NNNNN-NNN". */
  lemma CepAcceptsBothForms(d: string)
    requires |d| == 8 && AllDigits(d)
    ensures CepOk(d)
    ensures CepOk(d[..5] + "-" + d[5..])
  {
    var h := d[..5] + "-" + d[5..];
    assert h[..5] == d[..5];
    assert h[6..] == d[5..];
  }

  /** The ten fields of the form, as typed. */
  datatype NacionalForm = NacionalForm(
    nomeEmpresa: string,
    razaoSocial: string,
    classificacaoFiscal: string,
    pais: string,
    cep: string,
    rua: string,
    bairro: string,
    numero: string,
    segmento: string,
    subsegmento: string)

  /** `nacionalDataSchema`: every field non-empty, and the CEP pattern. */
  predicate NacionalSchema(f: NacionalForm)
  {
    && f.nomeEmpresa != ""
    && f.razaoSocial != ""
    && f.classificacaoFiscal != ""
    && f.pais != ""
    && f.cep != "" && CepOk(f.cep)
    && f.rua != ""
    && f.bairro != ""
    && f.numero != ""
    && f.segmento != ""
    && f.subsegmento != ""
  }

  /**
   * `submitHandler`, run only when the schema passes: exactly the ten
   * fields, copied unchanged; no contacts, no flags, no CNPJ, no email.
   */
  function Submit(f: NacionalForm): (r: Option<Partial>)
    ensures r.Some? <==> NacionalSchema(f)
    ensures r.Some? ==>
      && r.value.nomeEmpresa == Some(f.nomeEmpresa)
      && r.value.razaoSocial == Some(f.razaoSocial)
      && r.value.classificacaoFiscal == Some(f.classificacaoFiscal)
      && r.value.pais == Some(f.pais)
      && r.value.cep == Some(f.cep)
      && r.value.rua == Some(f.rua)
      && r.value.bairro == Some(f.bairro)
      && r.value.numero == Some(f.numero)
      && r.value.segmento == Some(f.segmento)
      && r.value.subsegmento == Some(f.subsegmento)
      && r.value.contatos.None?
      && r.value.cnpj.None? && r.value.cnpjExists.None?
      && r.value.email.None? && r.value.emailExists.None?
      && r.value.addMoreContacts.None? && r.value.desejaCriarFatherID.None?
  {
    if !NacionalSchema(f) then None
    else Some(NoData.(
      nomeEmpresa := Some(f.nomeEmpresa),
      razaoSocial := Some(f.razaoSocial),
      classificacaoFiscal := Some(f.classificacaoFiscal),
      pais := Some(f.pais),
      cep := Some(f.cep),
      rua := Some(f.rua),
      bairro := Some(f.bairro),
      numero := Some(f.numero),
      segmento := Some(f.segmento),
      subsegmento := Some(f.subsegmento)))
  }
}
