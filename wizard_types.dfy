/**
 * The national-client wizard's types: its steps, one contact, the
 * accumulated form record and the partial record a step hands back.
 * An optional TypeScript property is an `Option`, `None` meaning "absent".
 */
module WizardTypes {
  import opened Wrappers

  /** The seven steps; there is no terminal or "completed" value. */
  datatype Step =
    | CnpjInfo
    | NacionalData
    | EmailInfo
    | ContactData
    | ContactDataPlus
    | MoreContact
    | FatherID

  /** The values of `Step`, each listed once. */
  function AllSteps(): (r: seq<Step>)
    ensures |r| == 7
    ensures forall i, j :: 0 <= i < j < |r| ==> r[i] != r[j]
  {
    [CnpjInfo, NacionalData, EmailInfo, ContactData, ContactDataPlus, MoreContact, FatherID]
  }

  /** ... and there is no other: the enum has exactly seven values. */
  lemma AllStepsExhaustive(s: Step)
    ensures s in AllSteps()
  {
    var r := AllSteps();
    match s
    case CnpjInfo => assert r[0] == s;
    case NacionalData => assert r[1] == s;
    case EmailInfo => assert r[2] == s;
    case ContactData => assert r[3] == s;
    case ContactDataPlus => assert r[4] == s;
    case MoreContact => assert r[5] == s;
    case FatherID => assert r[6] == s;
  }

  /** Four required fields and an email that only some steps fill in. */
  datatype Contact = Contact(
    nomeCompleto: string,
    telefone: string,
    setor: string,
    cargo: string,
    email: Option<string>)

  /** The accumulated record: `contatos` is its only required field. */
  datatype FormData = FormData(
    cnpj: Option<string>,
    cnpjExists: Option<bool>,
    email: Option<string>,
    emailExists: Option<bool>,
    contatos: seq<Contact>,
    addMoreContacts: Option<bool>,
    nomeEmpresa: Option<string>,
    razaoSocial: Option<string>,
    classificacaoFiscal: Option<string>,
    pais: Option<string>,
    cep: Option<string>,
    rua: Option<string>,
    bairro: Option<string>,
    numero: Option<string>,
    segmento: Option<string>,
    subsegmento: Option<string>,
    desejaCriarFatherID: Option<bool>)

  /** `Partial<ClienteNacionalFormData>`: what a step hands to the controller; every field may be absent. */
  datatype Partial = Partial(
    cnpj: Option<string>,
    cnpjExists: Option<bool>,
    email: Option<string>,
    emailExists: Option<bool>,
    contatos: Option<seq<Contact>>,
    addMoreContacts: Option<bool>,
    nomeEmpresa: Option<string>,
    razaoSocial: Option<string>,
    classificacaoFiscal: Option<string>,
    pais: Option<string>,
    cep: Option<string>,
    rua: Option<string>,
    bairro: Option<string>,
    numero: Option<string>,
    segmento: Option<string>,
    subsegmento: Option<string>,
    desejaCriarFatherID: Option<bool>)

  /** The record the wizard starts with: `{ contatos: [] }`. */
  const InitialFormData: FormData :=
    FormData(None, None, None, None, [], None, None, None, None, None, None, None, None, None, None, None, None)

  /** The empty step result `{}`, from which each step's result is built. */
  const NoData: Partial :=
    Partial(None, None, None, None, None, None, None, None, None, None, None, None, None, None, None, None, None)
}
