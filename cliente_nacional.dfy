/**
 * The national-client wizard's controller: the merge of a step's result
 * into the accumulated record, the forward and backward step decisions,
 * the shaping of the company and contact payloads and their sending
 * order, and the component's three pieces of state as a class.
 */
module ClienteNacional {
  import opened Wrappers
  import opened Text
  import opened WizardTypes
  import CnpjInfoForm
  import NacionalDataForm
  import ContactDataForm
  import ContactDataPlusForm
  import StepForms

  // ---------------------------------------------------------------------
  // Merging a step's result: `{ ...formData, ...data, contatos: ... }`
  // ---------------------------------------------------------------------

  /** A scalar value of the record, for stating the merge key by key. */
  datatype Value = Str(s: string) | Flag(b: bool)

  /** The record's scalar keys: every key but `contatos`. */
  datatype Key =
    | KCnpj | KCnpjExists | KEmail | KEmailExists | KAddMoreContacts
    | KNomeEmpresa | KRazaoSocial | KClassificacaoFiscal | KPais | KCep
    | KRua | KBairro | KNumero | KSegmento | KSubsegmento | KDesejaCriarFatherID

  function StrValue(o: Option<string>): Option<Value>
  {
    if o.Some? then Some(Str(o.value)) else None
  }

  function FlagValue(o: Option<bool>): Option<Value>
  {
    if o.Some? then Some(Flag(o.value)) else None
  }

  /** The value stored under `k` in the accumulated record, `None` if absent. */
  function Field(f: FormData, k: Key): Option<Value>
  {
    match k
    case KCnpj => StrValue(f.cnpj)
    case KCnpjExists => FlagValue(f.cnpjExists)
    case KEmail => StrValue(f.email)
    case KEmailExists => FlagValue(f.emailExists)
    case KAddMoreContacts => FlagValue(f.addMoreContacts)
    case KNomeEmpresa => StrValue(f.nomeEmpresa)
    case KRazaoSocial => StrValue(f.razaoSocial)
    case KClassificacaoFiscal => StrValue(f.classificacaoFiscal)
    case KPais => StrValue(f.pais)
    case KCep => StrValue(f.cep)
    case KRua => StrValue(f.rua)
    case KBairro => StrValue(f.bairro)
    case KNumero => StrValue(f.numero)
    case KSegmento => StrValue(f.segmento)
    case KSubsegmento => StrValue(f.subsegmento)
    case KDesejaCriarFatherID => FlagValue(f.desejaCriarFatherID)
  }

  /** The value stored under `k` in a step's result, `None` if absent. */
  function PartialField(d: Partial, k: Key): Option<Value>
  {
    match k
    case KCnpj => StrValue(d.cnpj)
    case KCnpjExists => FlagValue(d.cnpjExists)
    case KEmail => StrValue(d.email)
    case KEmailExists => FlagValue(d.emailExists)
    case KAddMoreContacts => FlagValue(d.addMoreContacts)
    case KNomeEmpresa => StrValue(d.nomeEmpresa)
    case KRazaoSocial => StrValue(d.razaoSocial)
    case KClassificacaoFiscal => StrValue(d.classificacaoFiscal)
    case KPais => StrValue(d.pais)
    case KCep => StrValue(d.cep)
    case KRua => StrValue(d.rua)
    case KBairro => StrValue(d.bairro)
    case KNumero => StrValue(d.numero)
    case KSegmento => StrValue(d.segmento)
    case KSubsegmento => StrValue(d.subsegmento)
    case KDesejaCriarFatherID => FlagValue(d.desejaCriarFatherID)
  }

  /** Object spread on one key: a present value replaces the old one. */
  function Spread<T>(current: Option<T>, update: Option<T>): Option<T>
  {
    if update.Some? then update else current
  }

  /**
   * The record after a step: every scalar the step supplies replaces the
   * old one, every other is kept, and the step's contacts are appended.
   */
  function Merge(f: FormData, d: Partial): (r: FormData)
    ensures forall k: Key :: Field(r, k) == if PartialField(d, k).Some? then PartialField(d, k) else Field(f, k)
    ensures |r.contatos| >= |f.contatos| && r.contatos[..|f.contatos|] == f.contatos
    ensures r.contatos[|f.contatos|..] == if d.contatos.Some? then d.contatos.value else []
  {
    FormData(
      cnpj := Spread(f.cnpj, d.cnpj),
      cnpjExists := Spread(f.cnpjExists, d.cnpjExists),
      email := Spread(f.email, d.email),
      emailExists := Spread(f.emailExists, d.emailExists),
      contatos := if d.contatos.Some? then f.contatos + d.contatos.value else f.contatos,
      addMoreContacts := Spread(f.addMoreContacts, d.addMoreContacts),
      nomeEmpresa := Spread(f.nomeEmpresa, d.nomeEmpresa),
      razaoSocial := Spread(f.razaoSocial, d.razaoSocial),
      classificacaoFiscal := Spread(f.classificacaoFiscal, d.classificacaoFiscal),
      pais := Spread(f.pais, d.pais),
      cep := Spread(f.cep, d.cep),
      rua := Spread(f.rua, d.rua),
      bairro := Spread(f.bairro, d.bairro),
      numero := Spread(f.numero, d.numero),
      segmento := Spread(f.segmento, d.segmento),
      subsegmento := Spread(f.subsegmento, d.subsegmento),
      desejaCriarFatherID := Spread(f.desejaCriarFatherID, d.desejaCriarFatherID))
  }

  /** Submitting the same contact-free result twice changes nothing the second time. */
  lemma MergeIdempotent(f: FormData, d: Partial)
    requires d.contatos.None?
    ensures Merge(Merge(f, d), d) == Merge(f, d)
  {
  }

  /** The empty result `{}` leaves the record as it is. */
  lemma MergeNothing(f: FormData)
    ensures Merge(f, NoData) == f
  {
  }

  /** The company-data result leaves the contact list untouched and is idempotent. */
  lemma NacionalMergeKeepsContacts(f: FormData, form: NacionalDataForm.NacionalForm)
    requires NacionalDataForm.Submit(form).Some?
    ensures Merge(f, NacionalDataForm.Submit(form).value).contatos == f.contatos
    ensures var d := NacionalDataForm.Submit(form).value; Merge(Merge(f, d), d) == Merge(f, d)
  {
  }

  // ---------------------------------------------------------------------
  // Forward and backward step decisions
  // ---------------------------------------------------------------------

  /**
   * The `switch` of `handleNext`: the next step from the current one and
   * the result's discriminant. An absent discriminant at CnpjInfo or
   * EmailInfo leaves the step as it is, and FatherID never moves.
   */
  function NextStep(step: Step, d: Partial): (r: Step)
    ensures r == step <==>
      || step == FatherID
      || (step == CnpjInfo && d.cnpjExists.None?)
      || (step == EmailInfo && d.emailExists.None?)
    ensures r == CnpjInfo ==> step == CnpjInfo
  {
    match step
    case CnpjInfo =>
      if d.cnpjExists.None? then CnpjInfo
      else if d.cnpjExists.value then EmailInfo else NacionalData
    case NacionalData => EmailInfo
    case EmailInfo =>
      if d.emailExists.None? then EmailInfo
      else if d.emailExists.value then MoreContact else ContactData
    case ContactData => MoreContact
    case ContactDataPlus => MoreContact
    case MoreContact => if IsTrue(d.addMoreContacts) then ContactDataPlus else FatherID
    case FatherID => FatherID
  }

  /** The transition table, edge by edge, as `handleNext`'s switch has it. */
  lemma NextStepTable(d: Partial)
    ensures NextStep(CnpjInfo, d) == (if d.cnpjExists == Some(true) then EmailInfo
                                      else if d.cnpjExists == Some(false) then NacionalData else CnpjInfo)
    ensures NextStep(NacionalData, d) == EmailInfo
    ensures NextStep(EmailInfo, d) == (if d.emailExists == Some(true) then MoreContact
                                       else if d.emailExists == Some(false) then ContactData else EmailInfo)
    ensures NextStep(ContactData, d) == MoreContact && NextStep(ContactDataPlus, d) == MoreContact
    ensures NextStep(MoreContact, d) == (if d.addMoreContacts == Some(true) then ContactDataPlus else FatherID)
    ensures NextStep(FatherID, d) == FatherID
  {
  }

  /** The last contact was typed with an email: the heuristic `handleBack` reads as "came from ContactDataPlus". */
  predicate LastContactHasEmail(f: FormData)
  {
    |f.contatos| > 0 && IsFilled(f.contatos[|f.contatos| - 1].email)
  }

  /**
   * The `switch` of `handleBack`. It reads `cnpjExists` and the last
   * contact's email and never changes the record. Only CnpjInfo stays put.
   */
  function PrevStep(step: Step, f: FormData): (r: Step)
    ensures r == step <==> step == CnpjInfo
    ensures r != FatherID
  {
    match step
    case CnpjInfo => CnpjInfo
    case NacionalData => CnpjInfo
    case EmailInfo => CnpjInfo
    case ContactData => if IsTrue(f.cnpjExists) then EmailInfo else NacionalData
    case ContactDataPlus => MoreContact
    case MoreContact =>
      if |f.contatos| > 0 then
        if LastContactHasEmail(f) then ContactDataPlus else ContactData
      else EmailInfo
    case FatherID => MoreContact
  }

  /**
   * When does "back" undo "next"? Exactly in these cases; from
   * NacionalData and FatherID it never does, and from EmailInfo,
   * ContactData and ContactDataPlus only when the flags and the last
   * contact happen to point back to where the user came from.
   */
  lemma BackAfterNext(step: Step, f: FormData, d: Partial)
    ensures var m := Merge(f, d);
      PrevStep(NextStep(step, d), m) == step <==>
        match step
        case CnpjInfo => true
        case NacionalData => false
        case EmailInfo =>
          || (d.emailExists == Some(true) && m.contatos == [])
          || (d.emailExists == Some(false) && IsTrue(m.cnpjExists))
        case ContactData => m.contatos != [] && !LastContactHasEmail(m)
        case ContactDataPlus => LastContactHasEmail(m)
        case MoreContact => true
        case FatherID => false
  {
  }

  // ---------------------------------------------------------------------
  // The payloads `enviarDados` sends
  // ---------------------------------------------------------------------

  /** The body of the company request (`companyService.sendCompanyInfo`). */
  datatype CompanyInfo = CompanyInfo(
    country: string,
    companyName: string,
    socialNameCompany: string,
    companyID: string,
    typeID: string,
    socialClass: string,
    Segment: string,
    SubSegment: seq<string>,
    website: string,
    State: string,
    City: string,
    Address: string,
    kind: string) // `type` in the request body; `type` is a keyword here

  /** The body of one contact request (`contactService.sendContactInfo`). */
  datatype ContactInfo = ContactInfo(
    name: string, email: string, phone: string, role: string, sector: string, companyID: string)

  datatype Request = CompanyRequest(company: CompanyInfo) | ContactRequest(contact: ContactInfo)

  /** `dados.cnpj ? dados.cnpj.replace(/[^\d]+/g, '') : ''` */
  function CleanedCompanyID(d: FormData): (id: string)
    ensures AllDigits(id)
    ensures id == Digits(OrEmpty(d.cnpj))
  {
    if IsFilled(d.cnpj) then Digits(d.cnpj.value) else ""
  }

  /** The address line: all four parts, or nothing at all. */
  function AddressOf(d: FormData): (a: string)
    ensures a != "" <==> IsFilled(d.rua) && IsFilled(d.bairro) && IsFilled(d.cep) && IsFilled(d.numero)
    ensures a != "" ==> a == d.rua.value + ", " + d.numero.value + " - " + d.bairro.value + ", CEP " + d.cep.value
  {
    if IsFilled(d.rua) && IsFilled(d.bairro) && IsFilled(d.cep) && IsFilled(d.numero) then
      d.rua.value + ", " + d.numero.value + " - " + d.bairro.value + ", CEP " + d.cep.value
    else ""
  }

  /** The company payload shaped from the accumulated record. */
  function CompanyInfoOf(d: FormData): (c: CompanyInfo)
    ensures c.companyID == CleanedCompanyID(d) && AllDigits(c.companyID)
    ensures c.companyName == OrEmpty(d.razaoSocial) && c.socialNameCompany == OrEmpty(d.nomeEmpresa)
    ensures c.country == OrEmpty(d.pais) && c.socialClass == OrEmpty(d.classificacaoFiscal)
    ensures c.Segment == OrEmpty(d.segmento)
    ensures |c.SubSegment| <= 1
    ensures c.SubSegment == (if IsFilled(d.subsegmento) then [d.subsegmento.value] else [])
    ensures c.Address == AddressOf(d)
    ensures c.typeID == "CNPJ" && c.kind == "nacional"
    ensures c.website == "" && c.State == "" && c.City == ""
  {
    CompanyInfo(
      country := OrEmpty(d.pais),
      companyName := OrEmpty(d.razaoSocial),
      socialNameCompany := OrEmpty(d.nomeEmpresa),
      companyID := CleanedCompanyID(d),
      typeID := "CNPJ",
      socialClass := OrEmpty(d.classificacaoFiscal),
      Segment := OrEmpty(d.segmento),
      SubSegment := if IsFilled(d.subsegmento) then [d.subsegmento.value] else [],
      website := "",
      State := "",
      City := "",
      Address := AddressOf(d),
      kind := "nacional")
  }

  /** One contact's payload: renamed fields, the email defaulting to '', the shared company id. */
  function ContactInfoOf(c: Contact, companyID: string): (r: ContactInfo)
    ensures r.name == c.nomeCompleto && r.phone == c.telefone
    ensures r.role == c.cargo && r.sector == c.setor
    ensures r.email == OrEmpty(c.email) && r.companyID == companyID
  {
    ContactInfo(c.nomeCompleto, OrEmpty(c.email), c.telefone, c.cargo, c.setor, companyID)
  }

  /** One contact request per contact, in list order. */
  function ContactRequests(cs: seq<Contact>, companyID: string): (r: seq<Request>)
    ensures |r| == |cs|
    ensures forall i :: 0 <= i < |cs| ==> r[i] == ContactRequest(ContactInfoOf(cs[i], companyID))
  {
    if cs == [] then []
    else [ContactRequest(ContactInfoOf(cs[0], companyID))] + ContactRequests(cs[1..], companyID)
  }

  /** What `enviarDados` means to send, in order: the company first, then every contact. */
  function PlannedRequests(d: FormData): (r: seq<Request>)
    ensures |r| == 1 + |d.contatos|
    ensures r[0] == CompanyRequest(CompanyInfoOf(d))
    ensures forall i :: 0 < i < |r| ==> r[i] == ContactRequest(ContactInfoOf(d.contatos[i - 1], CleanedCompanyID(d)))
  {
    [CompanyRequest(CompanyInfoOf(d))] + ContactRequests(d.contatos, CleanedCompanyID(d))
  }

  /**
   * The requests actually made when each `await` resolves as `accept`
   * says: in order, stopping right after the first that throws.
   */
  function Attempted(reqs: seq<Request>, accept: Request -> bool): (sent: seq<Request>)
    ensures |sent| <= |reqs| && sent == reqs[..|sent|]
    ensures forall i :: 0 <= i < |sent| - 1 ==> accept(sent[i])
    ensures sent != reqs ==> sent != [] && !accept(sent[|sent| - 1])
  {
    if reqs == [] then []
    else if accept(reqs[0]) then [reqs[0]] + Attempted(reqs[1..], accept)
    else [reqs[0]]
  }

  predicate AllAccepted(reqs: seq<Request>, accept: Request -> bool)
  {
    forall i :: 0 <= i < |reqs| ==> accept(reqs[i])
  }

  /** Everything is sent exactly when nothing throws, except possibly the last request. */
  lemma {:induction false} AttemptedAll(reqs: seq<Request>, accept: Request -> bool)
    ensures AllAccepted(reqs, accept) ==> Attempted(reqs, accept) == reqs
    ensures Attempted(reqs, accept) == reqs && reqs != [] && accept(reqs[|reqs| - 1]) ==> AllAccepted(reqs, accept)
  {
    if reqs != [] {
      AttemptedAll(reqs[1..], accept);
    }
  }

  /** When the first `k` requests go through and the next throws, exactly `k + 1` are made. */
  lemma {:induction false} AttemptedStopsAt(reqs: seq<Request>, accept: Request -> bool, k: nat)
    requires k < |reqs|
    requires forall i :: 0 <= i < k ==> accept(reqs[i])
    requires !accept(reqs[k])
    ensures Attempted(reqs, accept) == reqs[..k + 1]
  {
    if k > 0 {
      AttemptedStopsAt(reqs[1..], accept, k - 1);
      assert reqs[..k + 1] == [reqs[0]] + reqs[1..][..k];
    }
  }

  /** The contact loop of `enviarDados`: one request per contact, in list order, until one throws. */
  method SendContacts(contatos: seq<Contact>, companyID: string, accept: Request -> bool)
    returns (sent: seq<Request>, ok: bool)
    ensures sent == Attempted(ContactRequests(contatos, companyID), accept)
    ensures ok <==> AllAccepted(ContactRequests(contatos, companyID), accept)
  {
    ghost var planned := ContactRequests(contatos, companyID);
    sent := [];
    var i := 0;
    while i < |contatos|
      invariant 0 <= i <= |contatos|
      invariant sent == planned[..i]
      invariant AllAccepted(sent, accept)
    {
      var request := ContactRequest(ContactInfoOf(contatos[i], companyID));
      assert request == planned[i];
      assert planned[..i + 1] == planned[..i] + [request];
      if !accept(request) {
        sent := sent + [request];
        assert sent == Attempted(planned, accept) && !AllAccepted(planned, accept) by {
          assert forall j :: 0 <= j < i ==> accept(planned[j]) by {
            assert forall j :: 0 <= j < i ==> planned[j] == planned[..i][j];
          }
          AttemptedStopsAt(planned, accept, i);
        }
        return sent, false;
      }
      sent := sent + [request];
      i := i + 1;
    }
    assert sent == Attempted(planned, accept) && AllAccepted(planned, accept) by {
      assert sent == planned;
      AttemptedAll(planned, accept);
    }
    return sent, true;
  }

  /** A request that goes through is followed by the rest; one that throws ends the sending. */
  lemma AttemptedCons(r: Request, rest: seq<Request>, accept: Request -> bool)
    ensures Attempted([r] + rest, accept) == if accept(r) then [r] + Attempted(rest, accept) else [r]
    ensures AllAccepted([r] + rest, accept) <==> accept(r) && AllAccepted(rest, accept)
  {
    assert ([r] + rest)[1..] == rest;
    if accept(r) && AllAccepted(rest, accept) {
      forall i | 0 <= i < |[r] + rest|
        ensures accept(([r] + rest)[i])
      {
        if i > 0 {
          assert ([r] + rest)[i] == rest[i - 1];
        }
      }
    }
    if AllAccepted([r] + rest, accept) {
      forall i | 0 <= i < |rest|
        ensures accept(rest[i])
      {
        assert ([r] + rest)[i + 1] == rest[i];
      }
    }
  }

  /**
   * The sending of `enviarDados`: the company request, then one request
   * per contact in list order, all under the same cleaned company id;
   * the first request that throws ends it.
   */
  method SendAll(dados: FormData, accept: Request -> bool) returns (sent: seq<Request>, ok: bool)
    ensures sent == Attempted(PlannedRequests(dados), accept)
    ensures ok <==> AllAccepted(PlannedRequests(dados), accept)
  {
    var company := CompanyRequest(CompanyInfoOf(dados));
    var cleanedCompanyID := CleanedCompanyID(dados);
    AttemptedCons(company, ContactRequests(dados.contatos, cleanedCompanyID), accept);
    if !accept(company) {
      return [company], false;
    }
    var contactsSent;
    contactsSent, ok := SendContacts(dados.contatos, cleanedCompanyID, accept);
    sent := [company] + contactsSent;
  }

  const SuccessMessage: string := "Registro realizado com sucesso!"
  const ErrorMessage: string := "Erro ao realizar o registro. Por favor, tente novamente."

  /** The FatherID step with `desejaCriarFatherID` falsy: the only step that submits. */
  predicate Concludes(step: Step, d: Partial)
  {
    step == FatherID && !IsTrue(d.desejaCriarFatherID)
  }

  // ---------------------------------------------------------------------
  // The wizard as a whole: the rendered form feeding `handleNext`
  // ---------------------------------------------------------------------

  /** The outside world: the two lookups, the email-format check and the send outcomes. */
  datatype Env = Env(
    cnpjLookup: string -> Result<bool>,
    emailLookup: string -> Result<bool>,
    isEmail: string -> bool,
    accept: Request -> bool)

  /** What the user can do: submit the form on screen, press one of its buttons, or press "Voltar". */
  datatype Action =
    | EnterCnpj(cnpj: string)
    | EnterNacionalData(nacional: NacionalDataForm.NacionalForm)
    | EnterEmail(email: string)
    | EnterContact(contact: ContactDataForm.ContactForm)
    | EnterContactPlus(contactPlus: ContactDataPlusForm.ContactPlusForm)
    | ChooseMoreContacts(add: bool)
    | ChooseFatherID(create: bool)
    | Back

  /** The step whose form offers the action; "Voltar" belongs to none. */
  function FormOf(a: Action): Option<Step>
  {
    match a
    case EnterCnpj(_) => Some(CnpjInfo)
    case EnterNacionalData(_) => Some(NacionalData)
    case EnterEmail(_) => Some(EmailInfo)
    case EnterContact(_) => Some(ContactData)
    case EnterContactPlus(_) => Some(ContactDataPlus)
    case ChooseMoreContacts(_) => Some(MoreContact)
    case ChooseFatherID(_) => Some(FatherID)
    case Back => None
  }

  /**
   * The result the form rendered at `step` hands to `onNext` for the
   * action, if any. Only the form on screen can act, and the first
   * contact form receives `formData.email || ''` as its `email` prop.
   */
  function Emitted(step: Step, f: FormData, a: Action, env: Env): (r: Option<Partial>)
    ensures r.Some? ==> FormOf(a) == Some(step)
  {
    if FormOf(a) != Some(step) then None
    else match a
      case EnterCnpj(cnpj) => CnpjInfoForm.Submit(cnpj, env.cnpjLookup)
      case EnterNacionalData(nacional) => NacionalDataForm.Submit(nacional)
      case EnterEmail(email) => StepForms.EmailSubmit(email, env.isEmail, env.emailLookup)
      case EnterContact(contact) => ContactDataForm.Submit(contact, OrEmpty(f.email))
      case EnterContactPlus(contactPlus) => ContactDataPlusForm.Submit(contactPlus, env.isEmail)
      case ChooseMoreContacts(add) => Some(StepForms.MoreContactChoice(add))
      case ChooseFatherID(create) => Some(StepForms.FatherIDChoice(create))
      case Back => None
  }

  /** The component's three pieces of state, as values. */
  datatype Session = Session(step: Step, formData: FormData, mensagem: Option<string>)

  const InitialSession: Session := Session(CnpjInfo, InitialFormData, None)

  /** One `handleNext` call on a result: the new state and the requests made. */
  function Next(s: Session, d: Partial, accept: Request -> bool): (r: (Session, seq<Request>))
    ensures r.0.formData == Merge(s.formData, d) && r.0.step == NextStep(s.step, d)
    ensures Concludes(s.step, d) ==>
      r.1 == Attempted(PlannedRequests(r.0.formData), accept) && r.0.mensagem == Some(SuccessMessage)
    ensures !Concludes(s.step, d) ==> r.1 == [] && r.0.mensagem == s.mensagem
  {
    var m := Merge(s.formData, d);
    if Concludes(s.step, d) then
      (Session(NextStep(s.step, d), m, Some(SuccessMessage)), Attempted(PlannedRequests(m), accept))
    else
      (Session(NextStep(s.step, d), m, s.mensagem), [])
  }

  /**
   * One user action: "Voltar" runs `handleBack` (the button is hidden at
   * CnpjInfo, where `handleBack` would change nothing anyway); a form
   * submission that hands on a result runs `handleNext`; anything else,
   * a rejected form or a failed lookup, leaves the state as it is.
   */
  function Transition(s: Session, a: Action, env: Env): (r: (Session, seq<Request>))
    ensures a == Back ==> r == (s.(step := PrevStep(s.step, s.formData)), [])
    ensures r.1 != [] ==> s.step == FatherID && a == ChooseFatherID(false)
    ensures a != Back && Emitted(s.step, s.formData, a, env).None? ==> r == (s, [])
  {
    if a == Back then (s.(step := PrevStep(s.step, s.formData)), [])
    else match Emitted(s.step, s.formData, a, env)
      case None => (s, [])
      case Some(d) => Next(s, d, env.accept)
  }

  // ---------------------------------------------------------------------
  // The component's state
  // ---------------------------------------------------------------------

  class ClienteNacionalWizard {
    var currentStep: Step
    var formData: FormData
    var mensagem: Option<string>

    /** The current state as a value. */
    function State(): Session
      reads this
    {
      Session(currentStep, formData, mensagem)
    }

    /** Mounting: the CNPJ step, `{ contatos: [] }`, no message. */
    constructor ()
      ensures State() == InitialSession
    {
      currentStep := CnpjInfo;
      formData := InitialFormData;
      mensagem := None;
    }

    /** `enviarDados`: send, then report success or failure in `mensagem`. */
    method EnviarDados(dados: FormData, accept: Request -> bool) returns (sent: seq<Request>)
      modifies this`mensagem
      ensures sent == Attempted(PlannedRequests(dados), accept)
      ensures mensagem == Some(if AllAccepted(PlannedRequests(dados), accept) then SuccessMessage else ErrorMessage)
    {
      var ok;
      sent, ok := SendAll(dados, accept);
      if ok {
        mensagem := Some(SuccessMessage);
      } else {
        mensagem := Some(ErrorMessage);
      }
    }

    /**
     * `handleNext`: merge, then move. At FatherID with the flag falsy it
     * submits the merged record and then sets the success message, which
     * replaces the error message a failed submission has just set. With
     * the flag true nothing happens.
     */
    method HandleNext(data: Partial, accept: Request -> bool) returns (sent: seq<Request>)
      modifies this
      ensures formData == Merge(old(formData), data)
      ensures currentStep == NextStep(old(currentStep), data)
      ensures Concludes(old(currentStep), data) ==>
        sent == Attempted(PlannedRequests(formData), accept) && mensagem == Some(SuccessMessage)
      ensures !Concludes(old(currentStep), data) ==> sent == [] && mensagem == old(mensagem)
    {
      var updatedFormData := Merge(formData, data);
      formData := updatedFormData;
      sent := [];
      match currentStep
      case CnpjInfo =>
        if data.cnpjExists.Some? {
          if data.cnpjExists.value {
            currentStep := EmailInfo;
          } else {
            currentStep := NacionalData;
          }
        }
      case NacionalData =>
        currentStep := EmailInfo;
      case EmailInfo =>
        if data.emailExists.Some? {
          if data.emailExists.value {
            currentStep := MoreContact;
          } else {
            currentStep := ContactData;
          }
        }
      case ContactData =>
        currentStep := MoreContact;
      case ContactDataPlus =>
        currentStep := MoreContact;
      case MoreContact =>
        if IsTrue(data.addMoreContacts) {
          currentStep := ContactDataPlus;
        } else {
          currentStep := FatherID;
        }
      case FatherID =>
        if !IsTrue(data.desejaCriarFatherID) {
          sent := EnviarDados(updatedFormData, accept);
          mensagem := Some(SuccessMessage);
        }
    }

    /** `handleBack`: only the step changes. */
    method HandleBack()
      modifies this`currentStep
      ensures currentStep == PrevStep(old(currentStep), formData)
    {
      match currentStep
      case EmailInfo =>
        currentStep := CnpjInfo;
      case ContactData =>
        if IsTrue(formData.cnpjExists) {
          currentStep := EmailInfo;
        } else {
          currentStep := NacionalData;
        }
      case ContactDataPlus =>
        currentStep := MoreContact;
      case MoreContact =>
        if |formData.contatos| > 0 {
          var lastContact := formData.contatos[|formData.contatos| - 1];
          if IsFilled(lastContact.email) {
            currentStep := ContactDataPlus;
          } else {
            currentStep := ContactData;
          }
        } else {
          currentStep := EmailInfo;
        }
      case FatherID =>
        currentStep := MoreContact;
      case NacionalData =>
        currentStep := CnpjInfo;
      case CnpjInfo =>
    }

    /** One user action on the mounted component: the form on screen, then `handleNext`, or `handleBack`. */
    method Act(a: Action, env: Env) returns (sent: seq<Request>)
      modifies this
      ensures (State(), sent) == Transition(old(State()), a, env)
    {
      if a == Back {
        HandleBack();
        sent := [];
      } else {
        var emitted := Emitted(currentStep, formData, a, env);
        if emitted.Some? {
          sent := HandleNext(emitted.value, env.accept);
        } else {
          sent := [];
        }
      }
    }
  }
}
