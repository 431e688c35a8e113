/**
 * Runs of the whole wizard: sequences of user actions, the invariant
 * every reachable state keeps, and what the wizard does on the main
 * paths, including the behaviours its back navigation and its closing
 * step actually have.
 */
module WizardRuns {
  import opened Wrappers
  import opened Text
  import opened WizardTypes
  import opened CnpjValidation
  import CnpjInfoForm
  import NacionalDataForm
  import ContactDataForm
  import ContactDataPlusForm
  import StepForms
  import opened ClienteNacional
  import Traces

  /** The wizard as a transition system: one user action at a time. */
  function Wizard(env: Env): (Session, Action) -> (Session, seq<Request>)
  {
    (s, a) => Transition(s, a, env)
  }

  /** The state after the actions and every request made on the way. */
  function Run(s: Session, actions: seq<Action>, env: Env): (Session, seq<Request>)
  {
    Traces.Run(Wizard(env), s, actions)
  }

  /** One action never removes or reorders the contacts: it can only append. */
  lemma TransitionKeepsContacts(s: Session, a: Action, env: Env)
    ensures var c := Transition(s, a, env).0.formData.contatos;
      |s.formData.contatos| <= |c| && c[..|s.formData.contatos|] == s.formData.contatos
  {
  }

  /** Over any run the contact list only grows at its end. */
  lemma {:induction false} RunKeepsContacts(s: Session, actions: seq<Action>, env: Env)
    ensures var c := Run(s, actions, env).0.formData.contatos;
      |s.formData.contatos| <= |c| && c[..|s.formData.contatos|] == s.formData.contatos
    decreases |actions|
  {
    if actions != [] {
      var t := Transition(s, actions[0], env).0;
      TransitionKeepsContacts(s, actions[0], env);
      RunKeepsContacts(t, actions[1..], env);
      assert Run(s, actions, env).0 == Run(t, actions[1..], env).0;
      var c1 := t.formData.contatos;
      var c2 := Run(t, actions[1..], env).0.formData.contatos;
      assert c2[..|s.formData.contatos|] == c1[..|c1|][..|s.formData.contatos|];
    }
  }

  /** A contact as the two contact forms let it through, with the email the wizard gives it. */
  predicate ContactOk(c: Contact, isEmail: string -> bool)
  {
    && c.nomeCompleto != "" && c.setor != "" && c.cargo != ""
    && c.telefone != "" && ContactDataForm.PhoneOk(c.telefone)
    && IsFilled(c.email) && isEmail(c.email.value)
  }

  /** The steps that come after the email step on every forward path. */
  predicate AfterEmail(step: Step)
  {
    step == ContactData || step == ContactDataPlus || step == MoreContact || step == FatherID
  }

  /** What holds in every state the wizard can reach from mounting. */
  predicate Inv(s: Session, env: Env)
  {
    && (forall i :: 0 <= i < |s.formData.contatos| ==> ContactOk(s.formData.contatos[i], env.isEmail))
    && (s.formData.cnpj.Some? ==>
          var c := s.formData.cnpj.value; |c| == 14 && AllDigits(c) && ValidateCNPJ(c))
    && (s.formData.email.Some? ==> s.formData.email.value != "" && env.isEmail(s.formData.email.value))
    && (s.step != CnpjInfo ==> s.formData.cnpj.Some?)
    && (AfterEmail(s.step) ==> s.formData.email.Some?)
  }

  lemma InvInitial(env: Env)
    ensures Inv(InitialSession, env)
  {
  }

  /** The contacts a step hands on are all acceptable, given the invariant before it. */
  lemma EmittedContactsOk(s: Session, a: Action, env: Env)
    requires Inv(s, env)
    requires Emitted(s.step, s.formData, a, env).Some?
    ensures var d := Emitted(s.step, s.formData, a, env).value;
      d.contatos.Some? ==> forall i :: 0 <= i < |d.contatos.value| ==> ContactOk(d.contatos.value[i], env.isEmail)
  {
    var d := Emitted(s.step, s.formData, a, env).value;
    match a
    case EnterContact(f) =>
      assert d.contatos.value[0].email == Some(s.formData.email.value);
    case EnterContactPlus(f) =>
    case _ =>
  }

  /** Every action keeps the invariant. */
  lemma InvStep(s: Session, a: Action, env: Env)
    requires Inv(s, env)
    ensures Inv(Transition(s, a, env).0, env)
  {
    if a != Back && Emitted(s.step, s.formData, a, env).Some? {
      var d := Emitted(s.step, s.formData, a, env).value;
      EmittedContactsOk(s, a, env);
      var m := Merge(s.formData, d);
      assert m.contatos == s.formData.contatos + (if d.contatos.Some? then d.contatos.value else []);
      assert m.cnpj == (if d.cnpj.Some? then d.cnpj else s.formData.cnpj);
      assert m.email == (if d.email.Some? then d.email else s.formData.email);
    }
  }

  lemma {:induction false} InvRun(s: Session, actions: seq<Action>, env: Env)
    requires Inv(s, env)
    ensures Inv(Run(s, actions, env).0, env)
    decreases |actions|
  {
    if actions != [] {
      InvStep(s, actions[0], env);
      InvRun(Transition(s, actions[0], env).0, actions[1..], env);
      assert Run(s, actions, env).0 == Run(Transition(s, actions[0], env).0, actions[1..], env).0;
    }
  }

  /** Every state reachable from mounting satisfies the invariant. */
  lemma Reachable(actions: seq<Action>, env: Env)
    ensures Inv(Run(InitialSession, actions, env).0, env)
  {
    InvInitial(env);
    InvRun(InitialSession, actions, env);
  }

  /**
   * `handleBack` at MoreContact tells the two contact steps apart by the
   * last contact's email, but every reachable contact carries one (the
   * first contact step stamps the email-step address on it), so the
   * ContactData branch is never taken.
   */
  lemma BackFromMoreContact(s: Session, env: Env)
    requires Inv(s, env) && s.step == MoreContact
    ensures Transition(s, Back, env).0.step == if s.formData.contatos == [] then EmailInfo else ContactDataPlus
  {
    var cs := s.formData.contatos;
    if cs != [] {
      assert ContactOk(cs[|cs| - 1], env.isEmail);
    }
  }

  /** Submitting the first contact and pressing "Voltar" leads to the additional-contact step, not back. */
  lemma ContactDataThenBack(s: Session, f: ContactDataForm.ContactForm, env: Env)
    requires Inv(s, env) && s.step == ContactData
    requires ContactDataForm.ContactSchema(f)
    ensures var s1 := Transition(s, EnterContact(f), env).0;
      s1.step == MoreContact && Transition(s1, Back, env).0.step == ContactDataPlus
  {
    var s1 := Transition(s, EnterContact(f), env).0;
    InvStep(s, EnterContact(f), env);
    BackFromMoreContact(s1, env);
  }

  /** A contact entered on the additional-contact form carries its email, so "Voltar" returns to that form. */
  lemma ContactPlusThenBack(s: Session, f: ContactDataPlusForm.ContactPlusForm, env: Env)
    requires s.step == ContactDataPlus
    requires ContactDataPlusForm.ContactPlusSchema(f, env.isEmail)
    ensures var s1 := Transition(s, EnterContactPlus(f), env).0;
      s1.step == MoreContact && Transition(s1, Back, env).0.step == ContactDataPlus
  {
    var s1 := Transition(s, EnterContactPlus(f), env).0;
    var cs := s1.formData.contatos;
    assert cs[|cs| - 1].email == Some(f.email) by {
      assert cs[|s.formData.contatos|..] == ContactDataPlusForm.Submit(f, env.isEmail).value.contatos.value;
    }
  }

  /** A lookup that throws, at either lookup step, leaves the whole state as it was and sends nothing. */
  lemma LookupFailureChangesNothing(s: Session, value: string, env: Env)
    ensures s.step == CnpjInfo && env.cnpjLookup(Digits(value)).Failure? ==>
      Transition(s, EnterCnpj(value), env) == (s, [])
    ensures s.step == EmailInfo && env.emailLookup(value).Failure? ==>
      Transition(s, EnterEmail(value), env) == (s, [])
  {
  }

  /** The payloads do not read the account choice, so choosing it does not change them. */
  lemma PlannedIgnoresChoice(f: FormData, create: bool)
    ensures PlannedRequests(Merge(f, StepForms.FatherIDChoice(create))) == PlannedRequests(f)
  {
    var m := Merge(f, StepForms.FatherIDChoice(create));
    assert m.contatos == f.contatos;
    assert CompanyInfoOf(m) == CompanyInfoOf(f);
    assert CleanedCompanyID(m) == CleanedCompanyID(f);
  }

  /**
   * "Concluir" at the account step sends the record as it stands, stays
   * on the account step, and ends with the success message whether or
   * not every request went through.
   */
  lemma Conclude(s: Session, env: Env)
    requires s.step == FatherID
    ensures var (s1, sent) := Transition(s, ChooseFatherID(false), env);
      && s1.step == FatherID
      && sent == Attempted(PlannedRequests(s.formData), env.accept)
      && s1.mensagem == Some(SuccessMessage)
      && s1.formData == s.formData.(desejaCriarFatherID := Some(false))
  {
    PlannedIgnoresChoice(s.formData, false);
  }

  /**
   * Pressing "Concluir" again, whatever the network answers this time,
   * plans the same requests from the unchanged record and attempts them
   * afresh, the company request first both times.
   */
  lemma ConcludeTwice(s: Session, env: Env, env2: Env)
    requires s.step == FatherID
    ensures var (s1, sent1) := Transition(s, ChooseFatherID(false), env);
      var (s2, sent2) := Transition(s1, ChooseFatherID(false), env2);
      && sent2 == Attempted(PlannedRequests(s.formData), env2.accept)
      && s2.formData == s1.formData && s2.step == FatherID
      && sent1 != [] && sent2 != [] && sent2[0] == sent1[0]
      && sent1[0] == CompanyRequest(CompanyInfoOf(s.formData))
  {
    Conclude(s, env);
    var s1 := Transition(s, ChooseFatherID(false), env).0;
    Conclude(s1, env2);
    assert s1.formData.(desejaCriarFatherID := Some(false)) == s1.formData;
    assert PlannedRequests(s1.formData) == PlannedRequests(s.formData) by {
      PlannedIgnoresChoice(s.formData, false);
    }
  }

  /** "Criar" at the account step records the choice and does nothing else. */
  lemma CreateAccountDoesNothing(s: Session, env: Env)
    requires s.step == FatherID
    ensures Transition(s, ChooseFatherID(true), env) ==
      (s.(formData := s.formData.(desejaCriarFatherID := Some(true))), [])
  {
  }

  /**
   * In a reachable state at the account step every planned request is
   * well formed: a valid 14-digit company id, shared by every contact,
   * and contacts with a checked phone and a non-empty, checked email.
   */
  lemma PlannedRequestsWellFormed(s: Session, env: Env)
    requires Inv(s, env) && s.step == FatherID
    ensures var planned := PlannedRequests(s.formData);
      && var id := planned[0].company.companyID;
      && |id| == 14 && ValidateCNPJ(id) && id == s.formData.cnpj.value
      && forall i :: 1 <= i < |planned| ==>
           && planned[i].ContactRequest?
           && planned[i].contact.companyID == id
           && planned[i].contact.email != "" && env.isEmail(planned[i].contact.email)
           && ContactDataForm.PhoneOk(planned[i].contact.phone)
  {
    DigitsOfDigits(s.formData.cnpj.value);
    var planned := PlannedRequests(s.formData);
    var id := CleanedCompanyID(s.formData);
    assert planned[0].company.companyID == id == s.formData.cnpj.value;
    forall i | 1 <= i < |planned|
      ensures planned[i].ContactRequest? && planned[i].contact.companyID == id
      ensures planned[i].contact.email != "" && env.isEmail(planned[i].contact.email)
      ensures ContactDataForm.PhoneOk(planned[i].contact.phone)
    {
      var c := s.formData.contatos[i - 1];
      assert ContactOk(c, env.isEmail);
      assert planned[i] == ContactRequest(ContactInfoOf(c, id));
    }
  }

  /** An accepted CNPJ records the cleaned number and the lookup's answer and moves on by that answer. */
  lemma EnterCnpjStep(s: Session, cnpj: string, env: Env)
    requires s.step == CnpjInfo && CnpjInfoForm.CnpjSchema(cnpj) && env.cnpjLookup(Digits(cnpj)).Success?
    ensures var found := env.cnpjLookup(Digits(cnpj)).value;
      Transition(s, EnterCnpj(cnpj), env) ==
        (s.(step := if found then EmailInfo else NacionalData,
            formData := s.formData.(cnpj := Some(Digits(cnpj)), cnpjExists := Some(found))), [])
  {
  }

  /** Accepted company data records its ten fields and moves to the email step. */
  lemma EnterNacionalDataStep(s: Session, n: NacionalDataForm.NacionalForm, env: Env)
    requires s.step == NacionalData && NacionalDataForm.NacionalSchema(n)
    ensures Transition(s, EnterNacionalData(n), env) ==
      (s.(step := EmailInfo,
          formData := s.formData.(
            nomeEmpresa := Some(n.nomeEmpresa), razaoSocial := Some(n.razaoSocial),
            classificacaoFiscal := Some(n.classificacaoFiscal), pais := Some(n.pais),
            cep := Some(n.cep), rua := Some(n.rua), bairro := Some(n.bairro), numero := Some(n.numero),
            segmento := Some(n.segmento), subsegmento := Some(n.subsegmento))), [])
  {
  }

  /** An accepted, looked-up email is recorded with the answer and picks the next step by it. */
  lemma EnterEmailStep(s: Session, email: string, env: Env)
    requires s.step == EmailInfo && StepForms.EmailSchema(email, env.isEmail) && env.emailLookup(email).Success?
    ensures var found := env.emailLookup(email).value;
      Transition(s, EnterEmail(email), env) ==
        (s.(step := if found then MoreContact else ContactData,
            formData := s.formData.(email := Some(email), emailExists := Some(found))), [])
  {
  }

  /** An accepted first contact is appended with the recorded email and leads to the "more contacts?" step. */
  lemma EnterContactStep(s: Session, c: ContactDataForm.ContactForm, env: Env)
    requires s.step == ContactData && ContactDataForm.ContactSchema(c)
    ensures Transition(s, EnterContact(c), env) ==
      (s.(step := MoreContact,
          formData := s.formData.(contatos := s.formData.contatos +
            [Contact(c.nomeCompleto, c.telefone, c.setor, c.cargo, Some(OrEmpty(s.formData.email)))])), [])
  {
  }

  /** Declining more contacts records the choice and leads to the account step. */
  lemma DeclineMoreContactsStep(s: Session, env: Env)
    requires s.step == MoreContact
    ensures Transition(s, ChooseMoreContacts(false), env) ==
      (s.(step := FatherID, formData := s.formData.(addMoreContacts := Some(false))), [])
  {
  }

  /** The state the main path reaches at the account step. */
  function NewCompanyAtAccountStep(
    cnpj: string, n: NacionalDataForm.NacionalForm, email: string, c: ContactDataForm.ContactForm): Session
  {
    Session(FatherID, InitialFormData.(
      cnpj := Some(Digits(cnpj)), cnpjExists := Some(false),
      nomeEmpresa := Some(n.nomeEmpresa), razaoSocial := Some(n.razaoSocial),
      classificacaoFiscal := Some(n.classificacaoFiscal), pais := Some(n.pais),
      cep := Some(n.cep), rua := Some(n.rua), bairro := Some(n.bairro), numero := Some(n.numero),
      segmento := Some(n.segmento), subsegmento := Some(n.subsegmento),
      email := Some(email), emailExists := Some(false),
      contatos := [Contact(c.nomeCompleto, c.telefone, c.setor, c.cargo, Some(email))],
      addMoreContacts := Some(false)), None)
  }

  /** The main path's first two actions: a CNPJ, then the company data. */
  function CompanyActions(cnpj: string, n: NacionalDataForm.NacionalForm): seq<Action>
  {
    [EnterCnpj(cnpj), EnterNacionalData(n)]
  }

  /** The main path's next three actions: an email, the first contact, and "no more contacts". */
  function ContactActions(email: string, c: ContactDataForm.ContactForm): seq<Action>
  {
    [EnterEmail(email), EnterContact(c), ChooseMoreContacts(false)]
  }

  /** The state the main path reaches at the email step. */
  function NewCompanyAtEmailStep(cnpj: string, n: NacionalDataForm.NacionalForm): Session
  {
    Session(EmailInfo, InitialFormData.(
      cnpj := Some(Digits(cnpj)), cnpjExists := Some(false),
      nomeEmpresa := Some(n.nomeEmpresa), razaoSocial := Some(n.razaoSocial),
      classificacaoFiscal := Some(n.classificacaoFiscal), pais := Some(n.pais),
      cep := Some(n.cep), rua := Some(n.rua), bairro := Some(n.bairro), numero := Some(n.numero),
      segmento := Some(n.segmento), subsegmento := Some(n.subsegmento)), None)
  }

  /** An unregistered CNPJ and then the company data reach the email step without sending anything. */
  lemma NewCompanyCompanySteps(cnpj: string, nacional: NacionalDataForm.NacionalForm, env: Env)
    requires CnpjInfoForm.CnpjSchema(cnpj) && env.cnpjLookup(Digits(cnpj)) == Success(false)
    requires NacionalDataForm.NacionalSchema(nacional)
    ensures Run(InitialSession, CompanyActions(cnpj, nacional), env) == (NewCompanyAtEmailStep(cnpj, nacional), [])
  {
    var s0 := InitialSession;
    var s1 := s0.(step := NacionalData, formData := s0.formData.(cnpj := Some(Digits(cnpj)), cnpjExists := Some(false)));
    var s2 := NewCompanyAtEmailStep(cnpj, nacional);
    var w := Wizard(env);
    var states := [s0, s1, s2];
    var actions := [EnterCnpj(cnpj), EnterNacionalData(nacional)];
    forall i | 0 <= i < 2
      ensures w(states[i], actions[i]) == (states[i + 1], [])
    {
      if i == 0 {
        EnterCnpjStep(s0, cnpj, env);
      } else {
        EnterNacionalDataStep(s1, nacional, env);
      }
    }
    Traces.RunSilentChain(w, states, actions);
  }

  /** From the email step, a new email, one contact and "no more contacts" reach the account step silently. */
  lemma NewCompanyContactSteps(
    cnpj: string, nacional: NacionalDataForm.NacionalForm, email: string,
    contact: ContactDataForm.ContactForm, env: Env)
    requires StepForms.EmailSchema(email, env.isEmail) && env.emailLookup(email) == Success(false)
    requires ContactDataForm.ContactSchema(contact)
    ensures Run(NewCompanyAtEmailStep(cnpj, nacional), ContactActions(email, contact), env)
      == (NewCompanyAtAccountStep(cnpj, nacional, email, contact), [])
  {
    var ct := Contact(contact.nomeCompleto, contact.telefone, contact.setor, contact.cargo, Some(email));
    var s2 := NewCompanyAtEmailStep(cnpj, nacional);
    var s3 := s2.(step := ContactData, formData := s2.formData.(email := Some(email), emailExists := Some(false)));
    var s4 := s3.(step := MoreContact, formData := s3.formData.(contatos := [ct]));
    var s5 := s4.(step := FatherID, formData := s4.formData.(addMoreContacts := Some(false)));
    assert s5 == NewCompanyAtAccountStep(cnpj, nacional, email, contact);
    var w := Wizard(env);
    var states := [s2, s3, s4, s5];
    var actions := [EnterEmail(email), EnterContact(contact), ChooseMoreContacts(false)];
    forall i | 0 <= i < 3
      ensures w(states[i], actions[i]) == (states[i + 1], [])
    {
      if i == 0 {
        EnterEmailStep(s2, email, env);
      } else if i == 1 {
        EnterContactStep(s3, contact, env);
      } else {
        DeclineMoreContactsStep(s4, env);
      }
    }
    Traces.RunSilentChain(w, states, actions);
  }

  /** The first five actions of the main path reach the account step without sending anything. */
  lemma NewCompanyPath(
    cnpj: string, nacional: NacionalDataForm.NacionalForm, email: string,
    contact: ContactDataForm.ContactForm, env: Env)
    requires CnpjInfoForm.CnpjSchema(cnpj) && env.cnpjLookup(Digits(cnpj)) == Success(false)
    requires NacionalDataForm.NacionalSchema(nacional)
    requires StepForms.EmailSchema(email, env.isEmail) && env.emailLookup(email) == Success(false)
    requires ContactDataForm.ContactSchema(contact)
    ensures Run(InitialSession, CompanyActions(cnpj, nacional) + ContactActions(email, contact), env)
      == (NewCompanyAtAccountStep(cnpj, nacional, email, contact), [])
  {
    NewCompanyCompanySteps(cnpj, nacional, env);
    NewCompanyContactSteps(cnpj, nacional, email, contact, env);
    Traces.RunSilentConcat(Wizard(env), InitialSession, CompanyActions(cnpj, nacional),
      NewCompanyAtEmailStep(cnpj, nacional), ContactActions(email, contact),
      NewCompanyAtAccountStep(cnpj, nacional, email, contact));
  }

  /** What the main path ends with: the account step, the success message, the company and then the contact. */
  predicate MainPathOutcome(
    s: Session, sent: seq<Request>, cnpj: string, n: NacionalDataForm.NacionalForm, email: string,
    c: ContactDataForm.ContactForm)
  {
    && s.step == FatherID && s.mensagem == Some(SuccessMessage)
    && |sent| == 2
    && sent[0].CompanyRequest? && sent[0].company.companyID == Digits(cnpj)
    && sent[0].company.companyName == n.razaoSocial
    && sent[0].company.socialNameCompany == n.nomeEmpresa
    && sent[0].company.SubSegment == [n.subsegmento]
    && sent[0].company.Address == n.rua + ", " + n.numero + " - " + n.bairro + ", CEP " + n.cep
    && sent[1] == ContactRequest(ContactInfo(c.nomeCompleto, email, c.telefone, c.cargo, c.setor, Digits(cnpj)))
  }

  /** "Concluir" at the end of the main path, with every request going through. */
  lemma NewCompanyConcludes(
    cnpj: string, nacional: NacionalDataForm.NacionalForm, email: string,
    contact: ContactDataForm.ContactForm, env: Env)
    requires NacionalDataForm.NacionalSchema(nacional)
    requires forall r :: env.accept(r)
    ensures var (s, sent) := Transition(NewCompanyAtAccountStep(cnpj, nacional, email, contact), ChooseFatherID(false), env);
      MainPathOutcome(s, sent, cnpj, nacional, email, contact)
  {
    var s5 := NewCompanyAtAccountStep(cnpj, nacional, email, contact);
    Conclude(s5, env);
    var planned := PlannedRequests(s5.formData);
    AttemptedAll(planned, env.accept);
    var id := Digits(cnpj);
    var ct := Contact(contact.nomeCompleto, contact.telefone, contact.setor, contact.cargo, Some(email));
    DigitsIdempotent(cnpj);
    assert CleanedCompanyID(s5.formData) == id;
    assert planned[1] == ContactRequest(ContactInfoOf(ct, id));
  }

  /**
   * The main path for a company that is not yet registered, with a new
   * email, one contact and no account: the six actions (CNPJ, company
   * data, email, first contact, "no more contacts", "Concluir") end at
   * the account step with the success message, after exactly two
   * requests, the company and then the contact.
   */
  lemma NewCompanyOneContact(
    cnpj: string, nacional: NacionalDataForm.NacionalForm, email: string,
    contact: ContactDataForm.ContactForm, env: Env)
    requires CnpjInfoForm.CnpjSchema(cnpj) && env.cnpjLookup(Digits(cnpj)) == Success(false)
    requires NacionalDataForm.NacionalSchema(nacional)
    requires StepForms.EmailSchema(email, env.isEmail) && env.emailLookup(email) == Success(false)
    requires ContactDataForm.ContactSchema(contact)
    requires forall r :: env.accept(r)
    ensures var (s, sent) := Run(InitialSession,
        CompanyActions(cnpj, nacional) + ContactActions(email, contact) + [ChooseFatherID(false)], env);
      MainPathOutcome(s, sent, cnpj, nacional, email, contact)
  {
    NewCompanyPath(cnpj, nacional, email, contact, env);
    Traces.RunSilentThen(Wizard(env), InitialSession, CompanyActions(cnpj, nacional) + ContactActions(email, contact),
      NewCompanyAtAccountStep(cnpj, nacional, email, contact), ChooseFatherID(false));
    NewCompanyConcludes(cnpj, nacional, email, contact, env);
  }
}
