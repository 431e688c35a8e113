/**
 * The additional-contact step: like the first contact step, but the
 * email is typed into the form itself and must be a well-formed address.
 */
module ContactDataPlusForm {
  import opened Wrappers
  import opened WizardTypes
  import ContactDataForm

  /** The form's five fields, as typed. */
  datatype ContactPlusForm = ContactPlusForm(
    email: string, nomeCompleto: string, telefone: string, setor: string, cargo: string)

  /**
   * `contactDataPlusSchema`: a non-empty email accepted by the email-format
   * check `isEmail`, then the fields and phone pattern of the first contact
   * step (the same regular expression is written again in this form).
   */
  predicate ContactPlusSchema(f: ContactPlusForm, isEmail: string -> bool)
  {
    && f.email != "" && isEmail(f.email)
    && ContactDataForm.ContactSchema(ContactDataForm.ContactForm(f.nomeCompleto, f.telefone, f.setor, f.cargo))
  }

  /**
   * `submitHandler`, run only when the schema passes: a one-element
   * `contatos` carrying the typed email, which is never empty.
   */
  function Submit(f: ContactPlusForm, isEmail: string -> bool): (r: Option<Partial>)
    ensures r.Some? <==> ContactPlusSchema(f, isEmail)
    ensures r.Some? ==>
      && r.value.contatos.Some? && |r.value.contatos.value| == 1
      && var c := r.value.contatos.value[0];
      && c.nomeCompleto == f.nomeCompleto && c.telefone == f.telefone
      && c.setor == f.setor && c.cargo == f.cargo
      && c.email == Some(f.email) && IsFilled(c.email) && isEmail(f.email)
      && r.value.(contatos := None) == NoData
  {
    if !ContactPlusSchema(f, isEmail) then None
    else Some(NoData.(contatos := Some([Contact(f.nomeCompleto, f.telefone, f.setor, f.cargo, Some(f.email))])))
  }
}
