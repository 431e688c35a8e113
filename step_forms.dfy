/**
 * The three small steps whose only content is the result they hand on:
 * the email lookup, the "more contacts?" choice and the account choice.
 */
module StepForms {
  import opened Wrappers
  import opened WizardTypes

  /** `emailSchema`: a non-empty email accepted by the email-format check `isEmail`. */
  predicate EmailSchema(email: string, isEmail: string -> bool)
  {
    email != "" && isEmail(email)
  }

  /**
   * The email step: when the schema passes it asks `lookup` (true when the
   * address is known as a contact or as a user) and hands on the email and
   * the answer; when the lookup throws it shows an error and hands on nothing.
   */
  function EmailSubmit(email: string, isEmail: string -> bool, lookup: string -> Result<bool>): (r: Option<Partial>)
    ensures r.Some? <==> EmailSchema(email, isEmail) && lookup(email).Success?
    ensures r.Some? ==>
      && IsFilled(r.value.email) && r.value.email == Some(email)
      && lookup(email).Success? && r.value.emailExists == Some(lookup(email).value)
      && r.value.(email := None, emailExists := None) == NoData
  {
    if !EmailSchema(email, isEmail) then None
    else match lookup(email)
      case Success(found) => Some(NoData.(email := Some(email), emailExists := Some(found)))
      case Failure => None
  }

  /** The two buttons of the "more contacts?" step. */
  function MoreContactChoice(add: bool): (r: Partial)
    ensures r.addMoreContacts == Some(add) && r.(addMoreContacts := None) == NoData
  {
    NoData.(addMoreContacts := Some(add))
  }

  /** The two buttons of the account step. */
  function FatherIDChoice(create: bool): (r: Partial)
    ensures r.desejaCriarFatherID == Some(create) && r.(desejaCriarFatherID := None) == NoData
  {
    NoData.(desejaCriarFatherID := Some(create))
  }
}
