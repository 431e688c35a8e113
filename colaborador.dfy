/**
 * The collaborator registration page: a list of collaborator cards with
 * add and remove, a schema over the whole list, and a submit handler that
 * checks every email against the registry before sending the list once.
 */
module ColaboradorPage {
  import opened Wrappers
  import opened Text

  /**
   * One collaborator card. The birthday is a calendar date the page only
   * requires to be present; it is kept as an opaque day number.
   */
  datatype Colaborador = Colaborador(
    email: string, name: string, telefone: string, setor: string, cargo: string,
    dataAniversario: Option<int>)

  /** A new, empty card. */
  const Blank: Colaborador := Colaborador("", "", "", "", "", None)

  /** `^\+?[1-9]\d{1,14}$`: an optional '+', a non-zero digit, then one to fourteen digits. */
  predicate PhoneOk(s: string)
  {
    var t := if |s| > 0 && s[0] == '+' then s[1..] else s;
    2 <= |t| <= 15 && AllDigits(t) && t[0] != '0'
  }

  /** An accepted phone holds two to fifteen digits, and nothing else but a leading '+'. */
  lemma PhoneDigitCount(s: string)
    requires PhoneOk(s)
    ensures 2 <= |Digits(s)| <= 15
    ensures |s| == |Digits(s)| || (|s| == |Digits(s)| + 1 && s[0] == '+')
  {
    if |s| > 0 && s[0] == '+' {
      assert s == ['+'] + s[1..];
      DigitsAppend(['+'], s[1..]);
      DigitsOfDigits(s[1..]);
    } else {
      DigitsOfDigits(s);
    }
  }

  /** `colaboradorSchema`, with the email-format check as `isEmail`. */
  predicate ColaboradorOk(c: Colaborador, isEmail: string -> bool)
  {
    && c.email != "" && isEmail(c.email)
    && c.name != ""
    && c.telefone != "" && PhoneOk(c.telefone)
    && c.setor != "" && c.cargo != ""
    && c.dataAniversario.Some?
  }

  /** `registerColaboradorFromSchema`: at least one collaborator, each one valid. */
  predicate FormOk(cs: seq<Colaborador>, isEmail: string -> bool)
  {
    |cs| >= 1 && forall i :: 0 <= i < |cs| ==> ColaboradorOk(cs[i], isEmail)
  }

  /** The result of checking the emails in list order. */
  datatype Scan = AllNew | Registered(email: string) | LookupFailed

  /**
   * The email checks of `onSubmit`, in list order: the first email the
   * registry knows ends the scan, and so does a lookup that throws.
   */
  function ScanEmails(cs: seq<Colaborador>, exists_: string -> Result<bool>): (r: Scan)
    ensures r == AllNew <==> forall i :: 0 <= i < |cs| ==> exists_(cs[i].email) == Success(false)
    ensures r.Registered? ==>
      exists k :: (0 <= k < |cs| && cs[k].email == r.email && exists_(cs[k].email) == Success(true) &&
                   forall i :: 0 <= i < k ==> exists_(cs[i].email) == Success(false))
    ensures r == LookupFailed ==>
      exists k :: (0 <= k < |cs| && exists_(cs[k].email).Failure? &&
                   forall i :: 0 <= i < k ==> exists_(cs[i].email) == Success(false))
    decreases |cs|
  {
    if cs == [] then AllNew
    else match exists_(cs[0].email)
      case Failure => LookupFailed
      case Success(true) => Registered(cs[0].email)
      case Success(false) =>
        var rest := ScanEmails(cs[1..], exists_);
        assert forall i :: 1 <= i < |cs| ==> cs[i] == cs[1..][i - 1];
        rest
  }

  function RegisteredMessage(email: string): string
  {
    "O email " + email + " já está registrado."
  }

  const GenericErrorMessage: string := "Ocorreu um erro ao cadastrar os colaboradores. Tente novamente."

  class Page {
    var colaboradores: seq<Colaborador>
    var isLoading: bool
    var errorMessage: Option<string>

    /** The form never holds an empty list. */
    predicate Valid()
      reads this
    {
      |colaboradores| >= 1
    }

    /** Mounting: one blank card, not loading, no error. */
    constructor ()
      ensures Valid() && colaboradores == [Blank] && !isLoading && errorMessage == None
    {
      colaboradores := [Blank];
      isLoading := false;
      errorMessage := None;
    }

    /** `handleAddColaborador`: one blank card at the end. */
    method AddColaborador()
      requires Valid()
      modifies this`colaboradores
      ensures Valid() && colaboradores == old(colaboradores) + [Blank]
    {
      colaboradores := colaboradores + [Blank];
    }

    /** The remove button of card `index`, shown only while there is more than one card. */
    method RemoveColaborador(index: nat)
      requires Valid() && index < |colaboradores|
      modifies this`colaboradores
      ensures Valid()
      ensures colaboradores == if |old(colaboradores)| > 1
        then old(colaboradores)[..index] + old(colaboradores)[index + 1..]
        else old(colaboradores)
    {
      if |colaboradores| > 1 {
        colaboradores := colaboradores[..index] + colaboradores[index + 1..];
      }
    }

    /** Editing card `index`. */
    method SetColaborador(index: nat, c: Colaborador)
      requires Valid() && index < |colaboradores|
      modifies this`colaboradores
      ensures Valid() && colaboradores == old(colaboradores)[index := c]
    {
      colaboradores := colaboradores[index := c];
    }

    /**
     * Pressing "Próximo": the schema gates `onSubmit`. `onSubmit` clears
     * the error, checks the emails one by one against `exists_` and stops
     * at the first registered one; when all are new it sends the whole
     * list once through `send` (true when the call succeeds). Loading
     * ends on every path. `sent` is the list handed to `send`, if any.
     * The button is disabled while loading.
     */
    method Submit(isEmail: string -> bool, exists_: string -> Result<bool>, send: seq<Colaborador> -> bool)
      returns (sent: Option<seq<Colaborador>>)
      requires Valid() && !isLoading
      modifies this`isLoading, this`errorMessage
      ensures Valid() && !isLoading
      ensures !FormOk(colaboradores, isEmail) ==> sent == None && errorMessage == old(errorMessage)
      ensures FormOk(colaboradores, isEmail) ==>
        match ScanEmails(colaboradores, exists_)
        case Registered(e) => sent == None && errorMessage == Some(RegisteredMessage(e))
        case LookupFailed => sent == None && errorMessage == Some(GenericErrorMessage)
        case AllNew =>
          sent == Some(colaboradores) &&
          errorMessage == if send(colaboradores) then None else Some(GenericErrorMessage)
    {
      sent := None;
      if !FormOk(colaboradores, isEmail) {
        return;
      }
      isLoading := true;
      errorMessage := None;
      var i := 0;
      while i < |colaboradores|
        invariant 0 <= i <= |colaboradores|
        invariant ScanEmails(colaboradores, exists_) == ScanEmails(colaboradores[i..], exists_)
        invariant errorMessage == None && sent == None
      {
        var colaborador := colaboradores[i];
        assert colaboradores[i..][1..] == colaboradores[i + 1..];
        var found := exists_(colaborador.email);
        if found.Failure? {
          errorMessage := Some(GenericErrorMessage);
          isLoading := false;
          return;
        }
        if found.value {
          errorMessage := Some(RegisteredMessage(colaborador.email));
          isLoading := false;
          return;
        }
        i := i + 1;
      }
      sent := Some(colaboradores);
      if !send(colaboradores) {
        errorMessage := Some(GenericErrorMessage);
      }
      isLoading := false;
    }
  }

  /** A registered email anywhere in the list prevents the send, whatever comes after it. */
  lemma RegisteredBlocksSend(cs: seq<Colaborador>, exists_: string -> Result<bool>, k: nat)
    requires k < |cs| && exists_(cs[k].email) == Success(true)
    ensures ScanEmails(cs, exists_) != AllNew
  {
  }

  /** The scan reports the first registered email of the list, not a later one. */
  lemma {:induction false} ScanReportsFirst(cs: seq<Colaborador>, exists_: string -> Result<bool>, k: nat)
    requires k < |cs| && exists_(cs[k].email) == Success(true)
    requires forall i :: 0 <= i < k ==> exists_(cs[i].email) == Success(false)
    ensures ScanEmails(cs, exists_) == Registered(cs[k].email)
    decreases k
  {
    if k > 0 {
      ScanReportsFirst(cs[1..], exists_, k - 1);
    }
  }
}
