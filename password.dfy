/**
 * The password step: two fields, an error line, and a submit handler
 * that checks the confirmation before the length and then either hands
 * the password to the parent or creates it through the password service.
 */
module PasswordForm {
  import opened Wrappers

  const MismatchMessage: string := "As senhas não coincidem."
  const TooShortMessage: string := "A senha deve ter pelo menos 6 caracteres."
  const CreateFailedMessage: string := "Erro ao criar senha. Por favor, tente novamente."
  const MinLength: nat := 6

  /**
   * The two checks in their order: a confirmation that differs is
   * reported before a password that is too short. `None` means both pass.
   */
  function PasswordError(senha: string, confirmarSenha: string): (r: Option<string>)
    ensures r.None? <==> senha == confirmarSenha && |senha| >= MinLength
    ensures senha != confirmarSenha ==> r == Some(MismatchMessage)
    ensures senha == confirmarSenha && |senha| < MinLength ==> r == Some(TooShortMessage)
  {
    if senha != confirmarSenha then Some(MismatchMessage)
    else if |senha| < MinLength then Some(TooShortMessage)
    else None
  }

  /** The two messages differ, so the error line tells which check failed. */
  lemma ChecksDistinguishable(senha: string, confirmarSenha: string)
    requires PasswordError(senha, confirmarSenha).Some?
    ensures PasswordError(senha, confirmarSenha) == Some(MismatchMessage) <==> senha != confirmarSenha
  {
    assert MismatchMessage[1] != TooShortMessage[1];
  }

  /** The page `navigate` opens after the password is created. */
  const SuccessPath: string := "/success"

  /** What a submission leads to, and which outside call it makes. */
  datatype Outcome =
    | Rejected                                   // a check failed; nothing is called
    | Forwarded(senha: string)                   // `onNext({ senha })`; no service call
    | Created(email: string, senha: string, navigateTo: string) // the service accepted; navigation to `navigateTo`
    | CreateFailed(email: string, senha: string) // the service threw

  class PasswordPage {
    var senha: string
    var confirmarSenha: string
    var erro: string

    constructor ()
      ensures senha == "" && confirmarSenha == "" && erro == ""
    {
      senha := "";
      confirmarSenha := "";
      erro := "";
    }

    method SetSenha(value: string)
      modifies this`senha
      ensures senha == value
    {
      senha := value;
    }

    method SetConfirmarSenha(value: string)
      modifies this`confirmarSenha
      ensures confirmarSenha == value
    {
      confirmarSenha := value;
    }

    /**
     * `handleSubmit`. `hasOnNext` says whether the parent passed `onNext`;
     * `create(email, senha)` is the password service, true when it
     * succeeds. The fields themselves never change.
     */
    method HandleSubmit(hasOnNext: bool, email: Option<string>, create: (string, string) -> bool)
      returns (outcome: Outcome)
      modifies this`erro
      ensures PasswordError(senha, confirmarSenha).Some? ==>
        outcome == Rejected && erro == PasswordError(senha, confirmarSenha).value
      ensures PasswordError(senha, confirmarSenha).None? && hasOnNext ==>
        outcome == Forwarded(senha) && erro == ""
      ensures PasswordError(senha, confirmarSenha).None? && !hasOnNext ==>
        if create(OrEmpty(email), senha) then
          outcome == Created(OrEmpty(email), senha, SuccessPath) && erro == ""
        else
          outcome == CreateFailed(OrEmpty(email), senha) && erro == CreateFailedMessage
    {
      if senha != confirmarSenha {
        erro := MismatchMessage;
        return Rejected;
      }
      if |senha| < MinLength {
        erro := TooShortMessage;
        return Rejected;
      }
      erro := "";
      if hasOnNext {
        outcome := Forwarded(senha);
      } else {
        var address := OrEmpty(email);
        if create(address, senha) {
          outcome := Created(address, senha, SuccessPath);
        } else {
          erro := CreateFailedMessage;
          outcome := CreateFailed(address, senha);
        }
      }
    }
  }
}
