/** The password reset page (src/pages/auth/ResetPasswordPage.tsx): a new
    password and its confirmation, a success alert, and a redirect to the
    login page three seconds later. */
module ResetPasswordPage {
  import opened Wrappers
  import FormRules
  import Auth

  const DefaultToken := "token-simulado"

  /** The token: the `token` query parameter, or the simulated one when it
      is missing or empty (both are falsy for `||`). */
  function Token(param: Option<string>): (r: string)
    ensures r != []
    ensures param.Some? && param.value != "" ==> r == param.value
    ensures param.None? || param.value == "" ==> r == DefaultToken
  {
    if param.Some? && param.value != "" then param.value else DefaultToken
  }

  const PasswordRequired := "Nova senha é obrigatória"

  /** `handleSubmit` calls `onSubmit` only for a password of six or more
      characters confirmed by the same text. */
  function Submittable(password: string, confirm: string): (r: bool)
    ensures r <==> |password| >= 6 && confirm == password
  {
    FormRules.PasswordAccepted(PasswordRequired, password);
    FormRules.ConfirmAccepted(password, confirm);
    && FormRules.FirstError(password, FormRules.PasswordRules(PasswordRequired)).None?
    && FormRules.FirstError(confirm, FormRules.ConfirmRules(password)).None?
  }

  /** A navigation the page has scheduled with `setTimeout`. */
  datatype Redirect = Redirect(path: string, afterMs: nat)

  class ResetPage {
    const auth: Auth.AuthStore
    const token: string
    var success: bool
    var pending: Option<Redirect>
    var navigatedTo: Option<string>

    constructor (auth: Auth.AuthStore, tokenParam: Option<string>)
      ensures this.auth == auth && token == Token(tokenParam)
      ensures !success && pending == None && navigatedTo == None
    {
      this.auth := auth;
      token := Token(tokenParam);
      success, pending, navigatedTo := false, None, None;
    }

    /** `onSubmit`, reachable while the form is shown: reset, report success
        whatever the store recorded, and schedule the way back to login. */
    method Submit(password: string, confirm: string, delay: Delay)
      requires !success
      modifies this`success, this`pending, auth`isLoading, auth`error
      ensures !Submittable(password, confirm) ==> !success && pending == old(pending) && unchanged(auth)
      ensures Submittable(password, confirm) ==>
        && success && pending == Some(Redirect("/login", 3000))
        && auth.error == if delay.Resolves? then None else Some(RejectionMessage(delay, "Erro ao redefinir senha"))
    {
      if !Submittable(password, confirm) {
        return;
      }
      auth.ResetPassword(token, password, delay);
      success := true;
      pending := Some(Redirect("/login", 3000));
    }

    /** The timer fires: the page goes where it was told to. */
    method TimerFires()
      requires pending.Some?
      modifies this`pending, this`navigatedTo
      ensures navigatedTo == Some(old(pending).value.path) && pending == None
    {
      navigatedTo := Some(pending.value.path);
      pending := None;
    }
  }
}
