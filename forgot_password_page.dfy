/** The password recovery page (src/pages/auth/ForgotPasswordPage.tsx): an
    e-mail field that, once submitted, is replaced by a success alert. */
module ForgotPasswordPage {
  import opened Wrappers
  import FormRules
  import Auth

  /** The card's contents below the title: the error alert when the store
      has an error, then either the success alert or the form. */
  datatype Body = SuccessAlert | EmailForm
  datatype View = View(errorAlert: Option<string>, body: Body)

  /** `handleSubmit` calls `onSubmit` only for an e-mail of the accepted shape. */
  function Submittable(email: string): (r: bool)
    ensures r <==> FormRules.EmailShape(email)
    ensures email == "" ==> !r
  {
    FormRules.EmailAccepted(email);
    FormRules.FirstError(email, FormRules.EmailRules).None?
  }

  class RecoveryPage {
    const auth: Auth.AuthStore
    var success: bool

    constructor (auth: Auth.AuthStore)
      ensures this.auth == auth && !success
    {
      this.auth := auth;
      success := false;
    }

    /** What the page shows: the success alert replaces the form for good,
        and the error alert depends on the store's error alone: `{error && …}`
        shows it only for a message that is not empty. */
    function Render(): (v: View)
      reads this`success, auth`error
      ensures v.body == SuccessAlert <==> success
      ensures v.errorAlert.Some? <==> auth.error.Some? && auth.error.value != ""
      ensures v.errorAlert.Some? ==> v.errorAlert == auth.error
    {
      View(if auth.error.Some? && auth.error.value != "" then auth.error else None,
           if success then SuccessAlert else EmailForm)
    }

    /** `onSubmit`, reachable while the form is shown: ask the store, then
        report success whatever the store recorded, since it never throws. */
    method Submit(email: string, delay: Delay)
      requires !success
      modifies this`success, auth`isLoading, auth`error
      ensures !Submittable(email) ==> !success && unchanged(auth)
      ensures Submittable(email) ==> success
      ensures Submittable(email) ==>
        auth.error == if Auth.FindByEmail(email).None? then Some("E-mail não encontrado")
                      else if delay.Resolves? then None
                      else Some(RejectionMessage(delay, "Erro ao processar recuperação de senha"))
    {
      if !Submittable(email) {
        return;
      }
      auth.ForgotPassword(email, delay);
      success := true;
    }
  }
}
