/** The registration page (src/pages/auth/RegisterPage.tsx): five checked
    fields, then the store's `register`, then the dashboard. */
module RegisterPage {
  import opened Wrappers
  import opened Types
  import FormRules
  import Auth
  import MockData

  /** The form values; the phone as the field holds it, already formatted. */
  datatype RegisterForm = RegisterForm(name: string, email: string, phone: string,
                                       password: string, confirmPassword: string)

  const PasswordRequired := "Senha é obrigatória"

  /** A form every rule accepts: a name of three or more characters, an
      e-mail of the accepted shape, a phone, a password of six or more
      characters and a confirmation equal to it. */
  ghost predicate Acceptable(f: RegisterForm) {
    && |f.name| >= 3 && FormRules.EmailShape(f.email) && f.phone != ""
    && |f.password| >= 6 && f.confirmPassword == f.password
  }

  /** `handleSubmit` calls `onSubmit` only when no field has an error. */
  function Submittable(f: RegisterForm): (r: bool)
    ensures r <==> Acceptable(f)
  {
    FormRules.NameAccepted(f.name);
    FormRules.EmailAccepted(f.email);
    FormRules.PhoneAccepted(f.phone);
    FormRules.PasswordAccepted(PasswordRequired, f.password);
    FormRules.ConfirmAccepted(f.password, f.confirmPassword);
    && FormRules.FirstError(f.name, FormRules.NameRules).None?
    && FormRules.FirstError(f.email, FormRules.EmailRules).None?
    && FormRules.FirstError(f.phone, FormRules.PhoneRules).None?
    && FormRules.FirstError(f.password, FormRules.PasswordRules(PasswordRequired)).None?
    && FormRules.FirstError(f.confirmPassword, FormRules.ConfirmRules(f.password)).None?
  }

  /** The page keeps where it navigated; the error alert shows the store's `error`. */
  class RegistrationPage {
    const auth: Auth.AuthStore
    var navigatedTo: Option<string>

    constructor (auth: Auth.AuthStore)
      ensures this.auth == auth && navigatedTo == None
    {
      this.auth := auth;
      navigatedTo := None;
    }

    /** `onSubmit`: the store never throws, so the page goes to the dashboard
        once `register` is done, also when the store refused the e-mail or
        failed. */
    method Submit(f: RegisterForm, now: Time, delay: Delay)
      requires auth.Valid()
      modifies this`navigatedTo, auth
      ensures !Acceptable(f) ==> navigatedTo == old(navigatedTo) && unchanged(auth)
      ensures Acceptable(f) ==> navigatedTo == Some("/dashboard")
      ensures Acceptable(f) ==> var known := Auth.FindByEmail(f.email).Some?;
        && (known ==> auth.user == old(auth.user) && auth.error == Some("Este e-mail já está registrado"))
        && (!known && delay.Resolves? ==>
              auth.user == Some(Auth.NewAccount(f.name, f.email, f.phone, now)) && auth.isAuthenticated
              && auth.error == None)
        && (!known && !delay.Resolves? ==>
              auth.user == old(auth.user) && auth.error == Some(RejectionMessage(delay, "Erro durante o registro")))
      ensures auth.Valid()
    {
      if !Submittable(f) {
        return;
      }
      auth.Register(f.name, f.email, f.phone, f.password, now, delay);
      navigatedTo := Some("/dashboard");
    }

    /** `handleGoogleRegister`: log in as the Google account, then the dashboard. */
    method GoogleRegister(delay: Delay)
      requires auth.Valid()
      modifies this`navigatedTo, auth
      ensures navigatedTo == Some("/dashboard")
      ensures delay.Resolves? ==> auth.user == Some(MockData.Juliana) && auth.isAuthenticated && auth.error == None
      ensures !delay.Resolves? ==>
        auth.user == old(auth.user) && auth.error == Some(RejectionMessage(delay, "Erro durante login com Google"))
      ensures auth.Valid()
    {
      auth.LoginWithGoogle(delay);
      navigatedTo := Some("/dashboard");
    }
  }
}
