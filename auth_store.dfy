/** The authentication store (src/store/authStore.ts), a mock: accounts are
    the seed users, passwords are never checked, and no operation throws —
    failures are left in `error` for the pages to show. */
module Auth {
  import opened Wrappers
  import opened Types
  import Seqs
  import MockData

  /** The selection `user => user.email === email`. */
  function EmailIs(email: string): User -> bool {
    (u: User) => u.email == email
  }

  /** `mockUsers.find(user => user.email === email)`. */
  function FindByEmail(email: string): Option<User> {
    Seqs.Find(MockData.Users, EmailIs(email))
  }

  /** The account `register` creates: the id after the seed users, the
      given contact data, no photo, no points, no badges. */
  function NewAccount(name: string, email: string, phone: string, now: Time): User {
    User(IdOf(|MockData.Users| + 1), name, email, Some(phone), None, 0, [], now)
  }

  /** Each seed user is found by their own e-mail, since no two seed users
      share one. */
  lemma SeedEmailsFind(i: nat)
    requires i < |MockData.Users|
    ensures FindByEmail(MockData.Users[i].email) == Some(MockData.Users[i])
  {
    var us := MockData.Users;
    assert us[0].email[0] == 'j' && us[1].email[0] == 'r' && us[2].email[0] == 'c';
  }

  /** The id of a registered account, '4', belongs to no seed user. */
  lemma NewAccountIdFresh(name: string, email: string, phone: string, now: Time)
    ensures NewAccount(name, email, phone, now).id == "4"
    ensures forall i :: 0 <= i < |MockData.Users| ==> MockData.Users[i].id != NewAccount(name, email, phone, now).id
  {
    assert IdOf(4) == "4";
  }

  class AuthStore {
    var user: Option<User>
    var isLoading: bool
    var error: Option<string>
    var isAuthenticated: bool

    /** The flag says whether somebody is logged in. */
    ghost predicate Valid()
      reads this`user, this`isAuthenticated
    {
      isAuthenticated <==> user.Some?
    }

    constructor ()
      ensures user == None && !isAuthenticated && !isLoading && error == None
      ensures Valid()
    {
      user, isAuthenticated := None, false;
      isLoading, error := false, None;
    }

    /** `login`: the seed user with that e-mail, whatever the password; the
        lookup is answered after the simulated delay. */
    method Login(email: string, password: string, delay: Delay)
      requires Valid()
      modifies this
      ensures Valid() && !isLoading
      ensures delay.Resolves? && FindByEmail(email).Some? ==>
        user == FindByEmail(email) && isAuthenticated && error == None
      ensures delay.Resolves? && FindByEmail(email).None? ==>
        user == old(user) && error == Some("Usuário ou senha incorretos")
      ensures !delay.Resolves? ==>
        user == old(user) && error == Some(RejectionMessage(delay, "Erro durante login"))
    {
      isLoading, error := true, None;
      var response := FindByEmail(email);
      if !delay.Resolves? {
        error, isLoading := Some(RejectionMessage(delay, "Erro durante login")), false;
        return;
      }
      if response.None? {
        error, isLoading := Some("Usuário ou senha incorretos"), false;
        return;
      }
      user, isAuthenticated, isLoading := response, true, false;
    }

    /** `loginWithGoogle`: always the first seed user. */
    method LoginWithGoogle(delay: Delay)
      requires Valid()
      modifies this
      ensures Valid() && !isLoading
      ensures delay.Resolves? ==> user == Some(MockData.Juliana) && isAuthenticated && error == None
      ensures !delay.Resolves? ==>
        user == old(user) && error == Some(RejectionMessage(delay, "Erro durante login com Google"))
    {
      isLoading, error := true, None;
      if delay.Resolves? {
        user, isAuthenticated, isLoading := Some(MockData.Users[0]), true, false;
      } else {
        error, isLoading := Some(RejectionMessage(delay, "Erro durante login com Google")), false;
      }
    }

    /** `register`: refuse an e-mail a seed user has; otherwise log the new
        account in. The account is not added anywhere, so the same e-mail
        can be registered again. */
    method Register(name: string, email: string, phone: string, password: string, now: Time, delay: Delay)
      requires Valid()
      modifies this
      ensures Valid() && !isLoading
      ensures FindByEmail(email).Some? ==>
        user == old(user) && error == Some("Este e-mail já está registrado")
      ensures FindByEmail(email).None? && delay.Resolves? ==>
        user == Some(NewAccount(name, email, phone, now)) && isAuthenticated && error == None
      ensures FindByEmail(email).None? && !delay.Resolves? ==>
        user == old(user) && error == Some(RejectionMessage(delay, "Erro durante o registro"))
    {
      isLoading, error := true, None;
      if FindByEmail(email).Some? {
        error, isLoading := Some("Este e-mail já está registrado"), false;
        return;
      }
      var newUser := User(IdOf(|MockData.Users| + 1), name, email, Some(phone), None, 0, [], now);
      if delay.Resolves? {
        user, isAuthenticated, isLoading := Some(newUser), true, false;
      } else {
        error, isLoading := Some(RejectionMessage(delay, "Erro durante o registro")), false;
      }
    }

    /** `logout`: forget the user; loading and error are left as they are. */
    method Logout()
      modifies this`user, this`isAuthenticated
      ensures user == None && !isAuthenticated && Valid()
    {
      user, isAuthenticated := None, false;
    }

    /** `forgotPassword`: only checks that a seed user has the e-mail. */
    method ForgotPassword(email: string, delay: Delay)
      modifies this`isLoading, this`error
      ensures !isLoading
      ensures error == if FindByEmail(email).None? then Some("E-mail não encontrado")
                       else if delay.Resolves? then None
                       else Some(RejectionMessage(delay, "Erro ao processar recuperação de senha"))
    {
      isLoading, error := true, None;
      if FindByEmail(email).None? {
        error, isLoading := Some("E-mail não encontrado"), false;
        return;
      }
      if delay.Resolves? {
        isLoading := false;
      } else {
        error, isLoading := Some(RejectionMessage(delay, "Erro ao processar recuperação de senha")), false;
      }
    }

    /** `resetPassword`: accepts any token and any password. */
    method ResetPassword(token: string, newPassword: string, delay: Delay)
      modifies this`isLoading, this`error
      ensures !isLoading
      ensures error == if delay.Resolves? then None else Some(RejectionMessage(delay, "Erro ao redefinir senha"))
    {
      isLoading, error := true, None;
      if delay.Resolves? {
        isLoading := false;
      } else {
        error, isLoading := Some(RejectionMessage(delay, "Erro ao redefinir senha")), false;
      }
    }
  }
}
