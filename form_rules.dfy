/** The field rules of the authentication forms (src/pages/auth/RegisterPage.tsx,
    ForgotPasswordPage.tsx, ResetPasswordPage.tsx), checked the way
    react-hook-form checks a registered text field: `required` fails only on
    the empty string, `minLength` and `pattern` are skipped for the empty
    string, `validate` always runs, and the first failing rule's message is
    the field's error. */
module FormRules {
  import opened Wrappers
  import Strings

  datatype Rule =
    | Required(message: string)
    | MinLength(min: nat, message: string)
    | Pattern(matches: string -> bool, message: string)
    | Validate(ok: string -> bool, message: string)

  predicate Passes(rule: Rule, value: string) {
    match rule
    case Required(_) => value != ""
    case MinLength(n, _) => value == "" || |value| >= n
    case Pattern(p, _) => value == "" || p(value)
    case Validate(ok, _) => ok(value)
  }

  /** The error shown under the field: the message of the first rule the
      value breaks, or none when it keeps them all. */
  function FirstError(value: string, rules: seq<Rule>): (r: Option<string>)
    ensures r.None? <==> forall i :: 0 <= i < |rules| ==> Passes(rules[i], value)
    ensures r.Some? ==>
      exists i :: && 0 <= i < |rules| && !Passes(rules[i], value) && r.value == rules[i].message
                  && (forall j :: 0 <= j < i ==> Passes(rules[j], value))
    decreases |rules|
  {
    if rules == [] then None
    else if !Passes(rules[0], value) then Some(rules[0].message)
    else
      var rest := FirstError(value, rules[1..]);
      if rest.Some? then
        ghost var i :| 0 <= i < |rules| - 1 && !Passes(rules[1..][i], value)
          && rest.value == rules[1..][i].message && forall j :: 0 <= j < i ==> Passes(rules[1..][j], value);
        assert !Passes(rules[i + 1], value) && forall j :: 0 <= j < i + 1 ==> Passes(rules[j], value);
        rest
      else rest
  }

  /** One run of `[^\s@]+`: non-empty, without whitespace or '@'. */
  predicate Plain(s: string) {
    s != [] && forall i :: 0 <= i < |s| ==> !Strings.IsWhitespace(s[i]) && s[i] != '@'
  }

  /** The e-mail pattern `^[^\s@]+@[^\s@]+\.[^\s@]+$`, as the ways of cutting
      the value into its four parts. */
  predicate EmailPattern(s: string) {
    exists i, j | 0 <= i < j < |s| :: CutAt(s, i, j)
  }

  /** The cut of a matching value: '@' at `i`, '.' at `j`, runs in between. */
  predicate CutAt(s: string, i: int, j: int) {
    0 <= i < j < |s| && s[i] == '@' && s[j] == '.'
    && Plain(s[..i]) && Plain(s[i + 1..j]) && Plain(s[j + 1..])
  }

  /** What the pattern means: no whitespace, exactly one '@', something
      before it, and a '.' in the domain that is neither its first nor its
      last character. */
  ghost predicate EmailShape(s: string) {
    && Strings.NoWhitespace(s)
    && exists a, k :: 0 < a && a + 1 < k < |s| - 1 && s[a] == '@' && s[k] == '.'
         && '@' !in s[..a] && '@' !in s[a + 1..]
  }

  lemma NoWhitespaceSlice(s: string, lo: int, hi: int)
    requires Strings.NoWhitespace(s) && 0 <= lo <= hi <= |s|
    ensures Strings.NoWhitespace(s[lo..hi])
  {
    var t := s[lo..hi];
    forall n | 0 <= n < |t|
      ensures !Strings.IsWhitespace(t[n])
    {
      assert t[n] == s[lo + n];
    }
  }

  lemma NotInSlice(t: string, c: char, lo: int, hi: int)
    requires c !in t && 0 <= lo <= hi <= |t|
    ensures c !in t[lo..hi]
  {
    var u := t[lo..hi];
    forall n | 0 <= n < |u|
      ensures u[n] != c
    {
      assert u[n] == t[lo + n];
    }
  }

  /** A run of the pattern has no whitespace and no '@'. */
  lemma PlainParts(t: string)
    requires Plain(t)
    ensures Strings.NoWhitespace(t) && '@' !in t
  {
  }

  lemma CutNoWhitespace(s: string, i: int, j: int)
    requires CutAt(s, i, j)
    ensures Strings.NoWhitespace(s)
  {
    forall n | 0 <= n < |s|
      ensures !Strings.IsWhitespace(s[n])
    {
      if n < i {
        assert s[n] == s[..i][n];
      } else if i < n < j {
        assert s[n] == s[i + 1..j][n - i - 1];
      } else if j < n {
        assert s[n] == s[j + 1..][n - j - 1];
      }
    }
  }

  lemma CutSingleAt(s: string, i: int, j: int)
    requires CutAt(s, i, j)
    ensures '@' !in s[..i] && '@' !in s[i + 1..]
  {
    PlainParts(s[..i]);
    PlainParts(s[i + 1..j]);
    PlainParts(s[j + 1..]);
    assert s[i + 1..] == s[i + 1..j] + [s[j]] + s[j + 1..];
  }

  lemma PatternHasShape(s: string)
    requires EmailPattern(s)
    ensures EmailShape(s)
  {
    var i, j :| 0 <= i < j < |s| && CutAt(s, i, j);
    CutNoWhitespace(s, i, j);
    CutSingleAt(s, i, j);
    assert 0 < i && i + 1 < j < |s| - 1;
  }

  lemma PlainFrom(t: string)
    requires t != [] && Strings.NoWhitespace(t) && '@' !in t
    ensures Plain(t)
  {
  }

  /** In a value of the accepted shape the single '@' and the '.' cut it. */
  lemma ShapeCut(s: string, a: int, k: int)
    requires Strings.NoWhitespace(s)
    requires 0 < a && a + 1 < k < |s| - 1 && s[a] == '@' && s[k] == '.'
    requires '@' !in s[..a] && '@' !in s[a + 1..]
    ensures CutAt(s, a, k)
  {
    var domain := s[a + 1..];
    assert s[..a] == s[0..a] && s[k + 1..] == s[k + 1..|s|];
    NoWhitespaceSlice(s, 0, a);
    NoWhitespaceSlice(s, a + 1, k);
    NoWhitespaceSlice(s, k + 1, |s|);
    NotInSlice(domain, '@', 0, k - a - 1);
    assert domain[0..k - a - 1] == s[a + 1..k];
    NotInSlice(domain, '@', k - a, |domain|);
    assert domain[k - a..|domain|] == s[k + 1..];
    PlainFrom(s[..a]);
    PlainFrom(s[a + 1..k]);
    PlainFrom(s[k + 1..]);
  }

  lemma ShapeMatchesPattern(s: string)
    requires EmailShape(s)
    ensures EmailPattern(s)
  {
    var a, k :| 0 < a && a + 1 < k < |s| - 1 && s[a] == '@' && s[k] == '.'
      && '@' !in s[..a] && '@' !in s[a + 1..];
    ShapeCut(s, a, k);
  }

  lemma EmailPatternMeans(s: string)
    ensures EmailPattern(s) <==> EmailShape(s)
  {
    if EmailPattern(s) {
      PatternHasShape(s);
    }
    if EmailShape(s) {
      ShapeMatchesPattern(s);
    }
  }

  const NameRules := [Required("Nome é obrigatório"),
                      MinLength(3, "Nome deve ter pelo menos 3 caracteres")]
  const EmailRules := [Required("E-mail é obrigatório"), Pattern(EmailPattern, "E-mail inválido")]
  const PhoneRules := [Required("Telefone é obrigatório")]

  /** The password rules; the pages differ only in the required message. */
  function PasswordRules(requiredMessage: string): seq<Rule> {
    [Required(requiredMessage), MinLength(6, "A senha deve ter pelo menos 6 caracteres")]
  }

  /** The confirmation must repeat the password currently typed. */
  function ConfirmRules(password: string): seq<Rule> {
    [Required("Confirmação de senha é obrigatória"),
     Validate((v: string) => v == password, "As senhas não coincidem")]
  }

  /** A name is accepted iff it has three or more characters; the empty name
      gets the required message, a shorter one the length message. */
  lemma NameAccepted(name: string)
    ensures FirstError(name, NameRules).None? <==> |name| >= 3
    ensures name == "" ==> FirstError(name, NameRules) == Some(NameRules[0].message)
    ensures 0 < |name| < 3 ==> FirstError(name, NameRules) == Some(NameRules[1].message)
  {
    assert Passes(NameRules[0], name) <==> name != "";
  }

  /** An e-mail is accepted iff it has the shape the pattern describes; the
      empty one gets the required message, any other rejected one "E-mail inválido". */
  lemma EmailAccepted(email: string)
    ensures FirstError(email, EmailRules).None? <==> EmailShape(email)
    ensures email == "" ==> FirstError(email, EmailRules) == Some(EmailRules[0].message)
    ensures email != "" && !EmailShape(email) ==> FirstError(email, EmailRules) == Some(EmailRules[1].message)
  {
    EmailPatternMeans(email);
    assert Passes(EmailRules[0], email) <==> email != "";
    assert Passes(EmailRules[1], email) <==> email == "" || EmailPattern(email);
  }

  /** A phone is accepted iff it is not empty. */
  lemma PhoneAccepted(phone: string)
    ensures FirstError(phone, PhoneRules).None? <==> phone != ""
  {
    assert Passes(PhoneRules[0], phone) <==> phone != "";
  }

  /** A password is accepted iff it has six or more characters. */
  lemma PasswordAccepted(requiredMessage: string, password: string)
    ensures FirstError(password, PasswordRules(requiredMessage)).None? <==> |password| >= 6
    ensures password == "" ==> FirstError(password, PasswordRules(requiredMessage)) == Some(requiredMessage)
  {
    assert Passes(PasswordRules(requiredMessage)[0], password) <==> password != "";
  }

  /** A confirmation is accepted iff it is not empty and equals the password. */
  lemma ConfirmAccepted(password: string, confirm: string)
    ensures FirstError(confirm, ConfirmRules(password)).None? <==> confirm != "" && confirm == password
    ensures confirm != "" && confirm != password ==>
      FirstError(confirm, ConfirmRules(password)) == Some("As senhas não coincidem")
  {
    var rules := ConfirmRules(password);
    assert Passes(rules[0], confirm) <==> confirm != "";
    assert Passes(rules[1], confirm) <==> confirm == password;
  }
}
