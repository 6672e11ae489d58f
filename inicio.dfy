/** The sign-in screen: the ordered checks on the e-mail and password fields, and what a reply
    from the sign-in endpoint does to the session and to the screen shown next. */
module Inicio {
  import opened Common
  import opened Text
  import opened Validation
  import opened Auth

  const EmailRequired := "El correo electrónico es obligatorio"
  const EmailMalformed := "Ingrese un correo electrónico válido"
  const PasswordRequired := "La contraseña es obligatoria"
  const PasswordTooShort := "La contraseña debe tener al menos 6 caracteres"
  const InvalidCredentials := "Credenciales inválidas"

  /** `!value.trim()`: the field holds nothing but white space. */
  predicate Missing(value: string) {
    Trim(value) == ""
  }

  /** JavaScript's `length`: UTF-16 code units, two for a character above U+FFFF. */
  function Utf16Length(s: string): (n: nat)
    ensures |s| <= n <= 2 * |s|
    ensures n == |s| <==> forall k :: 0 <= k < |s| ==> s[k] <= '\U{FFFF}'
  {
    if s == [] then 0
    else (if s[0] > '\U{FFFF}' then 2 else 1) + Utf16Length(s[1..])
  }

  /** `validatePassword`: at least six UTF-16 units, white space included. */
  predicate ValidPassword(password: string) {
    Utf16Length(password) >= 6
  }

  /** Three characters above U+FFFF make a password of length six, which passes. */
  lemma ThreeAstralCharactersPass()
    ensures |"\U{1F600}\U{1F600}\U{1F600}"| == 3 && ValidPassword("\U{1F600}\U{1F600}\U{1F600}")
  {
  }

  /** The first check that fails, with the field it is reported under. */
  datatype Failure = EmailProblem(message: string) | PasswordProblem(message: string)

  /** The four checks of `handleLogin`, in order; the first failure stops the rest. */
  function FirstFailure(email: string, password: string): Option<Failure> {
    if Missing(email) then Some(EmailProblem(EmailRequired))
    else if !IsEmail(email) then Some(EmailProblem(EmailMalformed))
    else if Missing(password) then Some(PasswordProblem(PasswordRequired))
    else if !ValidPassword(password) then Some(PasswordProblem(PasswordTooShort))
    else None
  }

  /** The form passes exactly when the e-mail is well formed and the password is not blank and has
      at least six characters: the blank e-mail test only picks the message, since a well-formed
      address is never blank. */
  lemma PassesIff(email: string, password: string)
    ensures FirstFailure(email, password) == None <==>
              IsEmail(email) && ValidPassword(password) && exists k :: 0 <= k < |password| && !IsSpace(password[k])
  {
    TrimEmptyIffBlank(email);
    TrimEmptyIffBlank(password);
    if IsEmail(email) {
      var at := IndexOf(email, '@');
      assert !IsSpace(email[at + 1]);
    }
  }

  /** White space alone counts as a missing value: an e-mail made only of spaces is reported as
      missing, and with a good e-mail, so is such a password, even one of six or more spaces. */
  lemma BlankIsMissing(email: string, password: string)
    ensures (forall k :: 0 <= k < |email| ==> IsSpace(email[k])) ==>
              FirstFailure(email, password) == Some(EmailProblem(EmailRequired))
    ensures IsEmail(email) && (forall k :: 0 <= k < |password| ==> IsSpace(password[k])) ==>
              FirstFailure(email, password) == Some(PasswordProblem(PasswordRequired))
  {
    TrimEmptyIffBlank(email);
    TrimEmptyIffBlank(password);
    if IsEmail(email) {
      var at := IndexOf(email, '@');
      assert !IsSpace(email[at + 1]);
    }
  }

  /** The body of a reply from the sign-in endpoint: `token` and `role` may be missing. */
  datatype LoginData = LoginData(token: Option<string>, role: Option<string>)

  /** What the screen does once the form passes. */
  datatype Outcome =
    | Invalid                     // a check failed: the field error is shown, nothing is sent
    | AuthError(message: string)  // the endpoint refused: alert
    | MissingToken                // accepted without a token: alert
    | ConnectionError             // the request or the body parse threw: alert
    | Navigate(screen: string)    // signed in: the next screen

  /** The screen a signed-in role is sent to. */
  function HomeFor(role: Option<string>): string {
    if role == Some("Checador") then "Checador" else "Eventos"
  }

  /** The outcome of one attempt. */
  function Attempt(email: string, password: string, reply: Reply<LoginData>): (r: Outcome)
    ensures FirstFailure(email, password).Some? <==> r == Invalid
    ensures r.Navigate? <==> FirstFailure(email, password) == None && reply.Ok? && Truthy(reply.data.token)
    ensures r.Navigate? ==> (r.screen == "Checador" <==> reply.data.role == Some("Checador"))
    ensures r.Navigate? ==> r.screen in {"Checador", "Eventos"}
    ensures r.AuthError? ==> r.message != ""
  {
    if FirstFailure(email, password).Some? then Invalid
    else match reply
      case NotOk(message) => AuthError(Or(message, InvalidCredentials))
      case Threw(_) => ConnectionError
      case Ok(data) => if Truthy(data.token) then Navigate(HomeFor(data.role)) else MissingToken
  }

  /** The session after one attempt: only an accepted reply carrying a token signs in, with the
      token and role of the reply and no user id (the screen passes two arguments to `login`). */
  function SessionAfter(s: SessionState, email: string, password: string, reply: Reply<LoginData>): SessionState {
    if Attempt(email, password, reply).Navigate?
    then Provider(s, Login(reply.data.token, reply.data.role, None))
    else s
  }

  /** The session changes only through an accepted reply carrying a token, and an attempt that
      navigates always leaves a session whose token is truthy and whose user id is null. */
  lemma SignsInOnlyWithToken(s: SessionState, email: string, password: string, reply: Reply<LoginData>)
    ensures SessionAfter(s, email, password, reply) != s ==>
              FirstFailure(email, password) == None && reply.Ok? && Truthy(reply.data.token)
    ensures Attempt(email, password, reply).Navigate? ==>
              var t := SessionAfter(s, email, password, reply);
              Truthy(t.token) && t.userRole == reply.data.role && t.userId == None
  {
  }

  /** The sign-in form's state cells. */
  class LoginForm {
    var email: string
    var password: string
    var emailError: string
    var passwordError: string

    constructor ()
      ensures email == "" && password == "" && emailError == "" && passwordError == ""
    {
      email := "";
      password := "";
      emailError := "";
      passwordError := "";
    }

    /** The checks at the head of `handleLogin`: both errors are cleared, then the first failed
        check sets its own error and nothing else. */
    method Validate() returns (ok: bool)
      modifies this
      ensures email == old(email) && password == old(password)
      ensures ok <==> FirstFailure(email, password) == None
      ensures match FirstFailure(email, password)
              case Some(EmailProblem(m)) => emailError == m && passwordError == ""
              case Some(PasswordProblem(m)) => emailError == "" && passwordError == m
              case None => emailError == "" && passwordError == ""
    {
      emailError := "";
      passwordError := "";
      if Missing(email) {
        emailError := EmailRequired;
        return false;
      }
      if !IsEmail(email) {
        emailError := EmailMalformed;
        return false;
      }
      if Missing(password) {
        passwordError := PasswordRequired;
        return false;
      }
      if !ValidPassword(password) {
        passwordError := PasswordTooShort;
        return false;
      }
      return true;
    }

    /** `handleLogin`, given the reply the request would get: the checks first, and only when they
        pass does the reply decide the outcome and whether the session is signed in. */
    method HandleLogin(session: Session, reply: Reply<LoginData>) returns (outcome: Outcome)
      modifies this, session
      ensures email == old(email) && password == old(password)
      ensures outcome == Attempt(email, password, reply)
      ensures session.State() == SessionAfter(old(session.State()), email, password, reply)
      ensures match FirstFailure(email, password)
              case Some(EmailProblem(m)) => emailError == m && passwordError == ""
              case Some(PasswordProblem(m)) => emailError == "" && passwordError == m
              case None => emailError == "" && passwordError == ""
    {
      var ok := Validate();
      if !ok {
        return Invalid;
      }
      match reply {
        case NotOk(message) =>
          outcome := AuthError(Or(message, InvalidCredentials));
        case Threw(_) =>
          outcome := ConnectionError;
        case Ok(data) =>
          if Truthy(data.token) {
            session.Login(data.token, data.role, None);
            if data.role == Some("Checador") {
              outcome := Navigate("Checador");
            } else {
              outcome := Navigate("Eventos");
            }
          } else {
            outcome := MissingToken;
          }
      }
    }
  }
}
