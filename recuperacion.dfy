/** The password-recovery screen: three steps (e-mail, code, new password), each shown by the two
    step flags and advanced by its own handler. */
module Recuperacion {
  import opened Common
  import opened Validation

  const EmailMissing := "Por favor, ingresa un correo electrónico."
  const EmailMalformed := "Ingresa un correo electrónico válido."
  const CodeSent := "Se ha enviado un código de recuperación al correo ingresado correo."
  const CodeNotSent := "No se ha podido mandar el codigo de recuperación."
  const CodeMissing := "Por favor, ingresa el código de recuperación."
  const CodeRejected := "Codigo incorrecto"
  const PasswordMissing := "Escribe la contraseña nueva y asegurate de que tenga al menos 6 caracteres"
  const PasswordChanged := "Contraseña cambiada correctamente"
  const PasswordNotChanged := "No se ha podido cambiar la contraseña"

  /** The two step flags. */
  datatype Steps = Steps(showCodeInput: bool, showPasswordInput: bool)

  const Start := Steps(false, false)

  /** Which form the screen shows. */
  predicate EmailFormShown(s: Steps) { !s.showCodeInput && !s.showPasswordInput }
  predicate CodeFormShown(s: Steps) { s.showCodeInput }
  predicate PasswordFormShown(s: Steps) { s.showPasswordInput }

  /** A press of one of the three buttons, with the reply its request gets. */
  datatype Press =
    | Send(email: string, sendOk: bool)
    | Verify(code: string, verifyOk: bool)
    | Change(password: string, changeOk: bool)

  /** A button can be pressed only while its form is shown. */
  predicate Enabled(s: Steps, p: Press) {
    match p
    case Send(_, _) => EmailFormShown(s)
    case Verify(_, _) => CodeFormShown(s)
    case Change(_, _) => PasswordFormShown(s)
  }

  /** The step flags after one press. Sending to a well-formed address shows the code form before
      the request, whatever its reply; a verified code swaps the code form for the password form;
      changing the password leaves the flags alone. */
  function Next(s: Steps, p: Press): (t: Steps)
    ensures p.Send? ==> (t != s <==> p.email != "" && IsEmail(p.email) && !s.showCodeInput)
    ensures p.Verify? ==> (t != s <==> p.code != "" && p.verifyOk && (s.showCodeInput || !s.showPasswordInput))
    ensures p.Change? ==> t == s
  {
    match p
    case Send(email, _) =>
      if email == "" || !IsEmail(email) then s else s.(showCodeInput := true)
    case Verify(code, ok) =>
      if code == "" || !ok then s else Steps(false, true)
    case Change(_, _) => s
  }

  /** The flags after a run of presses. */
  function Run(s: Steps, presses: seq<Press>): Steps
    decreases |presses|
  {
    if presses == [] then s else Run(Next(s, presses[0]), presses[1..])
  }

  /** A run of presses on shown buttons. */
  predicate EnabledRun(s: Steps, presses: seq<Press>)
    decreases |presses|
  {
    presses == [] || (Enabled(s, presses[0]) && EnabledRun(Next(s, presses[0]), presses[1..]))
  }

  /** The flags never show the code and password forms together. */
  predicate OneStep(s: Steps) {
    !(s.showCodeInput && s.showPasswordInput)
  }

  /** Pressing only shown buttons, from flags that show one step (the start does), the screen
      always shows one step: the code and password forms never show together. Once the password
      form shows, it stays. */
  lemma {:induction false} StepsStayApart(s: Steps, presses: seq<Press>)
    requires OneStep(s)
    requires EnabledRun(s, presses)
    ensures OneStep(Run(s, presses))
    ensures s.showPasswordInput ==> Run(s, presses).showPasswordInput
    decreases |presses|
  {
    if presses != [] {
      StepsStayApart(Next(s, presses[0]), presses[1..]);
    }
  }

  /** The screen's state cells. */
  class Recovery {
    var email: string
    var code: string
    var password: string
    var showCodeInput: bool
    var showPasswordInput: bool
    var recoveryToken: Option<string>

    function Flags(): Steps
      reads this
    {
      Steps(showCodeInput, showPasswordInput)
    }

    constructor ()
      ensures Flags() == Start && recoveryToken == Some("")
      ensures email == "" && code == "" && password == ""
    {
      email := "";
      code := "";
      password := "";
      showCodeInput := false;
      showPasswordInput := false;
      recoveryToken := Some("");
    }

    /** `handleEnviar`, given the reply of the recovery-mail request (the token field of its body,
        or the failure). An empty or malformed address raises an alert and changes nothing; a
        well-formed one shows the code form first, and a successful reply stores its token. */
    method HandleEnviar(reply: Reply<Option<string>>) returns (alert: string)
      modifies this
      ensures email == old(email) && code == old(code) && password == old(password)
      ensures Flags() == Next(old(Flags()), Send(email, reply.Ok?))
      ensures email == "" ==> alert == EmailMissing && recoveryToken == old(recoveryToken)
      ensures email != "" && !IsEmail(email) ==> alert == EmailMalformed && recoveryToken == old(recoveryToken)
      ensures email != "" && IsEmail(email) ==> showCodeInput
      ensures email != "" && IsEmail(email) && reply.Ok? ==> alert == CodeSent && recoveryToken == reply.data
      ensures email != "" && IsEmail(email) && !reply.Ok? ==> alert == CodeNotSent && recoveryToken == old(recoveryToken)
    {
      if email == "" {
        return EmailMissing;
      }
      if !IsEmail(email) {
        return EmailMalformed;
      }
      showCodeInput := true;
      if reply.Ok? {
        alert := CodeSent;
        recoveryToken := reply.data;
        showCodeInput := true;
      } else {
        alert := CodeNotSent;
      }
    }

    /** `handleVerificarCode`, given whether the server accepted the code. An empty code raises an
        alert and sends nothing; an accepted code moves to the password step. */
    method HandleVerificarCode(accepted: bool) returns (alert: Option<string>)
      modifies this
      ensures email == old(email) && code == old(code) && password == old(password)
      ensures recoveryToken == old(recoveryToken)
      ensures Flags() == Next(old(Flags()), Verify(code, accepted))
      ensures code == "" ==> alert == Some(CodeMissing)
      ensures code != "" && accepted ==> alert == None && showPasswordInput && !showCodeInput
      ensures code != "" && !accepted ==> alert == Some(CodeRejected)
    {
      if code == "" {
        return Some(CodeMissing);
      }
      if accepted {
        showPasswordInput := true;
        showCodeInput := false;
        alert := None;
      } else {
        alert := Some(CodeRejected);
      }
    }

    /** `changePassword`, given whether the server accepted the new password. Only an empty
        password is refused before the request (the alert speaks of six characters, the check does
        not); success goes back to the sign-in screen. */
    method ChangePassword(accepted: bool) returns (alert: string, navigateTo: Option<string>)
      ensures password == "" ==> alert == PasswordMissing && navigateTo == None
      ensures password != "" && accepted ==> alert == PasswordChanged && navigateTo == Some("Inicio")
      ensures password != "" && !accepted ==> alert == PasswordNotChanged && navigateTo == None
    {
      if password == "" {
        return PasswordMissing, None;
      }
      if accepted {
        alert, navigateTo := PasswordChanged, Some("Inicio");
      } else {
        alert, navigateTo := PasswordNotChanged, None;
      }
    }
  }
}
