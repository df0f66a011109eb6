/**
 * The sign-in and sign-up page (src/app/acesso/page.tsx): one form for both modes, the ordered
 * validation that runs before the authentication service is called, the mapping of the
 * service's error messages to the texts shown, and the password-recovery guard. The service's
 * answers are parameters of the handlers; the delayed redirect is reported as an out-parameter.
 */
module Access {
  import opened Wrappers
  import opened Text

  /** The `type` of the banner: "" (nothing shown), "error" or "success". */
  datatype Tone = Plain | Error | Succeeded

  datatype Message = Message(tone: Tone, text: string)

  const NoMessage := Message(Plain, "")

  datatype AuthForm = AuthForm(email: string, password: string, confirmPassword: string, fullName: string)

  const EmptyForm := AuthForm("", "", "", "")

  /** The `name` attributes of the four inputs. */
  datatype FormField = Email | Password | ConfirmPassword | FullName

  const FillAllFields := "Por favor, preencha todos os campos obrigatórios."
  const InvalidEmail := "Por favor, insira um email válido."
  const ShortPassword := "A senha deve ter pelo menos 6 caracteres."
  const MissingName := "Por favor, insira seu nome completo."
  const PasswordMismatch := "As senhas não coincidem."
  const WrongCredentials := "Email ou senha incorretos."
  const AlreadyRegistered := "Este email já está cadastrado."
  const LoginFailed := "Erro ao fazer login."
  const SignUpFailed := "Erro ao criar conta."
  const LoginSucceeded := "Login realizado com sucesso! Redirecionando..."
  const SignUpSucceeded := "Cadastro realizado! Verifique seu email para confirmar a conta."
  const EmailFirst := "Por favor, insira seu email primeiro."
  const RecoverySent := "Link de recuperação enviado para seu email!"
  const RecoveryFailed := "Erro ao enviar email de recuperação."

  const CredentialsMarker := "Invalid login credentials"
  const RegisteredMarker := "User already registered"

  /** The input named `field` reads `form[field]`. */
  function FieldText(form: AuthForm, field: FormField): string {
    match field
    case Email => form.email
    case Password => form.password
    case ConfirmPassword => form.confirmPassword
    case FullName => form.fullName
  }

  /** `{...prev, [name]: value}`: the named input now reads `value` and the other three are kept. */
  function SetField(form: AuthForm, field: FormField, value: string): (r: AuthForm)
    ensures FieldText(r, field) == value
    ensures forall k :: k != field ==> FieldText(r, k) == FieldText(form, k)
  {
    match field
    case Email => form.(email := value)
    case Password => form.(password := value)
    case ConfirmPassword => form.(confirmPassword := value)
    case FullName => form.(fullName := value)
  }

  /** A form is determined by what its four inputs read. */
  lemma {:induction false} FormByFields(a: AuthForm, b: AuthForm)
    requires forall k :: FieldText(a, k) == FieldText(b, k)
    ensures a == b
  {
    assert FieldText(a, Email) == FieldText(b, Email);
    assert FieldText(a, Password) == FieldText(b, Password);
    assert FieldText(a, ConfirmPassword) == FieldText(b, ConfirmPassword);
    assert FieldText(a, FullName) == FieldText(b, FullName);
  }

  // ---------------------------------------------------------------------------------------------
  // Validation

  /**
   * A match of `\S+@\S+\.\S+` with the `@` at index `at` and the `.` at index `dot`: a non-space
   * character before the `@`, a run of non-space characters between the two, and a non-space
   * character after the `.`.
   */
  predicate EmailShapeAt(s: string, at: int, dot: int) {
    && 1 <= at && at + 1 < dot && dot + 1 < |s|
    && s[at] == '@' && s[dot] == '.'
    && !IsSpace(s[at - 1]) && !IsSpace(s[dot + 1])
    && forall k :: at < k < dot ==> !IsSpace(s[k])
  }

  /** `/\S+@\S+\.\S+/.test(s)`: the pattern matches somewhere in `s`. */
  predicate LooksLikeEmail(s: string) {
    exists at, dot | 1 <= at && at + 1 < dot && dot + 1 < |s| :: EmailShapeAt(s, at, dot)
  }

  /** The first check of `validateForm` that fails, as the text it shows; None when all pass. */
  function ValidationError(form: AuthForm, isLogin: bool): Option<string> {
    if form.email == "" || form.password == "" then Some(FillAllFields)
    else if !LooksLikeEmail(form.email) then Some(InvalidEmail)
    else if |form.password| < 6 then Some(ShortPassword)
    else if !isLogin && form.fullName == "" then Some(MissingName)
    else if !isLogin && form.password != form.confirmPassword then Some(PasswordMismatch)
    else None
  }

  /** Every failing check, in the order `validateForm` runs them. */
  function FailingChecks(form: AuthForm, isLogin: bool): seq<string> {
    (if form.email == "" || form.password == "" then [FillAllFields] else [])
    + (if form.email != "" && !LooksLikeEmail(form.email) then [InvalidEmail] else [])
    + (if form.password != "" && |form.password| < 6 then [ShortPassword] else [])
    + (if !isLogin && form.fullName == "" then [MissingName] else [])
    + (if !isLogin && form.password != form.confirmPassword then [PasswordMismatch] else [])
  }

  /** The message shown is the first of the failing checks, and the form passes when none fails. */
  lemma ValidationReportsFirstFailure(form: AuthForm, isLogin: bool)
    ensures var failing := FailingChecks(form, isLogin);
      && (ValidationError(form, isLogin).None? <==> failing == [])
      && (failing != [] ==> ValidationError(form, isLogin) == Some(failing[0]))
  {
  }

  /** `validateForm` passes exactly when every guarded condition holds. */
  lemma ValidIff(form: AuthForm, isLogin: bool)
    ensures ValidationError(form, isLogin).None? <==>
      && form.email != "" && form.password != ""
      && LooksLikeEmail(form.email)
      && |form.password| >= 6
      && (!isLogin ==> form.fullName != "" && form.password == form.confirmPassword)
  {
  }

  /** An empty email or password is reported first, whatever else is wrong. */
  lemma EmptyFieldsReportedFirst(form: AuthForm, isLogin: bool)
    requires form.email == "" || form.password == ""
    ensures ValidationError(form, isLogin) == Some(FillAllFields)
  {
  }

  /** In login mode the name and the confirmation never change the outcome. */
  lemma LoginIgnoresSignUpFields(form: AuthForm, name: string, confirmation: string)
    ensures ValidationError(form, true) == ValidationError(form.(fullName := name, confirmPassword := confirmation), true)
  {
  }

  /** In sign-up mode a missing name is reported before a mismatched confirmation. */
  lemma NameBeforeMismatch(form: AuthForm)
    requires ValidationError(form, true).None?
    requires form.fullName == "" && form.password != form.confirmPassword
    ensures ValidationError(form, false) == Some(MissingName)
  {
  }

  /** A form that passes has an email with an `@` followed later by a `.`, and at least 5 characters. */
  lemma ValidEmailShape(form: AuthForm, isLogin: bool)
    requires ValidationError(form, isLogin).None?
    ensures |form.email| >= 5
    ensures exists at, dot :: 0 <= at < dot < |form.email| && form.email[at] == '@' && form.email[dot] == '.'
  {
    var at, dot :| 1 <= at && at + 1 < dot && dot + 1 < |form.email| && EmailShapeAt(form.email, at, dot);
  }

  /** A plain address passes the email check; one with a space inside the domain part does not. */
  lemma EmailExamples()
    ensures LooksLikeEmail("a@b.c")
    ensures !LooksLikeEmail("a@ .c")
  {
    assert EmailShapeAt("a@b.c", 1, 3);
    forall at, dot | 1 <= at && at + 1 < dot && dot + 1 < |"a@ .c"|
      ensures !EmailShapeAt("a@ .c", at, dot)
    {
      if at == 1 && dot == 3 { assert IsSpace("a@ .c"[2]); }
    }
  }

  /** A form left empty by a mode switch fails with the fill-all message in either mode. */
  lemma EmptyFormFails(isLogin: bool)
    ensures ValidationError(EmptyForm, isLogin) == Some(FillAllFields)
  {
  }

  // ---------------------------------------------------------------------------------------------
  // Error messages from the authentication service

  /**
   * The text shown when the service rejects a request: `friendly` when its message mentions
   * `marker`, otherwise the message itself, or `fallback` when the message is empty.
   */
  function ServiceErrorText(raw: string, marker: string, friendly: string, fallback: string): (text: string)
    ensures Contains(raw, marker) ==> text == friendly
    ensures !Contains(raw, marker) && raw != "" ==> text == raw
    ensures !Contains(raw, marker) && raw == "" ==> text == fallback
    ensures friendly != "" && fallback != "" ==> text != ""
  {
    if Contains(raw, marker) then friendly else if raw != "" then raw else fallback
  }

  /** The text `handleLogin` shows for a rejected sign-in. */
  function LoginErrorText(raw: string): string {
    ServiceErrorText(raw, CredentialsMarker, WrongCredentials, LoginFailed)
  }

  /** The text `handleSignUp` shows for a rejected registration. */
  function SignUpErrorText(raw: string): string {
    ServiceErrorText(raw, RegisteredMarker, AlreadyRegistered, SignUpFailed)
  }

  /** The marker is found wherever it sits in the service's message. */
  lemma MarkerAnywhere(before: string, after: string)
    ensures LoginErrorText(before + CredentialsMarker + after) == WrongCredentials
    ensures SignUpErrorText(before + RegisteredMarker + after) == AlreadyRegistered
  {
    assert OccursAt(before + CredentialsMarker + after, CredentialsMarker, |before|);
    assert OccursAt(before + RegisteredMarker + after, RegisteredMarker, |before|);
  }

  /** A rejected request always shows a non-empty text, the service's own unless it has a marker. */
  lemma ErrorTextNeverEmpty(raw: string)
    ensures LoginErrorText(raw) != "" && SignUpErrorText(raw) != ""
    ensures !Contains(raw, CredentialsMarker) && raw != "" ==> LoginErrorText(raw) == raw
    ensures !Contains(raw, RegisteredMarker) && raw != "" ==> SignUpErrorText(raw) == raw
  {
  }

  // ---------------------------------------------------------------------------------------------
  // The page's state

  class AuthPage {
    var isLogin: bool
    var message: Message
    var formData: AuthForm

    constructor()
      ensures isLogin && message == NoMessage && formData == EmptyForm
    {
      isLogin := true;
      message := NoMessage;
      formData := EmptyForm;
    }

    /** The mode link, with the effect that runs on every mode change: form and banner are reset. */
    method ToggleMode()
      modifies this
      ensures isLogin == !old(isLogin)
      ensures message == NoMessage && formData == EmptyForm
    {
      isLogin := !isLogin;
      message := NoMessage;
      formData := EmptyForm;
    }

    /** `handleInputChange`: stores the typed value and clears a banner that has text. */
    method HandleInputChange(field: FormField, value: string)
      modifies this
      ensures formData == SetField(old(formData), field, value)
      ensures old(message).text != "" ==> message == NoMessage
      ensures old(message).text == "" ==> message == old(message)
      ensures isLogin == old(isLogin)
    {
      formData := SetField(formData, field, value);
      if message.text != "" {
        message := NoMessage;
      }
    }

    /** `validateForm`: the first failing check sets the error banner. */
    method ValidateForm() returns (ok: bool)
      modifies this
      ensures ok <==> ValidationError(formData, isLogin).None?
      ensures !ok ==> message == Message(Error, ValidationError(formData, isLogin).value)
      ensures ok ==> message == old(message)
      ensures formData == old(formData) && isLogin == old(isLogin)
    {
      var failure := ValidationError(formData, isLogin);
      if failure.Some? {
        message := Message(Error, failure.value);
        return false;
      }
      return true;
    }

    /**
     * `handleLogin`. `outcome` is the sign-in result: None on success, or the service's error
     * message. `called` says whether the service was asked at all, and `redirects` whether the
     * delayed redirect to the administration page is scheduled.
     */
    method HandleLogin(outcome: Option<string>) returns (called: bool, redirects: bool)
      modifies this
      ensures called <==> ValidationError(old(formData), old(isLogin)).None?
      ensures !called ==> !redirects && message == Message(Error, ValidationError(old(formData), old(isLogin)).value)
      ensures called && outcome.None? ==> redirects && message == Message(Succeeded, LoginSucceeded)
      ensures called && outcome.Some? ==> !redirects && message == Message(Error, LoginErrorText(outcome.value))
      ensures formData == old(formData) && isLogin == old(isLogin)
    {
      redirects := false;
      called := ValidateForm();
      if !called {
        return;
      }
      match outcome
      case None =>
        message := Message(Succeeded, LoginSucceeded);
        redirects := true;
      case Some(raw) =>
        message := Message(Error, LoginErrorText(raw));
    }

    /** `handleSignUp`. `outcome` is the registration result: None on success, or the error message. */
    method HandleSignUp(outcome: Option<string>) returns (called: bool)
      modifies this
      ensures called <==> ValidationError(old(formData), old(isLogin)).None?
      ensures !called ==> message == Message(Error, ValidationError(old(formData), old(isLogin)).value)
      ensures called && outcome.None? ==> message == Message(Succeeded, SignUpSucceeded)
      ensures called && outcome.Some? ==> message == Message(Error, SignUpErrorText(outcome.value))
      ensures formData == old(formData) && isLogin == old(isLogin)
    {
      called := ValidateForm();
      if !called {
        return;
      }
      match outcome
      case None =>
        message := Message(Succeeded, SignUpSucceeded);
      case Some(raw) =>
        message := Message(Error, SignUpErrorText(raw));
    }

    /** The form's submit handler: `handleLogin` in login mode, `handleSignUp` otherwise. */
    method Submit(outcome: Option<string>) returns (called: bool, redirects: bool)
      modifies this
      ensures called <==> ValidationError(old(formData), old(isLogin)).None?
      ensures redirects ==> old(isLogin) && outcome.None?
      ensures called && !old(isLogin) && outcome.None? ==> message == Message(Succeeded, SignUpSucceeded)
      ensures called && old(isLogin) && outcome.None? ==> message == Message(Succeeded, LoginSucceeded) && redirects
      ensures !called ==> message == Message(Error, ValidationError(old(formData), old(isLogin)).value)
      ensures called && outcome.Some? ==>
        message == Message(Error, if old(isLogin) then LoginErrorText(outcome.value) else SignUpErrorText(outcome.value))
      ensures formData == old(formData) && isLogin == old(isLogin)
    {
      if isLogin {
        called, redirects := HandleLogin(outcome);
      } else {
        called := HandleSignUp(outcome);
        redirects := false;
      }
    }

    /**
     * `handleForgotPassword`. `failed` says whether the recovery request was rejected; it is asked
     * only when an email was typed.
     */
    method HandleForgotPassword(failed: bool) returns (called: bool)
      modifies this
      ensures called <==> old(formData).email != ""
      ensures !called ==> message == Message(Error, EmailFirst)
      ensures called && failed ==> message == Message(Error, RecoveryFailed)
      ensures called && !failed ==> message == Message(Succeeded, RecoverySent)
      ensures formData == old(formData) && isLogin == old(isLogin)
    {
      if formData.email == "" {
        message := Message(Error, EmailFirst);
        return false;
      }
      called := true;
      if failed {
        message := Message(Error, RecoveryFailed);
      } else {
        message := Message(Succeeded, RecoverySent);
      }
    }
  }
}
