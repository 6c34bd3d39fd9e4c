/**
 * The login / register form (screens/auth/login-screen.js): the four
 * fields, the mode switch, and the submit chain of checks and service
 * calls. The services' answers are parameters; what the screen does is
 * returned as a trace of effects.
 */
module LoginScreen {
  import opened Wrappers

  const FillAllFields := "يرجى ملء جميع الحقول"
  const PasswordMismatch := "كلمة المرور غير متطابقة"
  const RegisteredMessage := "تم التسجيل بنجاح"
  const RegisterFailedMessage := "فشل في التسجيل"
  const LoginFailedMessage := "فشل في تسجيل الدخول"

  /** `formData`. */
  datatype Form = Form(name: string, phone: string, password: string, confirmPassword: string)

  datatype Field = Name | Phone | Password | ConfirmPassword

  const EmptyForm := Form("", "", "", "")

  function FieldValue(f: Form, field: Field): string {
    match field
    case Name => f.name
    case Phone => f.phone
    case Password => f.password
    case ConfirmPassword => f.confirmPassword
  }

  /** `handleFieldChange`: `{...formData, [fieldName]: value}`. */
  function WithField(f: Form, field: Field, v: string): (r: Form)
    ensures FieldValue(r, field) == v
    ensures forall other :: other != field ==> FieldValue(r, other) == FieldValue(f, other)
  {
    match field
    case Name => f.(name := v)
    case Phone => f.(phone := v)
    case Password => f.(password := v)
    case ConfirmPassword => f.(confirmPassword := v)
  }

  /** Edits of two different fields do not interfere; a later edit of the same field wins. */
  lemma FieldEditsCommute(f: Form, a: Field, x: string, b: Field, y: string)
    ensures a != b ==> WithField(WithField(f, a, x), b, y) == WithField(WithField(f, b, y), a, x)
    ensures WithField(WithField(f, a, x), a, y) == WithField(f, a, y)
  {
  }

  /** What `register` answered: success, or an error with its (possibly empty) message. */
  datatype RegisterOutcome = Registered | RegisterFailed(message: string)

  /** What `login` answered: a user and a token, or an error with its message. */
  datatype LoginOutcome = LoggedIn(user: string, token: string) | LoginRejected(message: string)

  /** The screen's observable actions, in order. */
  datatype Effect =
    | Alert(text: string)
    | CallRegister(name: string, phone: string, password: string)
    | CallLogin(phone: string, password: string)
    | StoreUser(user: string, token: string)
    | ReplaceWithHome

  /** `err.message || fallback`. */
  function ErrorText(message: string, fallback: string): string {
    if message != "" then message else fallback
  }

  /** `handleLogin`: call the service; keep the session and go home, or report the error. */
  function HandleLogin(phone: string, password: string, outcome: LoginOutcome): seq<Effect> {
    [CallLogin(phone, password)] +
    match outcome
    case LoggedIn(user, token) => [StoreUser(user, token), ReplaceWithHome]
    case LoginRejected(m) => [Alert(ErrorText(m, LoginFailedMessage))]
  }

  /** The guard chain of `handleSubmit`: the first failing check's message, or none. */
  function Validate(f: Form, isRegister: bool): (r: Option<string>) {
    if f.phone == "" || f.password == "" then Some(FillAllFields)
    else if isRegister && (f.name == "" || f.confirmPassword == "") then Some(FillAllFields)
    else if isRegister && f.password != f.confirmPassword then Some(PasswordMismatch)
    else None
  }

  /** `handleSubmit` as the trace it produces for given service answers. */
  function HandleSubmit(f: Form, isRegister: bool, reg: RegisterOutcome, login: LoginOutcome): seq<Effect> {
    match Validate(f, isRegister)
    case Some(message) => [Alert(message)]
    case None =>
      if isRegister then
        [CallRegister(f.name, f.phone, f.password)] +
        match reg
        case Registered => [Alert(RegisteredMessage)] + HandleLogin(f.phone, f.password, login)
        case RegisterFailed(m) => [Alert(ErrorText(m, RegisterFailedMessage))]
      else HandleLogin(f.phone, f.password, login)
  }

  predicate CallsService(e: Effect) {
    e.CallRegister? || e.CallLogin?
  }

  predicate ReachesService(trace: seq<Effect>) {
    exists i :: 0 <= i < |trace| && CallsService(trace[i])
  }

  /** A missing phone or password is refused in both modes, before anything else. */
  lemma MissingCredentialsRefused(f: Form, isRegister: bool, reg: RegisterOutcome, login: LoginOutcome)
    requires f.phone == "" || f.password == ""
    ensures HandleSubmit(f, isRegister, reg, login) == [Alert(FillAllFields)]
  {
  }

  /** Registering also needs a name and a confirmation. */
  lemma RegisterNeedsAllFields(f: Form, reg: RegisterOutcome, login: LoginOutcome)
    requires f.name == "" || f.confirmPassword == ""
    ensures HandleSubmit(f, true, reg, login) == [Alert(FillAllFields)]
  {
  }

  /** The mismatch message is given exactly when every field is filled and the passwords differ. */
  lemma MismatchOnlyAfterEmptinessChecks(f: Form)
    ensures Validate(f, true) == Some(PasswordMismatch) <==>
      f.name != "" && f.phone != "" && f.password != "" && f.confirmPassword != "" && f.password != f.confirmPassword
  {
  }

  /** Logging in reads neither the name nor the confirmation. */
  lemma LoginIgnoresNameAndConfirmation(f: Form, name: string, confirm: string, reg: RegisterOutcome, login: LoginOutcome)
    ensures HandleSubmit(f, false, reg, login) ==
      HandleSubmit(f.(name := name, confirmPassword := confirm), false, reg, login)
  {
  }

  /** A service is called exactly when the form passes every check. */
  lemma OnlyValidFormsReachServices(f: Form, isRegister: bool, reg: RegisterOutcome, login: LoginOutcome)
    ensures ReachesService(HandleSubmit(f, isRegister, reg, login)) <==> Validate(f, isRegister).None?
  {
    var t := HandleSubmit(f, isRegister, reg, login);
    if Validate(f, isRegister).None? {
      assert CallsService(t[0]);
    } else {
      assert t == [Alert(Validate(f, isRegister).value)];
    }
  }

  /** A successful registration is announced and followed by a login with the same phone and password. */
  lemma RegisterThenLogin(f: Form, login: LoginOutcome)
    requires Validate(f, true).None?
    ensures var t := HandleSubmit(f, true, Registered, login);
      |t| >= 3 && t[0] == CallRegister(f.name, f.phone, f.password) &&
      t[1] == Alert(RegisteredMessage) && t[2] == CallLogin(f.phone, f.password)
  {
  }

  /** A failed registration reports the error and never logs in. */
  lemma FailedRegisterStops(f: Form, m: string, login: LoginOutcome)
    requires Validate(f, true).None?
    ensures HandleSubmit(f, true, RegisterFailed(m), login) ==
      [CallRegister(f.name, f.phone, f.password), Alert(ErrorText(m, RegisterFailedMessage))]
    ensures m == "" ==> HandleSubmit(f, true, RegisterFailed(m), login)[1] == Alert(RegisterFailedMessage)
  {
  }

  /** A rejected login without a message shows the default one and stores no session. */
  lemma RejectedLoginAlerts(phone: string, password: string)
    ensures HandleLogin(phone, password, LoginRejected("")) == [CallLogin(phone, password), Alert(LoginFailedMessage)]
  {
  }

  /** The screen's state: the form and the mode. */
  class LoginForm {
    var form: Form
    var isRegister: bool

    constructor()
      ensures form == EmptyForm && !isRegister
    {
      form := EmptyForm;
      isRegister := false;
    }

    method ChangeField(field: Field, v: string)
      modifies this
      ensures form == WithField(old(form), field, v) && isRegister == old(isRegister)
    {
      form := WithField(form, field, v);
    }

    /** The footer link. */
    method ToggleMode()
      modifies this
      ensures isRegister == !old(isRegister) && form == old(form)
    {
      isRegister := !isRegister;
    }

    /** The submit button: the early-return chain, then the service calls. */
    method Submit(reg: RegisterOutcome, login: LoginOutcome) returns (trace: seq<Effect>)
      ensures trace == HandleSubmit(form, isRegister, reg, login)
    {
      var f := form;
      if f.phone == "" || f.password == "" {
        return [Alert(FillAllFields)];
      }
      if isRegister {
        if f.name == "" || f.confirmPassword == "" {
          return [Alert(FillAllFields)];
        }
        if f.password != f.confirmPassword {
          return [Alert(PasswordMismatch)];
        }
        trace := [CallRegister(f.name, f.phone, f.password)];
        match reg
        case Registered =>
          trace := trace + [Alert(RegisteredMessage)] + HandleLogin(f.phone, f.password, login);
        case RegisterFailed(m) =>
          trace := trace + [Alert(ErrorText(m, RegisterFailedMessage))];
      } else {
        trace := HandleLogin(f.phone, f.password, login);
      }
    }
  }
}
