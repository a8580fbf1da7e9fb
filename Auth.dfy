/**
 * AuthViewModel: the login and registration forms, their validation, and
 * the session written to AuthDataStore when the server accepts.
 *
 * The Android e-mail pattern is the parameter `matchesEmail`. The server
 * call is the parameter `api`, a function from the request to its outcome:
 * an accepted response with a body, any other response, or an exception
 * with its message.
 */
module Auth {
  import opened Wrappers
  import opened Text
  import opened AuthStore

  datatype AuthState = AuthState(isLoading: bool, error: Option<string>, isSuccess: bool)

  const DefaultAuthState := AuthState(false, None, false)

  datatype LoginFormState = LoginFormState(email: string, password: string,
                                           emailError: Option<string>, passwordError: Option<string>)

  const DefaultLoginForm := LoginFormState("", "", None, None)

  datatype RegisterFormState = RegisterFormState(
    name: string, email: string, password: string, confirmPassword: string,
    nameError: Option<string>, emailError: Option<string>,
    passwordError: Option<string>, confirmPasswordError: Option<string>)

  const DefaultRegisterForm := RegisterFormState("", "", "", "", None, None, None, None)

  datatype LoginRequest = LoginRequest(email: string, password: string)

  datatype RegisterRequest = RegisterRequest(name: string, email: string, password: string)

  /** The user part of the server's LoginResponse; the token is not kept. */
  datatype UserDto = UserDto(id: int, name: string, email: string, role: string)

  /** A successful response with a body, any other response, or a thrown exception. */
  datatype ApiOutcome = Accepted(user: UserDto) | Refused | Unreachable(message: string)

  const EmailRequired := "Email не може бути порожнім"
  const EmailFormat := "Невірний формат email"
  const PasswordRequired := "Пароль не може бути порожнім"
  const PasswordTooShort := "Пароль має бути мінімум 6 символів"
  const NameRequired := "Ім'я не може бути порожнім"
  const NameTooShort := "Ім'я має бути мінімум 2 символи"
  const ConfirmRequired := "Підтвердіть пароль"
  const PasswordsDiffer := "Паролі не співпадають"
  const InvalidCredentials := "Невірний email або пароль"
  const EmailTaken := "Користувач з таким email вже існує"
  const ConnectionPrefix := "Помилка з'єднання з сервером: "

  const MinPasswordLength := 6
  const MinNameLength := 2

  // ---- Validators ----

  function ValidateEmail(matchesEmail: string -> bool, email: string): (r: Option<string>)
    ensures r == Some(EmailRequired) <==> IsBlank(email)
    ensures r == Some(EmailFormat) <==> !IsBlank(email) && !matchesEmail(email)
    ensures r.None? <==> !IsBlank(email) && matchesEmail(email)
  {
    if IsBlank(email) then Some(EmailRequired)
    else if !matchesEmail(email) then Some(EmailFormat)
    else None
  }

  function ValidatePassword(password: string): (r: Option<string>)
    ensures r == Some(PasswordRequired) <==> IsBlank(password)
    ensures r == Some(PasswordTooShort) <==> !IsBlank(password) && |password| < MinPasswordLength
    ensures r.None? <==> !IsBlank(password) && |password| >= MinPasswordLength
  {
    if IsBlank(password) then Some(PasswordRequired)
    else if |password| < MinPasswordLength then Some(PasswordTooShort)
    else None
  }

  function ValidateName(name: string): (r: Option<string>)
    ensures r == Some(NameRequired) <==> IsBlank(name)
    ensures r == Some(NameTooShort) <==> !IsBlank(name) && |name| < MinNameLength
    ensures r.None? <==> !IsBlank(name) && |name| >= MinNameLength
  {
    if IsBlank(name) then Some(NameRequired)
    else if |name| < MinNameLength then Some(NameTooShort)
    else None
  }

  function ValidateConfirmPassword(password: string, confirmPassword: string): (r: Option<string>)
    ensures r == Some(ConfirmRequired) <==> IsBlank(confirmPassword)
    ensures r == Some(PasswordsDiffer) <==> !IsBlank(confirmPassword) && password != confirmPassword
    ensures r.None? <==> !IsBlank(confirmPassword) && password == confirmPassword
  {
    if IsBlank(confirmPassword) then Some(ConfirmRequired)
    else if password != confirmPassword then Some(PasswordsDiffer)
    else None
  }

  /** Six characters of which one is not whitespace make a password that passes. */
  lemma PasswordPasses(password: string, i: nat)
    requires |password| >= MinPasswordLength && i < |password| && !IsWhitespace(password[i])
    ensures ValidatePassword(password).None?
  {
  }

  predicate LoginPasses(matchesEmail: string -> bool, form: LoginFormState) {
    ValidateEmail(matchesEmail, form.email).None? && ValidatePassword(form.password).None?
  }

  predicate RegisterPasses(matchesEmail: string -> bool, form: RegisterFormState) {
    && ValidateName(form.name).None? && ValidateEmail(matchesEmail, form.email).None?
    && ValidatePassword(form.password).None? && ValidateConfirmPassword(form.password, form.confirmPassword).None?
  }

  /** A registration that passes carries a confirmation equal to the password, so both have at least six characters. */
  lemma RegisterPassesConfirms(matchesEmail: string -> bool, form: RegisterFormState)
    requires RegisterPasses(matchesEmail, form)
    ensures form.confirmPassword == form.password && |form.confirmPassword| >= MinPasswordLength
    ensures |form.name| >= MinNameLength && matchesEmail(form.email)
  {
  }

  /** The authentication state a server outcome leads to, given the message for a refusal. */
  function OutcomeState(outcome: ApiOutcome, refusal: string): (r: AuthState)
    ensures !r.isLoading
    ensures r.isSuccess <==> outcome.Accepted?
    ensures r.error.None? <==> outcome.Accepted?
    ensures outcome.Refused? ==> r.error == Some(refusal)
    ensures outcome.Unreachable? ==> r.error == Some(ConnectionPrefix + outcome.message)
  {
    match outcome
    case Accepted(_) => AuthState(false, None, true)
    case Refused => AuthState(false, Some(refusal), false)
    case Unreachable(message) => AuthState(false, Some(ConnectionPrefix + message), false)
  }

  /** The session after an outcome: saved from the accepted user, otherwise as it was. */
  function SessionAfter(prefs: Prefs, outcome: ApiOutcome): Prefs {
    if outcome.Accepted? then SavedUserData(prefs, outcome.user.id, outcome.user.email, outcome.user.name) else prefs
  }

  /** Only an accepted outcome logs in, and it logs in as the accepted user. */
  lemma SessionAfterReads(prefs: Prefs, outcome: ApiOutcome)
    ensures outcome.Accepted? ==>
      && IsLoggedInOf(SessionAfter(prefs, outcome))
      && CurrentUserId(SessionAfter(prefs, outcome)) == outcome.user.id
      && UserEmailOf(SessionAfter(prefs, outcome)) == Some(outcome.user.email)
      && UserNameOf(SessionAfter(prefs, outcome)) == Some(outcome.user.name)
    ensures !outcome.Accepted? ==> SessionAfter(prefs, outcome) == prefs
  {
    if outcome.Accepted? {
      SaveUserDataReads(prefs, outcome.user.id, outcome.user.email, outcome.user.name);
    }
  }

  class AuthViewModel {
    var authState: AuthState
    var loginForm: LoginFormState
    var registerForm: RegisterFormState

    constructor ()
      ensures authState == DefaultAuthState && loginForm == DefaultLoginForm && registerForm == DefaultRegisterForm
    {
      authState := DefaultAuthState;
      loginForm := DefaultLoginForm;
      registerForm := DefaultRegisterForm;
    }

    /** isLoggedIn: the store's logged-in flag. */
    function IsLoggedIn(store: AuthDataStore): (r: bool)
      reads store
      ensures r <==> IsLoggedInOf(store.prefs)
    {
      IsLoggedInOf(store.prefs)
    }

    method OnLoginEmailChange(email: string)
      modifies this`loginForm
      ensures loginForm == old(loginForm).(email := email, emailError := None)
    {
      loginForm := loginForm.(email := email, emailError := None);
    }

    method OnLoginPasswordChange(password: string)
      modifies this`loginForm
      ensures loginForm == old(loginForm).(password := password, passwordError := None)
    {
      loginForm := loginForm.(password := password, passwordError := None);
    }

    /**
     * login. A form that fails validation gets both errors and nothing is
     * sent. Otherwise the request goes out; acceptance saves the returned
     * user as the session and reports success, anything else reports an
     * error and leaves the session as it was.
     */
    method Login(matchesEmail: string -> bool, api: LoginRequest -> ApiOutcome, store: AuthDataStore)
      modifies this`loginForm, this`authState, store
      ensures !LoginPasses(matchesEmail, old(loginForm)) ==>
        && loginForm == old(loginForm).(emailError := ValidateEmail(matchesEmail, old(loginForm).email),
                                       passwordError := ValidatePassword(old(loginForm).password))
        && authState == old(authState) && store.prefs == old(store.prefs)
      ensures LoginPasses(matchesEmail, old(loginForm)) ==>
        var outcome := api(LoginRequest(old(loginForm).email, old(loginForm).password));
        && loginForm == old(loginForm)
        && authState == OutcomeState(outcome, InvalidCredentials)
        && store.prefs == SessionAfter(old(store.prefs), outcome)
    {
      var emailError := ValidateEmail(matchesEmail, loginForm.email);
      var passwordError := ValidatePassword(loginForm.password);
      if emailError.Some? || passwordError.Some? {
        loginForm := loginForm.(emailError := emailError, passwordError := passwordError);
        return;
      }
      authState := AuthState(true, None, false);
      var outcome := api(LoginRequest(loginForm.email, loginForm.password));
      match outcome {
        case Accepted(user) =>
          store.SaveUserData(user.id, user.email, user.name);
          authState := AuthState(false, None, true);
        case Refused =>
          authState := AuthState(false, Some(InvalidCredentials), false);
        case Unreachable(message) =>
          authState := AuthState(false, Some(ConnectionPrefix + message), false);
      }
    }

    method OnRegisterNameChange(name: string)
      modifies this`registerForm
      ensures registerForm == old(registerForm).(name := name, nameError := None)
    {
      registerForm := registerForm.(name := name, nameError := None);
    }

    method OnRegisterEmailChange(email: string)
      modifies this`registerForm
      ensures registerForm == old(registerForm).(email := email, emailError := None)
    {
      registerForm := registerForm.(email := email, emailError := None);
    }

    method OnRegisterPasswordChange(password: string)
      modifies this`registerForm
      ensures registerForm == old(registerForm).(password := password, passwordError := None)
    {
      registerForm := registerForm.(password := password, passwordError := None);
    }

    method OnRegisterConfirmPasswordChange(confirmPassword: string)
      modifies this`registerForm
      ensures registerForm == old(registerForm).(confirmPassword := confirmPassword, confirmPasswordError := None)
    {
      registerForm := registerForm.(confirmPassword := confirmPassword, confirmPasswordError := None);
    }

    /**
     * register. A form that fails validation gets all four errors and
     * nothing is sent. Otherwise the request goes out; acceptance saves the
     * new user as the session, a refusal is reported as a taken e-mail.
     */
    method Register(matchesEmail: string -> bool, api: RegisterRequest -> ApiOutcome, store: AuthDataStore)
      modifies this`registerForm, this`authState, store
      ensures !RegisterPasses(matchesEmail, old(registerForm)) ==>
        var f := old(registerForm);
        && registerForm == f.(nameError := ValidateName(f.name), emailError := ValidateEmail(matchesEmail, f.email),
                              passwordError := ValidatePassword(f.password),
                              confirmPasswordError := ValidateConfirmPassword(f.password, f.confirmPassword))
        && authState == old(authState) && store.prefs == old(store.prefs)
      ensures RegisterPasses(matchesEmail, old(registerForm)) ==>
        var f := old(registerForm);
        var outcome := api(RegisterRequest(f.name, f.email, f.password));
        && registerForm == f
        && authState == OutcomeState(outcome, EmailTaken)
        && store.prefs == SessionAfter(old(store.prefs), outcome)
    {
      var f := registerForm;
      var nameError := ValidateName(f.name);
      var emailError := ValidateEmail(matchesEmail, f.email);
      var passwordError := ValidatePassword(f.password);
      var confirmPasswordError := ValidateConfirmPassword(f.password, f.confirmPassword);
      if nameError.Some? || emailError.Some? || passwordError.Some? || confirmPasswordError.Some? {
        registerForm := f.(nameError := nameError, emailError := emailError,
                           passwordError := passwordError, confirmPasswordError := confirmPasswordError);
        return;
      }
      authState := AuthState(true, None, false);
      var outcome := api(RegisterRequest(f.name, f.email, f.password));
      match outcome {
        case Accepted(user) =>
          store.SaveUserData(user.id, user.email, user.name);
          authState := AuthState(false, None, true);
        case Refused =>
          authState := AuthState(false, Some(EmailTaken), false);
        case Unreachable(message) =>
          authState := AuthState(false, Some(ConnectionPrefix + message), false);
      }
    }

    method ResetAuthState()
      modifies this`authState
      ensures authState == DefaultAuthState
    {
      authState := DefaultAuthState;
    }

    /** logout: the whole store is cleared, so the app reads as logged out. */
    method Logout(store: AuthDataStore)
      modifies store
      ensures store.prefs == map[] && !IsLoggedIn(store)
    {
      store.Logout();
    }
  }
}
