/** The landing page (src/app/page.tsx): the login and signup forms, their input checks in their
    fixed order, and the users row a new account starts with. The auth service's answers are
    parameters. */
module Landing {
  import opened Wrappers
  import opened Types
  import opened Backend

  const Dashboard := "/dashboard"
  const MinPasswordLength := 6

  const EmptyFieldMessage := "Preencha todos os campos"
  const MismatchMessage := "As senhas não coincidem"
  const TooShortMessage := "A senha deve ter no mínimo 6 caracteres"
  const LoginOkMessage := "Login realizado com sucesso!"
  const SignupOkMessage := "Conta criada com sucesso!"
  const LoginFailedMessage := "Erro ao fazer login"
  const SignupFailedMessage := "Erro ao criar conta"

  // ---------------------------------------------------------------------------------------------
  // Input checks

  datatype FormError = EmptyField | PasswordMismatch | PasswordTooShort

  function FormMessage(e: FormError): string
  {
    match e
    case EmptyField => EmptyFieldMessage
    case PasswordMismatch => MismatchMessage
    case PasswordTooShort => TooShortMessage
  }

  /** `handleLogin`'s check: both fields are required. */
  function ValidateLogin(email: string, password: string): (r: Option<FormError>)
    ensures r.None? <==> email != "" && password != ""
    ensures r.Some? ==> r.value == EmptyField
  {
    if email == "" || password == "" then Some(EmptyField) else None
  }

  /** `handleSignup`'s checks in their order: a missing field, then a confirmation that differs,
      then a password shorter than six characters; the first that fails decides. */
  function ValidateSignup(email: string, password: string, confirm: string): (r: Option<FormError>)
    ensures r == Some(EmptyField) <==> email == "" || password == "" || confirm == ""
    ensures r == Some(PasswordMismatch) <==>
              email != "" && password != "" && confirm != "" && password != confirm
    ensures r == Some(PasswordTooShort) <==>
              email != "" && password != "" && confirm != "" && password == confirm &&
              |password| < MinPasswordLength
    ensures r.None? <==>
              email != "" && password == confirm && |password| >= MinPasswordLength
  {
    if email == "" || password == "" || confirm == "" then Some(EmptyField)
    else if password != confirm then Some(PasswordMismatch)
    else if |password| < MinPasswordLength then Some(PasswordTooShort)
    else None
  }

  /** The boundary and the order: six characters pass and five do not, and a short password
      whose confirmation differs is reported as a mismatch. */
  lemma ValidateSignupBoundary(email: string)
    requires email != ""
    ensures ValidateSignup(email, "123456", "123456").None?
    ensures ValidateSignup(email, "12345", "12345") == Some(PasswordTooShort)
    ensures ValidateSignup(email, "12", "13") == Some(PasswordMismatch)
  {
  }

  /** `error.message || fallback`: an empty message falls back to the generic text. */
  function ErrorText(message: string, fallback: string): (r: string)
    ensures message != "" ==> r == message
    ensures message == "" ==> r == fallback
  {
    if message != "" then message else fallback
  }

  // ---------------------------------------------------------------------------------------------
  // The component

  /** What the sign-in call gives: an error with its message (returned or thrown), or a session. */
  datatype SignIn = SignInFailed(message: string) | SignedIn

  /** The account the sign-up call creates. */
  datatype AuthUser = AuthUser(id: string, email: string)

  /** What the sign-up call gives: an error with its message, or success with the new account
      when the service returns one. */
  datatype SignUp = SignUpFailed(message: string) | SignedUp(account: Option<AuthUser>)

  /** The users row a new account starts with: its auth id and email, on the free plan. */
  function InitialUser(a: AuthUser): (u: User)
    ensures u.id == a.id && u.email == a.email && !u.plano_pro
  {
    User(a.id, a.email, false)
  }

  class LandingPage {
    const db: Db
    var loading: bool
    var redirect: Option<string>

    constructor (db: Db)
      ensures this.db == db && !loading && redirect.None?
    {
      this.db := db;
      loading, redirect := false, None;
    }

    /** `checkUser`: an open session goes straight to the dashboard. */
    method CheckSession(hasSession: bool)
      modifies this`redirect
      ensures hasSession ==> redirect == Some(Dashboard)
      ensures !hasSession ==> redirect == old(redirect)
    {
      if hasSession {
        redirect := Some(Dashboard);
      }
    }

    /** `handleLogin`: a missing field is refused before any auth call; otherwise the answer
        decides between the dashboard and an error message, and loading ends. */
    method HandleLogin(email: string, password: string, answer: SignIn) returns (authCalled: bool, msg: string)
      modifies this`loading, this`redirect
      ensures authCalled <==> ValidateLogin(email, password).None?
      ensures !authCalled ==> msg == EmptyFieldMessage && loading == old(loading) && redirect == old(redirect)
      ensures authCalled ==> !loading
      ensures authCalled && answer.SignedIn? ==> msg == LoginOkMessage && redirect == Some(Dashboard)
      ensures authCalled && answer.SignInFailed? ==>
                msg == ErrorText(answer.message, LoginFailedMessage) && redirect == old(redirect)
    {
      var err := ValidateLogin(email, password);
      if err.Some? {
        return false, FormMessage(err.value);
      }
      authCalled := true;
      loading := true;
      match answer {
        case SignInFailed(message) =>
          msg := ErrorText(message, LoginFailedMessage);
        case SignedIn =>
          msg := LoginOkMessage;
          redirect := Some(Dashboard);
      }
      loading := false;
    }

    /** `handleSignup`: the three checks in order, then the sign-up call; on success the new
        account's users row is inserted on the free plan and the page goes to the dashboard. */
    method HandleSignup(email: string, password: string, confirm: string, answer: SignUp)
      returns (authCalled: bool, msg: string)
      modifies this`loading, this`redirect, db`users
      ensures authCalled <==> ValidateSignup(email, password, confirm).None?
      ensures !authCalled ==>
                msg == FormMessage(ValidateSignup(email, password, confirm).value) &&
                loading == old(loading) && redirect == old(redirect) && db.users == old(db.users)
      ensures authCalled ==> !loading
      ensures authCalled && answer.SignUpFailed? ==>
                msg == ErrorText(answer.message, SignupFailedMessage) &&
                redirect == old(redirect) && db.users == old(db.users)
      ensures authCalled && answer.SignedUp? ==> msg == SignupOkMessage && redirect == Some(Dashboard)
      ensures authCalled && answer.SignedUp? && answer.account.Some? ==>
                db.users == old(db.users) + [InitialUser(answer.account.value)]
      ensures authCalled && answer.SignedUp? && answer.account.None? ==> db.users == old(db.users)
    {
      var err := ValidateSignup(email, password, confirm);
      if err.Some? {
        return false, FormMessage(err.value);
      }
      authCalled := true;
      loading := true;
      match answer {
        case SignUpFailed(message) =>
          msg := ErrorText(message, SignupFailedMessage);
        case SignedUp(account) =>
          if account.Some? {
            db.users := db.users + [InitialUser(account.value)];
          }
          msg := SignupOkMessage;
          redirect := Some(Dashboard);
      }
      loading := false;
    }
  }
}
