/**
 * The account creation form of app/signup/page.tsx: the field checks, the
 * registration request, the automatic login after it, and where the new
 * user is sent.
 *
 * The two requests are not modelled; their answers are parameters. An
 * answer that throws (network failure, a body that is not JSON) is
 * `RegisterThrew` / `LoginThrew`. Saving the token and the user's details
 * in browser storage is left out; the login into the shared app state is
 * modelled with AppContext.AppState.Login.
 */
module Signup {
  import opened Common
  import opened AppContext

  const MissingField: string := "Please fill in all fields"
  const Mismatch: string := "Passwords do not match"
  const TooShort: string := "Password must be at least 6 characters"
  const RegisterFallback: string := "Signup Failed"
  const Crashed: string := "Signup failed. Please try again."
  const MinPasswordLength: nat := 6

  const VendorHome: string := "/vendor/enhanced-vendor-dashboard"
  const BuyerHome: string := "/"

  datatype RegisterReply = Registered | RegisterRejected(message: Option<string>) | RegisterThrew
  datatype LoginReply = LoggedIn | LoginRefused | LoginThrew

  /** The field checks in order; the first that fails gives the message. */
  function Validate(name: string, email: string, password: string, confirm: string): (err: Option<string>)
    ensures err.None? <==> name != "" && email != "" && password != "" && confirm != ""
                           && password == confirm && |password| >= MinPasswordLength
    ensures name == "" || email == "" || password == "" || confirm == "" ==> err == Some(MissingField)
    ensures name != "" && email != "" && password != "" && confirm != "" && password != confirm ==> err == Some(Mismatch)
    ensures err == Some(TooShort) <==>
      name != "" && email != "" && password != "" && confirm != "" && password == confirm && |password| < MinPasswordLength
  {
    if name == "" || email == "" || password == "" || confirm == "" then Some(MissingField)
    else if password != confirm then Some(Mismatch)
    else if |password| < MinPasswordLength then Some(TooShort)
    else None
  }

  /** A matching password of exactly six characters passes. */
  lemma SixCharactersPass()
    ensures Validate("Ana", "ana@example.com", "abcdef", "abcdef").None?
    ensures Validate("Ana", "ana@example.com", "abcde", "abcde") == Some(TooShort)
  {
  }

  /** Where a logged-in user of a role is sent. */
  function HomeFor(role: UserRole): (route: string)
    ensures route == VendorHome <==> role.Vendor?
    ensures route == BuyerHome <==> role.Buyer?
  {
    assert |VendorHome| != |BuyerHome|;
    match role
    case Vendor => VendorHome
    case Buyer => BuyerHome
  }

  /** What one submission leaves behind. */
  datatype Outcome = Outcome(error: string, registerSent: bool, loginSent: bool, loggedIn: bool, route: Option<string>)

  /** `handleSubmit` from the field values and the two answers. */
  function Submission(name: string, email: string, password: string, confirm: string, role: UserRole,
                      register: RegisterReply, login: LoginReply): (o: Outcome)
    ensures Validate(name, email, password, confirm).Some? ==>
      o == Outcome(Validate(name, email, password, confirm).value, false, false, false, None)
    ensures o.registerSent <==> Validate(name, email, password, confirm).None?
    ensures o.loginSent <==> o.registerSent && register.Registered?
    ensures o.loggedIn <==> o.loginSent && login.LoggedIn?
    ensures o.route.Some? <==> o.loggedIn
    ensures o.loggedIn ==> o.route == Some(HomeFor(role)) && o.error == ""
    ensures o.registerSent && register.RegisterRejected? ==> o.error == OrElse(register.message, RegisterFallback)
    ensures o.registerSent && (register.RegisterThrew? || (register.Registered? && login.LoginThrew?)) ==> o.error == Crashed
    ensures o.loginSent && login.LoginRefused? ==> o.error == "" && o.route.None?
  {
    var err := Validate(name, email, password, confirm);
    if err.Some? then Outcome(err.value, false, false, false, None)
    else match register
      case RegisterThrew => Outcome(Crashed, true, false, false, None)
      case RegisterRejected(message) => Outcome(OrElse(message, RegisterFallback), true, false, false, None)
      case Registered =>
        match login
        case LoginThrew => Outcome(Crashed, true, true, false, None)
        case LoginRefused => Outcome("", true, true, false, None)
        case LoggedIn => Outcome("", true, true, true, Some(HomeFor(role)))
  }

  /** `SignupPage()`'s state. */
  class SignupPage {
    var name: string
    var email: string
    var password: string
    var confirmPassword: string
    var role: UserRole
    var isLoading: bool
    var error: string

    constructor()
      ensures name == "" && email == "" && password == "" && confirmPassword == ""
      ensures role == Buyer && !isLoading && error == ""
    {
      name := "";
      email := "";
      password := "";
      confirmPassword := "";
      role := Buyer;
      isLoading := false;
      error := "";
    }

    method SetFields(n: string, e: string, p: string, c: string, r: UserRole)
      modifies this
      ensures name == n && email == e && password == p && confirmPassword == c && role == r
      ensures error == old(error) && isLoading == old(isLoading)
    {
      name, email, password, confirmPassword, role := n, e, p, c, r;
    }

    /**
     * `handleSubmit`: the error is cleared first, loading is on while the
     * requests run and off at the end on every path.
     */
    method HandleSubmit(app: AppState, register: RegisterReply, login: LoginReply)
      returns (registerSent: bool, loginSent: bool, route: Option<string>)
      requires app.Valid()
      modifies this, app
      ensures app.Valid()
      ensures var o := Submission(old(name), old(email), old(password), old(confirmPassword), old(role), register, login);
        error == o.error && registerSent == o.registerSent && loginSent == o.loginSent && route == o.route
      ensures !isLoading
      ensures name == old(name) && email == old(email) && password == old(password) && role == old(role)
      ensures confirmPassword == old(confirmPassword)
      ensures loginSent && login.LoggedIn? ==>
        app.currentUser == Some(if role == Buyer then MockBuyer else MockVendor) && app.userRole == Some(role)
        && app.userStatus == Authenticated
      ensures !(loginSent && login.LoggedIn?) ==>
        app.currentUser == old(app.currentUser) && app.userRole == old(app.userRole) && app.userStatus == old(app.userStatus)
      ensures app.cart == old(app.cart) && app.selectedLocation == old(app.selectedLocation)
    {
      error := "";
      isLoading := true;
      registerSent, loginSent, route := false, false, None;

      if name == "" || email == "" || password == "" || confirmPassword == "" {
        error := MissingField;
        isLoading := false;
        return;
      }
      if password != confirmPassword {
        error := Mismatch;
        isLoading := false;
        return;
      }
      if |password| < MinPasswordLength {
        error := TooShort;
        isLoading := false;
        return;
      }

      registerSent := true;
      match register {
        case RegisterThrew =>
          error := Crashed;
        case RegisterRejected(message) =>
          error := OrElse(message, RegisterFallback);
          isLoading := false;
          return;
        case Registered =>
          loginSent := true;
          match login {
            case LoginThrew =>
              error := Crashed;
            case LoginRefused =>
            case LoggedIn =>
              app.Login(email, password, role);
              route := Some(HomeFor(role));
          }
      }
      isLoading := false;
    }
  }
}
