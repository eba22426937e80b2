/** The sign-in / sign-up / password-reset dialog (`AuthModal`): the three
    form schemas as issue lists, the `mode` machine over the three forms, and
    the submit handlers that raise `loading` before awaiting the auth context
    and clear it afterwards. Email well-formedness is the schema library's;
    here it is the parameter `isEmail`. */
module AuthDialog {
  import opened Common
  import Auth

  datatype Mode = SignInMode | SignUpMode | ResetMode

  /** A form field, the path a schema issue is reported on. */
  datatype Field = FullName | Email | Password | ConfirmPassword

  datatype Issue = Issue(path: Field, message: string)

  datatype SignInData = SignInData(email: string, password: string)
  datatype SignUpData = SignUpData(fullName: string, email: string, password: string, confirmPassword: string)

  const InvalidEmail := "Invalid email address"
  const ShortPassword := "Password must be at least 6 characters"
  const ShortName := "Full name must be at least 2 characters"
  const PasswordsDiffer := "Passwords don't match"
  /** The schema library's own message for the reset form's unlabelled email check. */
  const DefaultInvalidEmail := "Invalid email"

  /** No issue when `ok`, otherwise one issue on `path`. */
  function Check(ok: bool, path: Field, message: string): (r: seq<Issue>)
    ensures r == [] <==> ok
    ensures !ok ==> r == [Issue(path, message)]
  {
    if ok then [] else [Issue(path, message)]
  }

  /** `signInSchema`: the issues reported for the sign-in form. */
  function SignInIssues(data: SignInData, isEmail: string -> bool): (r: seq<Issue>)
    ensures r == [] <==> isEmail(data.email) && |data.password| >= 6
    ensures Issue(Email, InvalidEmail) in r <==> !isEmail(data.email)
    ensures Issue(Password, ShortPassword) in r <==> |data.password| < 6
  {
    Check(isEmail(data.email), Email, InvalidEmail) + Check(|data.password| >= 6, Password, ShortPassword)
  }

  /** `signUpSchema`: the field checks and then the refinement that the two
      passwords agree, reported on the `confirmPassword` path. */
  function SignUpIssues(data: SignUpData, isEmail: string -> bool): (r: seq<Issue>)
    ensures r == [] <==> |data.fullName| >= 2 && isEmail(data.email) && |data.password| >= 6
                         && data.password == data.confirmPassword
    ensures Issue(ConfirmPassword, PasswordsDiffer) in r <==> data.password != data.confirmPassword
    ensures Issue(FullName, ShortName) in r <==> |data.fullName| < 2
    ensures forall i :: 0 <= i < |r| && r[i].path == ConfirmPassword ==> r[i].message == PasswordsDiffer
  {
    Check(|data.fullName| >= 2, FullName, ShortName)
    + Check(isEmail(data.email), Email, InvalidEmail)
    + Check(|data.password| >= 6, Password, ShortPassword)
    + Check(data.password == data.confirmPassword, ConfirmPassword, PasswordsDiffer)
  }

  /** The reset form's schema: an email and nothing else. */
  function ResetIssues(email: string, isEmail: string -> bool): (r: seq<Issue>)
    ensures r == [] <==> isEmail(email)
    ensures r != [] ==> r == [Issue(Email, DefaultInvalidEmail)]
  {
    Check(isEmail(email), Email, DefaultInvalidEmail)
  }

  predicate SignInValid(data: SignInData, isEmail: string -> bool) {
    SignInIssues(data, isEmail) == []
  }

  predicate SignUpValid(data: SignUpData, isEmail: string -> bool) {
    SignUpIssues(data, isEmail) == []
  }

  /** The buttons that switch forms: "Forgot password?", "Sign up", "Sign in". */
  datatype Link = ForgotPassword | ToSignUp | ToSignIn

  /** The switching buttons each form renders. */
  function Links(mode: Mode): (r: seq<Link>)
    ensures mode == SignInMode <==> ForgotPassword in r
    ensures ToSignUp in r <==> mode == SignInMode
    ensures ToSignIn in r <==> mode != SignInMode
  {
    match mode
    case SignInMode => [ForgotPassword, ToSignUp]
    case SignUpMode => [ToSignIn]
    case ResetMode => [ToSignIn]
  }

  /** The mode each switching button sets. */
  function Target(link: Link): (m: Mode)
    ensures m == ResetMode <==> link == ForgotPassword
    ensures m == SignUpMode <==> link == ToSignUp
    ensures forall from :: link in Links(from) ==> m != from
  {
    match link
    case ForgotPassword => ResetMode
    case ToSignUp => SignUpMode
    case ToSignIn => SignInMode
  }

  /** A click on some rendered switching button takes `from` to `to`. */
  predicate Step(from: Mode, to: Mode) {
    exists link :: link in Links(from) && Target(link) == to
  }

  /** The mode machine has exactly four transitions. */
  lemma StepsAreExactly(from: Mode, to: Mode)
    ensures Step(from, to) <==> (from, to) in {(SignInMode, ResetMode), (SignInMode, SignUpMode),
                                                (SignUpMode, SignInMode), (ResetMode, SignInMode)}
  {
    match (from, to)
    case (SignInMode, ResetMode) => assert ForgotPassword in Links(from);
    case (SignInMode, SignUpMode) => assert ToSignUp in Links(from);
    case (SignUpMode, SignInMode) => assert ToSignIn in Links(from);
    case (ResetMode, SignInMode) => assert ToSignIn in Links(from);
    case _ =>
  }

  /** What the dialog shows for one mode. */
  datatype Screen = Screen(mode: Mode, title: string, submitLabel: string, submitDisabled: bool, links: seq<Link>)

  function Title(mode: Mode): (t: string)
    ensures t == "Sign In" <==> mode == SignInMode
    ensures t == "Create Account" <==> mode == SignUpMode
    ensures t == "Reset Password" <==> mode == ResetMode
  {
    match mode
    case SignInMode => "Sign In"
    case SignUpMode => "Create Account"
    case ResetMode => "Reset Password"
  }

  /** The submit button's text: the title's action when idle (the reset
      form says what it sends), and an ellipsis form while a call is in flight. */
  function SubmitLabel(mode: Mode, loading: bool): (r: string)
    ensures !loading && mode != ResetMode ==> r == Title(mode)
    ensures !loading && mode == ResetMode ==> r == "Send Reset Email"
    ensures loading ==> |r| > 3 && r[|r| - 3..] == "..." && r != Title(mode)
  {
    match mode
    case SignInMode => if loading then "Signing In..." else "Sign In"
    case SignUpMode => if loading then "Creating Account..." else "Create Account"
    case ResetMode => if loading then "Sending..." else "Send Reset Email"
  }

  /** `if (!isOpen) return null`; otherwise the form of the current mode,
      whose submit button is disabled while a submit is in flight. */
  function Render(isOpen: bool, mode: Mode, loading: bool): (r: Option<Screen>)
    ensures r.None? <==> !isOpen
    ensures r.Some? ==> r.value.mode == mode && r.value.links == Links(mode)
                        && r.value.submitDisabled == loading && r.value.title == Title(mode)
  {
    if !isOpen then None
    else Some(Screen(mode, Title(mode), SubmitLabel(mode, loading), loading, Links(mode)))
  }

  /** Each mode has its own title, so the title tells the mode. */
  lemma TitleNamesMode(m1: Mode, m2: Mode)
    ensures Title(m1) == Title(m2) <==> m1 == m2
  {
  }

  class AuthModal {
    var mode: Mode
    var showPassword: bool
    var loading: bool

    /** `initialMode` defaults to `signin` and is never `reset`. */
    constructor (initialMode: Mode)
      requires initialMode != ResetMode
      ensures mode == initialMode && !showPassword && !loading
    {
      mode := initialMode;
      showPassword := false;
      loading := false;
    }

    /** A click on a rendered switching button. */
    method Follow(link: Link)
      requires link in Links(mode)
      modifies this`mode
      ensures mode == Target(link) && Step(old(mode), mode)
    {
      mode := Target(link);
    }

    /** The eye button next to the password fields. */
    method ToggleShowPassword()
      modifies this`showPassword
      ensures showPassword == !old(showPassword)
    {
      showPassword := !showPassword;
    }

    /** `setLoading(true)` at the start of every handler, before the await. */
    method BeginSubmit()
      modifies this`loading
      ensures loading
    {
      loading := true;
    }

    /** The rest of `handleSignIn` / `handleSignUp` once the awaited call
        settled: `onClose()` only after success; `loading` cleared in `finally`. */
    method EndSubmit(settled: Outcome) returns (close: bool)
      modifies this`loading
      ensures !loading
      ensures close <==> settled.Done?
    {
      close := settled.Done?;
      loading := false;
    }

    /** The rest of `handleReset`: back to the sign-in form only after success. */
    method EndReset(settled: Outcome)
      modifies this`loading, this`mode
      ensures !loading
      ensures mode == if settled.Done? then SignInMode else old(mode)
    {
      if settled.Done? {
        mode := SignInMode;
      }
      loading := false;
    }

    /** `handleSignIn`, called by the form only with data the schema accepted.
        The returned flag says whether `onClose` was called. */
    method HandleSignIn(auth: Auth.AuthProvider, data: SignInData, isEmail: string -> bool,
                        backend: (string, string) -> Outcome) returns (close: bool)
      requires SignInValid(data, isEmail)
      modifies this`loading
      ensures !loading
      ensures close <==> backend(data.email, data.password).Done?
    {
      BeginSubmit();
      var settled := auth.SignIn(data.email, data.password, backend);
      assert loading;
      close := EndSubmit(settled);
    }

    /** `handleSignUp`: the auth context receives email, password and full name. */
    method HandleSignUp(auth: Auth.AuthProvider, data: SignUpData, isEmail: string -> bool,
                        backend: (string, string, string) -> Outcome) returns (close: bool)
      requires SignUpValid(data, isEmail)
      modifies this`loading
      ensures !loading
      ensures close <==> backend(data.email, data.password, data.fullName).Done?
    {
      BeginSubmit();
      var settled := auth.SignUp(data.email, data.password, data.fullName, backend);
      assert loading;
      close := EndSubmit(settled);
    }

    /** `handleReset`. */
    method HandleReset(auth: Auth.AuthProvider, email: string, isEmail: string -> bool, backend: string -> Outcome)
      requires ResetIssues(email, isEmail) == []
      modifies this`loading, this`mode
      ensures !loading
      ensures mode == if backend(email).Done? then SignInMode else old(mode)
    {
      BeginSubmit();
      var settled := auth.ResetPassword(email, backend);
      assert loading;
      EndReset(settled);
    }
  }
}
