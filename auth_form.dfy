/**
 * The authentication page: a choice between the login, signup and
 * password-reset forms, switched by link buttons, with a loader while the
 * session check runs and a redirect once it finds a session.
 */
module AuthForm {
  import opened JsText

  datatype Mode = Login | Signup | Reset

  /** The link buttons under the forms. */
  datatype Link = NeedAccount | ForgotPassword | AlreadyHaveAccount | BackToLogin

  /** The links rendered in each mode. */
  function Links(m: Mode): (r: set<Link>)
    ensures |r| >= 1
  {
    match m
    case Login => {NeedAccount, ForgotPassword}
    case Signup => {AlreadyHaveAccount}
    case Reset => {BackToLogin}
  }

  /** The mode a link switches to. */
  function Target(l: Link): Mode {
    match l
    case NeedAccount => Signup
    case ForgotPassword => Reset
    case AlreadyHaveAccount => Login
    case BackToLogin => Login
  }

  /** What the user can do in a mode: follow one of its links, or finish a reset. */
  datatype Event = Follow(link: Link) | ResetSucceeded

  predicate Enabled(m: Mode, e: Event) {
    match e
    case Follow(l) => l in Links(m)
    case ResetSucceeded => m == Reset
  }

  function Next(m: Mode, e: Event): Mode {
    match e
    case Follow(l) => Target(l)
    case ResetSucceeded => Login
  }

  /** From login only signup and reset are reachable; from signup and from reset only login. */
  lemma OneStepModes(m: Mode, e: Event)
    requires Enabled(m, e)
    ensures m == Login ==> Next(m, e) in {Signup, Reset}
    ensures m != Login ==> Next(m, e) == Login
  {
  }

  /** Every mode can reach every other, so the machine has no dead end. */
  lemma EveryModeReachable(m: Mode, m': Mode)
    ensures exists e1, e2 :: Enabled(m, e1) && Enabled(Next(m, e1), e2)
                             && (Next(m, e1) == m' || Next(Next(m, e1), e2) == m')
  {
    var e1 := if m == Login then (if m' == Reset then Follow(ForgotPassword) else Follow(NeedAccount))
              else if m == Signup then Follow(AlreadyHaveAccount) else Follow(BackToLogin);
    var mid := Next(m, e1);
    var e2 := if mid == Login then (if m' == Reset then Follow(ForgotPassword) else Follow(NeedAccount))
              else if mid == Signup then Follow(AlreadyHaveAccount) else Follow(BackToLogin);
    assert Enabled(m, e1) && Enabled(mid, e2);
  }

  /** What the page shows. */
  datatype View = Loader | Form(mode: Mode)

  function Render(isAuthLoading: bool, m: Mode): (r: View)
    ensures r.Loader? <==> isAuthLoading
    ensures r.Form? ==> r.mode == m
  {
    if isAuthLoading then Loader else Form(m)
  }

  /** The effect's redirect: to the generate-post route once a session is found. */
  function Redirect(isAuthenticated: bool, generatePostRoute: string): (r: Option<string>)
    ensures r.Some? <==> isAuthenticated
    ensures r.Some? ==> r.value == generatePostRoute
  {
    if isAuthenticated then Some(generatePostRoute) else None
  }

  class AuthPage {
    var mode: Mode

    constructor()
      ensures mode == Login
    {
      mode := Login;
    }

    /** A click on one of the links rendered in the current mode. */
    method Press(l: Link)
      requires l in Links(mode)
      modifies this
      ensures mode == Next(old(mode), Follow(l))
    {
      mode := Target(l);
    }

    /** `handleResetSuccess`, called by the reset form after a successful reset. */
    method HandleResetSuccess()
      modifies this
      ensures mode == Login
    {
      mode := Login;
    }
  }
}
