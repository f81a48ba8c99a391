/** The app's root: the screens the navigator registers for the current
    flags, the assistant overlay, and the dispatcher for links that open
    the app. */
module App {
  import opened Wrappers
  import opened ResetPassword

  datatype Screen =
    | MainTabs | FuneralPackagesScreen | PackageDetailsScreen
    | RegisterScreen | ForgotPasswordScreen | LoginScreen | ResetPasswordScreen

  /** A navigation: the target screen, and the confirmation token passed to
      the login screen. */
  datatype Navigation = Navigate(screen: Screen, confirmationToken: Option<string>)

  /** The link's `confirmation_token`: the first element of a list, a
      string as it is, missing otherwise. */
  function ConfirmationToken(p: Param): (t: Option<string>)
    ensures p.One? ==> t == Some(p.s)
    ensures p.Many? && p.items != [] ==> t == Some(p.items[0])
    ensures t.None? <==> p.Absent? || p == Many([])
  {
    match p
    case Absent => None
    case One(s) => Some(s)
    case Many(items) => if items == [] then None else Some(items[0])
  }

  /** `handleDeepLink`: the navigation a link's path and token lead to, if
      any. */
  function HandleDeepLink(path: string, token: Param): (nav: Option<Navigation>)
  {
    var t := ConfirmationToken(token);
    if path == "login" && t.Some? && t.value != [] then Some(Navigate(LoginScreen, t))
    else if path == "login" then Some(Navigate(LoginScreen, None))
    else if path == "reset-password" then Some(Navigate(ResetPasswordScreen, None))
    else if path == "funeral-packages" then Some(Navigate(FuneralPackagesScreen, None))
    else if path == "package-details" then Some(Navigate(PackageDetailsScreen, None))
    else None
  }

  /** The four paths a link can name. */
  predicate KnownPath(path: string) {
    path == "login" || path == "reset-password" || path == "funeral-packages" || path == "package-details"
  }

  /** A link navigates exactly when its path is known; only the login screen
      receives a token, and then only a non-empty one. */
  lemma DeepLinkNavigatesIff(path: string, token: Param)
    ensures HandleDeepLink(path, token).Some? <==> KnownPath(path)
    ensures var nav := HandleDeepLink(path, token);
            nav.Some? && nav.value.confirmationToken.Some? ==>
              nav.value.screen == LoginScreen && nav.value.confirmationToken.value != []
  {
  }

  /** The login path passes a non-empty token on and drops an empty or
      missing one. */
  lemma LoginLinkToken(token: Param)
    ensures var t := ConfirmationToken(token);
            HandleDeepLink("login", token) ==
              Some(Navigate(LoginScreen, if t.Some? && t.value != [] then t else None))
  {
  }

  /** The other known paths go to their screens without a token. */
  lemma OtherLinkTargets(token: Param)
    ensures HandleDeepLink("reset-password", token) == Some(Navigate(ResetPasswordScreen, None))
    ensures HandleDeepLink("funeral-packages", token) == Some(Navigate(FuneralPackagesScreen, None))
    ensures HandleDeepLink("package-details", token) == Some(Navigate(PackageDetailsScreen, None))
  {
    assert "reset-password" != "login";
    assert "funeral-packages" != "login" && "funeral-packages" != "reset-password";
    assert "package-details" != "login" && "package-details" != "reset-password";
    assert "package-details" != "funeral-packages";
  }

  /** The screens the navigator registers: the signed-in set; else the
      registration screen; else password recovery; else the login set. */
  function Screens(loggedIn: bool, showRegister: bool, showForgotPassword: bool): seq<Screen> {
    if loggedIn then [MainTabs, FuneralPackagesScreen, PackageDetailsScreen]
    else if showRegister then [RegisterScreen]
    else if showForgotPassword then [ForgotPasswordScreen]
    else [LoginScreen, ResetPasswordScreen, FuneralPackagesScreen, PackageDetailsScreen]
  }

  /** The assistant's overlay is mounted for a signed-in user only. */
  predicate ChatbotMounted(loggedIn: bool) {
    loggedIn
  }

  /** Being signed in decides everything; the registration flag beats the
      recovery flag. */
  lemma ScreensPrecedence(r: bool, f: bool, r2: bool, f2: bool)
    ensures Screens(true, r, f) == Screens(true, r2, f2)
    ensures Screens(false, true, f) == Screens(false, true, f2) == [RegisterScreen]
  {
  }

  /** The assistant is on screen exactly when the tabs are registered. */
  lemma ChatbotWithTabs(loggedIn: bool, r: bool, f: bool)
    ensures ChatbotMounted(loggedIn) <==> MainTabs in Screens(loggedIn, r, f)
  {
  }

  /** The login and reset screens are registered only when neither flag is
      set and nobody is signed in. */
  lemma LoginStackOnly(loggedIn: bool, r: bool, f: bool)
    ensures ResetPasswordScreen in Screens(loggedIn, r, f) <==> !loggedIn && !r && !f
    ensures LoginScreen in Screens(loggedIn, r, f) <==> !loggedIn && !r && !f
  {
  }

  /** Every link target is a screen of the login set; signed in, the links
      to the login and reset screens lead to no registered screen. */
  lemma LinkTargetsRegistered(path: string, token: Param, r: bool, f: bool)
    requires HandleDeepLink(path, token).Some?
    ensures HandleDeepLink(path, token).value.screen in Screens(false, false, false)
    ensures var s := HandleDeepLink(path, token).value.screen;
            s in Screens(true, r, f) <==> s == FuneralPackagesScreen || s == PackageDetailsScreen
  {
  }
}
