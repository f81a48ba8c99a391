/** The login screen: the e-mail and password checks, the sign-in that
    follows only when both pass, and the chain of outcomes that ends in the
    app's logged-in state only for a confirmed user. The back end's answer
    is a parameter. */
module Login {
  import opened Wrappers
  import opened Email

  datatype LoginErrors = LoginErrors(email: Option<string>, password: Option<string>)

  const NoErrors := LoginErrors(None, None)

  const EmailInvalid := "Please enter a valid email"
  const PasswordMissing := "Please enter your password"
  const BadCredentials := "Invalid email or password"
  const NoUserData := "No user data returned"
  const Unverified := "Please verify your email before logging in."
  const Unexpected := "An unexpected error occurred"
  const Welcome := "Login successful!"
  const DomainHint := "Email should contain @ and a valid domain"

  /** The errors `handleLogin` finds. An empty e-mail is simply invalid. */
  function LoginErrorsOf(email: string, password: string): (e: LoginErrors)
    ensures e.email.Some? <==> !ValidEmail(email)
    ensures e.password.Some? <==> password == []
  {
    LoginErrors(if !ValidEmail(email) then Some(EmailInvalid) else None,
                if password == [] then Some(PasswordMissing) else None)
  }

  /** The form is clean exactly for a valid e-mail and a non-empty password. */
  lemma LoginErrorsClearIff(email: string, password: string)
    ensures LoginErrorsOf(email, password) == NoErrors <==> ValidEmail(email) && password != []
  {
  }

  /** An empty e-mail gets the invalid-address message, not a separate one. */
  lemma EmptyEmailInvalid(password: string)
    ensures LoginErrorsOf([], password).email == Some(EmailInvalid)
  {
    assert !ValidEmail([]);
  }

  /** What the back end says about a sign-in. */
  datatype SignInResult =
    | SignInError(message: string)
    | NoUser
    | Unconfirmed
    | Confirmed
    | Threw

  /** The dialog text for a sign-in that did not log the user in, or `None`
      for a confirmed user. An error with an empty message falls back to the
      generic one. */
  function Refusal(r: SignInResult): (m: Option<string>)
    ensures m.None? <==> r.Confirmed?
    ensures m.Some? ==> m.value != []
  {
    match r
    case SignInError(msg) => Some(if msg != [] then msg else BadCredentials)
    case NoUser => Some(NoUserData)
    case Unconfirmed => Some(Unverified)
    case Threw => Some(Unexpected)
    case Confirmed => None
  }

  datatype MessageKind = ErrorMessage | SuccessMessage

  datatype Banner = Banner(text: string, kind: Option<MessageKind>)

  const NoBanner := Banner([], None)

  /** The login screen's state; `loggedIn` and `appEmail` stand for the
      app-wide state the screen sets. */
  class LoginScreen {
    var email: string
    var password: string
    var errors: LoginErrors
    var banner: Banner
    var modalError: string
    var modalVisible: bool
    var loggedIn: bool
    var appEmail: string

    constructor ()
      ensures email == [] && password == [] && errors == NoErrors && banner == NoBanner
      ensures modalError == [] && !modalVisible && !loggedIn && appEmail == []
    {
      email, password := [], [];
      errors := NoErrors;
      banner := NoBanner;
      modalError, modalVisible := [], false;
      loggedIn, appEmail := false, [];
    }

    /** `handleLogin`: the checks' errors replace the old ones; a clean form
        is sent to the back end. A confirmed user is logged in with the typed
        e-mail; every other answer opens the dialog with its message. */
    method HandleLogin(result: SignInResult) returns (consulted: bool)
      modifies this
      ensures consulted <==> LoginErrorsOf(old(email), old(password)) == NoErrors
      ensures !consulted ==> errors == LoginErrorsOf(email, password)
      ensures loggedIn <==> old(loggedIn) || (consulted && result.Confirmed?)
      ensures consulted && result.Confirmed? ==>
                appEmail == email && errors == NoErrors && banner == Banner(Welcome, Some(SuccessMessage))
                && modalVisible == old(modalVisible) && modalError == old(modalError)
      ensures consulted && !result.Confirmed? ==>
                modalVisible && modalError == Refusal(result).value && errors == NoErrors
                && appEmail == old(appEmail) && banner == old(banner)
      ensures !consulted ==>
                modalVisible == old(modalVisible) && modalError == old(modalError)
                && appEmail == old(appEmail) && banner == old(banner)
      ensures email == old(email) && password == old(password)
    {
      var found := LoginErrors(None, None);
      if !ValidEmail(email) {
        found := found.(email := Some(EmailInvalid));
      }
      if password == [] {
        found := found.(password := Some(PasswordMissing));
      }
      errors := found;
      if found != NoErrors {
        return false;
      }
      consulted := true;
      match result {
        case SignInError(msg) =>
          modalError := if msg != [] then msg else BadCredentials;
          modalVisible := true;
        case NoUser =>
          modalError := NoUserData;
          modalVisible := true;
        case Unconfirmed =>
          modalError := Unverified;
          modalVisible := true;
        case Threw =>
          modalError := Unexpected;
          modalVisible := true;
        case Confirmed =>
          appEmail := email;
          loggedIn := true;
          errors := NoErrors;
          banner := Banner(Welcome, Some(SuccessMessage));
      }
    }

    /** Typing an e-mail removes a showing e-mail error. */
    method EmailChange(value: string)
      modifies this
      ensures email == value && password == old(password)
      ensures errors == if old(errors).email.Some? && old(errors).email.value != []
                        then old(errors).(email := None) else old(errors)
      ensures loggedIn == old(loggedIn) && modalVisible == old(modalVisible) && banner == old(banner)
      ensures modalError == old(modalError) && appEmail == old(appEmail)
    {
      email := value;
      if errors.email.Some? && errors.email.value != [] {
        errors := errors.(email := None);
      }
    }

    /** Typing a password removes a showing password error. */
    method PasswordChange(value: string)
      modifies this
      ensures password == value && email == old(email)
      ensures errors == if old(errors).password.Some? && old(errors).password.value != []
                        then old(errors).(password := None) else old(errors)
      ensures loggedIn == old(loggedIn) && modalVisible == old(modalVisible) && banner == old(banner)
      ensures modalError == old(modalError) && appEmail == old(appEmail)
    {
      password := value;
      if errors.password.Some? && errors.password.value != [] {
        errors := errors.(password := None);
      }
    }

    /** Leaving the e-mail field with a non-empty invalid address shows the
        domain hint. */
    method EmailBlur()
      modifies this
      ensures errors == if old(email) != [] && !ValidEmail(old(email))
                        then old(errors).(email := Some(DomainHint)) else old(errors)
      ensures email == old(email) && password == old(password)
      ensures loggedIn == old(loggedIn) && modalVisible == old(modalVisible) && banner == old(banner)
      ensures modalError == old(modalError) && appEmail == old(appEmail)
    {
      if email != [] && !ValidEmail(email) {
        errors := errors.(email := Some(DomainHint));
      }
    }
  }
}
