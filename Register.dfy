/** The registration screen: four fields checked together when the user
    presses Register, the sign-up that follows only for a clean form, and
    the per-field error clearing while typing. The back end's answers are
    parameters. */
module Register {
  import opened Wrappers
  import opened Email
  import opened Text

  /** An error per field; `None` is a field without a message. */
  datatype RegisterErrors = RegisterErrors(
    name: Option<string>,
    email: Option<string>,
    password: Option<string>,
    confirmPassword: Option<string>)

  const NoErrors := RegisterErrors(None, None, None, None)

  const NameMissing := "Please provide your name"
  const EmailMissing := "Please provide your email"
  const EmailInvalid := "Please enter a valid email"
  const PasswordMissing := "Please provide a password"
  const PasswordShort := "Password should be at least 6 characters long."
  const ConfirmMissing := "Please confirm your password"
  const PasswordsDiffer := "Passwords do not match"
  const AlreadyRegistered := "This email is already registered. Please use a different email."
  const NoUserData := "No user data returned"
  const Unexpected := "An unexpected error occurred"
  const DomainHint := "Email should contain @ and a valid domain"

  /** The errors `handleRegister` finds; only the first failing check of a
      field sets its message. */
  function RegisterErrorsOf(name: string, email: string, password: string, confirm: string): (e: RegisterErrors)
    ensures e.name.Some? <==> name == []
    ensures e.email == if email == [] then Some(EmailMissing)
                       else if !ValidEmail(email) then Some(EmailInvalid) else None
  {
    RegisterErrors(
      if name == [] then Some(NameMissing) else None,
      if email == [] then Some(EmailMissing) else if !ValidEmail(email) then Some(EmailInvalid) else None,
      if password == [] then Some(PasswordMissing) else if Utf16Length(password) < 6 then Some(PasswordShort) else None,
      if confirm == [] then Some(ConfirmMissing) else if password != confirm then Some(PasswordsDiffer) else None)
  }

  /** The form is clean exactly when the name is present, the e-mail valid,
      the password at least six UTF-16 code units long and confirmed. */
  lemma RegisterErrorsClearIff(name: string, email: string, password: string, confirm: string)
    ensures RegisterErrorsOf(name, email, password, confirm) == NoErrors <==>
              name != [] && ValidEmail(email) && Utf16Length(password) >= 6 && confirm == password
  {
  }

  /** The name is only checked for emptiness: a name of spaces passes. */
  lemma BlankNamePasses(email: string, password: string, confirm: string)
    ensures RegisterErrorsOf(" ", email, password, confirm).name == None
  {
  }

  /** The password's messages: missing, then too short. */
  lemma PasswordMessages(name: string, email: string, password: string, confirm: string)
    ensures var e := RegisterErrorsOf(name, email, password, confirm);
            && (password == [] ==> e.password == Some(PasswordMissing))
            && (password != [] && Utf16Length(password) < 6 ==> e.password == Some(PasswordShort))
            && (Utf16Length(password) >= 6 ==> e.password == None)
  {
  }

  /** Length is counted in UTF-16 code units: three astral characters make
      a long enough password. */
  lemma AstralPasswordLongEnough(name: string, email: string, confirm: string)
    ensures RegisterErrorsOf(name, email, "\U{1F600}\U{1F600}\U{1F600}", confirm).password == None
  {
  }

  /** The confirmation's messages: missing, then different. */
  lemma ConfirmMessages(name: string, email: string, password: string, confirm: string)
    ensures var e := RegisterErrorsOf(name, email, password, confirm);
            && (confirm == [] ==> e.confirmPassword == Some(ConfirmMissing))
            && (confirm != [] && confirm != password ==> e.confirmPassword == Some(PasswordsDiffer))
            && (confirm != [] && confirm == password ==> e.confirmPassword == None)
  {
  }

  /** What the back end says about a sign-up. */
  datatype SignUpResult = SignUpError(message: string) | NoUser | SignedUp | Threw

  datatype MessageKind = ErrorMessage | SuccessMessage

  /** The banner above the form. */
  datatype Banner = Banner(text: string, kind: Option<MessageKind>)

  const NoBanner := Banner([], None)

  /** A field's error after its text changes: a message that is showing is
      removed, anything else stays. */
  function Cleared(e: Option<string>): Option<string> {
    if e.Some? && e.value != [] then None else e
  }

  /** The registration screen's state. */
  class RegisterScreen {
    var name: string
    var email: string
    var password: string
    var confirmPassword: string
    var errors: RegisterErrors
    var banner: Banner
    var emailSentModal: bool
    var modalVisible: bool
    var modalMessage: string

    constructor ()
      ensures name == [] && email == [] && password == [] && confirmPassword == []
      ensures errors == NoErrors && banner == NoBanner
      ensures !emailSentModal && !modalVisible && modalMessage == []
    {
      name, email, password, confirmPassword := [], [], [], [];
      errors := NoErrors;
      banner := NoBanner;
      emailSentModal, modalVisible, modalMessage := false, false, [];
    }

    /** `handleRegister`. The checks' errors replace the old ones; only a
        clean form reaches the back end, first the look-up of the e-mail
        (`existing`), then the sign-up. On success the confirmation dialog
        opens and the e-mail is handed to the app (`registered`). */
    method HandleRegister(existing: bool, result: SignUpResult) returns (consulted: bool, registered: Option<string>)
      modifies this
      ensures consulted <==> RegisterErrorsOf(old(name), old(email), old(password), old(confirmPassword)) == NoErrors
      ensures !consulted ==>
                && errors == RegisterErrorsOf(name, email, password, confirmPassword)
                && registered.None? && banner == old(banner)
                && emailSentModal == old(emailSentModal) && modalVisible == old(modalVisible)
      ensures consulted && existing ==>
                && errors == NoErrors.(email := Some(AlreadyRegistered))
                && modalVisible && modalMessage == AlreadyRegistered
                && registered.None? && banner == old(banner) && emailSentModal == old(emailSentModal)
      ensures consulted && !existing ==>
                match result
                case SignUpError(m) => banner == Banner(m, Some(ErrorMessage)) && registered.None? && errors == NoErrors
                                       && emailSentModal == old(emailSentModal)
                case NoUser => banner == Banner(NoUserData, Some(ErrorMessage)) && registered.None? && errors == NoErrors
                               && emailSentModal == old(emailSentModal)
                case Threw => banner == Banner(Unexpected, Some(ErrorMessage)) && registered.None? && errors == NoErrors
                              && emailSentModal == old(emailSentModal)
                case SignedUp => banner == NoBanner && registered == Some(email) && emailSentModal && errors == NoErrors
      ensures !(consulted && existing) ==> modalVisible == old(modalVisible) && modalMessage == old(modalMessage)
      ensures name == old(name) && email == old(email) && password == old(password) && confirmPassword == old(confirmPassword)
    {
      var found := RegisterErrors(None, None, None, None);
      if name == [] {
        found := found.(name := Some(NameMissing));
      }
      if email == [] {
        found := found.(email := Some(EmailMissing));
      } else if !ValidEmail(email) {
        found := found.(email := Some(EmailInvalid));
      }
      if password == [] {
        found := found.(password := Some(PasswordMissing));
      } else if Utf16Length(password) < 6 {
        found := found.(password := Some(PasswordShort));
      }
      if confirmPassword == [] {
        found := found.(confirmPassword := Some(ConfirmMissing));
      } else if password != confirmPassword {
        found := found.(confirmPassword := Some(PasswordsDiffer));
      }
      errors := found;
      registered := None;
      if found != NoErrors {
        return false, None;
      }
      consulted := true;
      if existing {
        errors := errors.(email := Some(AlreadyRegistered));
        modalMessage := AlreadyRegistered;
        modalVisible := true;
        return;
      }
      match result {
        case SignUpError(m) =>
          banner := Banner(m, Some(ErrorMessage));
        case NoUser =>
          banner := Banner(NoUserData, Some(ErrorMessage));
        case Threw =>
          banner := Banner(Unexpected, Some(ErrorMessage));
        case SignedUp =>
          emailSentModal := true;
          registered := Some(email);
          errors := NoErrors;
          banner := NoBanner;
      }
    }

    method NameChange(value: string)
      modifies this
      ensures name == value && errors == old(errors).(name := Cleared(old(errors).name))
      ensures email == old(email) && password == old(password) && confirmPassword == old(confirmPassword)
      ensures banner == old(banner) && modalVisible == old(modalVisible)
      ensures emailSentModal == old(emailSentModal) && modalMessage == old(modalMessage)
    {
      name := value;
      if errors.name.Some? && errors.name.value != [] {
        errors := errors.(name := None);
      }
    }

    method EmailChange(value: string)
      modifies this
      ensures email == value && errors == old(errors).(email := Cleared(old(errors).email))
      ensures name == old(name) && password == old(password) && confirmPassword == old(confirmPassword)
      ensures banner == old(banner) && modalVisible == old(modalVisible)
      ensures emailSentModal == old(emailSentModal) && modalMessage == old(modalMessage)
    {
      email := value;
      if errors.email.Some? && errors.email.value != [] {
        errors := errors.(email := None);
      }
    }

    method PasswordChange(value: string)
      modifies this
      ensures password == value && errors == old(errors).(password := Cleared(old(errors).password))
      ensures name == old(name) && email == old(email) && confirmPassword == old(confirmPassword)
      ensures banner == old(banner) && modalVisible == old(modalVisible)
      ensures emailSentModal == old(emailSentModal) && modalMessage == old(modalMessage)
    {
      password := value;
      if errors.password.Some? && errors.password.value != [] {
        errors := errors.(password := None);
      }
    }

    method ConfirmPasswordChange(value: string)
      modifies this
      ensures confirmPassword == value
      ensures errors == old(errors).(confirmPassword := Cleared(old(errors).confirmPassword))
      ensures name == old(name) && email == old(email) && password == old(password)
      ensures banner == old(banner) && modalVisible == old(modalVisible)
      ensures emailSentModal == old(emailSentModal) && modalMessage == old(modalMessage)
    {
      confirmPassword := value;
      if errors.confirmPassword.Some? && errors.confirmPassword.value != [] {
        errors := errors.(confirmPassword := None);
      }
    }

    /** Leaving the e-mail field with a non-empty invalid address shows the
        domain hint; nothing else changes. */
    method EmailBlur()
      modifies this
      ensures errors == if old(email) != [] && !ValidEmail(old(email))
                        then old(errors).(email := Some(DomainHint)) else old(errors)
      ensures name == old(name) && email == old(email) && password == old(password)
      ensures confirmPassword == old(confirmPassword) && banner == old(banner) && modalVisible == old(modalVisible)
      ensures emailSentModal == old(emailSentModal) && modalMessage == old(modalMessage)
    {
      if email != [] && !ValidEmail(email) {
        errors := errors.(email := Some(DomainHint));
      }
    }
  }
}
