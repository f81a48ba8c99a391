/** The password-reset screen opened from the e-mailed link: where it finds
    the reset token, which of its three views it shows, the checks on the
    new password and the colour of its message. The back end's answers are
    parameters. */
module ResetPassword {
  import opened Wrappers
  import opened Text

  /** A link parameter as the app receives it: missing, one string, or the
      list a repeated query parameter becomes. */
  datatype Param = Absent | One(s: string) | Many(items: seq<string>)

  /** JavaScript truthiness of a parameter: a non-empty string, or any list
      (an empty one included). */
  predicate Truthy(p: Param) {
    match p
    case Absent => false
    case One(s) => s != []
    case Many(_) => true
  }

  /** The query of the link the app was opened with, when there is one. */
  datatype Query = Query(accessToken: Param, token: Param)

  /** `Array.isArray(raw) ? raw[0] : raw`; the first of an empty list is
      missing. */
  function FirstOf(p: Param): Param {
    match p
    case Many(items) => if items == [] then Absent else One(items[0])
    case _ => p
  }

  /** The token the screen exchanges: the route's `access_token` when it is
      truthy, else the link's `access_token || token`, first element of a
      list; only a non-empty string is used. */
  function ChooseToken(route: Param, link: Option<Query>): (t: Option<string>)
    ensures t.Some? ==> t.value != []
  {
    var token :=
      if Truthy(route) then route
      else if link.None? then Absent
      else FirstOf(if Truthy(link.value.accessToken) then link.value.accessToken else link.value.token);
    if token.One? && token.s != [] then Some(token.s) else None
  }

  /** The route's token wins whenever it is a non-empty string. */
  lemma RouteTokenFirst(s: string, link: Option<Query>)
    requires s != []
    ensures ChooseToken(One(s), link) == Some(s)
  {
  }

  /** A truthy route parameter that is a list is not looked past: the link
      is ignored and no token is found. */
  lemma RouteListHidesLink(items: seq<string>, link: Option<Query>)
    ensures ChooseToken(Many(items), link).None?
  {
  }

  /** The token a parameter names on its own: a non-empty string, or a
      list whose first element is a non-empty string. */
  function Designated(p: Param): (t: Option<string>)
    ensures t.Some? ==> t.value != [] && (p == One(t.value) || (p.Many? && p.items != [] && p.items[0] == t.value))
  {
    match p
    case Absent => None
    case One(s) => if s != [] then Some(s) else None
    case Many(items) => if items != [] && items[0] != [] then Some(items[0]) else None
  }

  /** Without a truthy route parameter the link decides: its `access_token`
      whenever that is truthy (even when it names no token), else its
      `token`. */
  lemma LinkTokenChosen(route: Param, q: Query)
    requires !Truthy(route)
    ensures Truthy(q.accessToken) ==> ChooseToken(route, Some(q)) == Designated(q.accessToken)
    ensures !Truthy(q.accessToken) ==> ChooseToken(route, Some(q)) == Designated(q.token)
  {
  }

  /** No token without a route parameter and without a link. */
  lemma NoTokenWithoutSource()
    ensures ChooseToken(Absent, None).None?
    ensures ChooseToken(One([]), None).None?
  {
  }

  const InvalidLink := "Invalid or expired reset link. Please request a new one."
  const MissingToken := "Missing reset token. Please request a new link."
  const TooShort := "Password must be at least 6 characters."
  const Mismatch := "Passwords do not match."
  const Done := "Password has been reset! You can now log in."

  /** `handleUpdatePassword`'s checks: the message they give, or `None` when
      the new password may be sent. */
  function PasswordProblem(password: string, confirm: string): (m: Option<string>)
    ensures m.None? <==> Utf16Length(password) >= 6 && password == confirm
    ensures Utf16Length(password) < 6 ==> m == Some(TooShort)
    ensures Utf16Length(password) >= 6 && password != confirm ==> m == Some(Mismatch)
  {
    if Utf16Length(password) < 6 then Some(TooShort)
    else if password != confirm then Some(Mismatch)
    else None
  }

  /** What the screen shows: the token error, a spinner while the session is
      prepared, or the form. */
  datatype View = ErrorView(message: string) | Preparing | FormView

  datatype Colour = Green | Red

  /** The message is green when it mentions "reset" and red otherwise. */
  function MessageColour(message: string): (c: Colour)
    ensures c == Green <==> Includes(message, "reset")
  {
    if Includes(message, "reset") then Green else Red
  }

  /** The success message is green. */
  lemma DoneIsGreen()
    ensures MessageColour(Done) == Green
  {
    assert "reset" <= Done[18..];
  }

  /** The two check messages are red. */
  lemma ProblemsAreRed()
    ensures MessageColour(TooShort) == Red
    ensures MessageColour(Mismatch) == Red
  {
    NotIncludedByMissingChar(Mismatch, "reset", 'e');
    NotIncludedByMissingPair(TooShort, "reset", 0);
  }

  /** The screen's state. */
  class ResetScreen {
    var password: string
    var confirmPassword: string
    var loading: bool
    var message: string
    var sessionReady: bool
    var tokenError: string

    constructor ()
      ensures password == [] && confirmPassword == [] && !loading && message == []
      ensures !sessionReady && tokenError == []
    {
      password, confirmPassword := [], [];
      loading, message := false, [];
      sessionReady, tokenError := false, [];
    }

    /** The view: an error wins over everything, then the spinner until the
        session is ready. */
    function Shown(): (v: View)
      reads this
      ensures v.ErrorView? <==> tokenError != []
      ensures v == FormView <==> tokenError == [] && sessionReady
    {
      if tokenError != [] then ErrorView(tokenError)
      else if !sessionReady then Preparing
      else FormView
    }

    /** The screen's effect on opening: the token found is exchanged for a
        session (`accepted` is the back end's answer); a rejected token or no
        token at all ends in an error. Returns the token exchanged. */
    method Open(route: Param, link: Option<Query>, accepted: bool) returns (exchanged: Option<string>)
      modifies this
      ensures exchanged == ChooseToken(route, link)
      ensures exchanged.None? ==> tokenError == MissingToken && sessionReady == old(sessionReady)
      ensures exchanged.Some? && !accepted ==> tokenError == InvalidLink && sessionReady == old(sessionReady)
      ensures exchanged.Some? && accepted ==> sessionReady && tokenError == old(tokenError)
      ensures exchanged.None? ==> Shown() == ErrorView(MissingToken)
      ensures exchanged.Some? && !accepted ==> Shown() == ErrorView(InvalidLink)
      ensures exchanged.Some? && accepted && old(tokenError) == [] ==> Shown() == FormView
      ensures loading == (old(loading) && exchanged.None?)
      ensures password == old(password) && confirmPassword == old(confirmPassword) && message == old(message)
    {
      exchanged := ChooseToken(route, link);
      if exchanged.Some? {
        loading := true;
        loading := false;
        if !accepted {
          tokenError := InvalidLink;
        } else {
          sessionReady := true;
        }
      } else {
        tokenError := MissingToken;
      }
    }

    method PasswordChange(value: string)
      modifies this
      ensures password == value && confirmPassword == old(confirmPassword) && message == old(message)
      ensures sessionReady == old(sessionReady) && tokenError == old(tokenError) && loading == old(loading)
    {
      password := value;
    }

    method ConfirmPasswordChange(value: string)
      modifies this
      ensures confirmPassword == value && password == old(password) && message == old(message)
      ensures sessionReady == old(sessionReady) && tokenError == old(tokenError) && loading == old(loading)
    {
      confirmPassword := value;
    }

    /** `handleUpdatePassword`: a password that fails the checks only sets
        their message; otherwise it is sent and the message is the back
        end's error or the success text. Returns whether it was sent. */
    method UpdatePassword(failure: Option<string>) returns (sent: bool)
      modifies this
      ensures sent <==> PasswordProblem(old(password), old(confirmPassword)).None?
      ensures !sent ==> Some(message) == PasswordProblem(password, confirmPassword) && loading == old(loading)
      ensures sent ==> message == (if failure.Some? then failure.value else Done) && !loading
      ensures sent && failure.None? ==> MessageColour(message) == Green
      ensures password == old(password) && confirmPassword == old(confirmPassword)
      ensures sessionReady == old(sessionReady) && tokenError == old(tokenError)
    {
      message := [];
      if Utf16Length(password) < 6 {
        message := TooShort;
        return false;
      }
      if password != confirmPassword {
        message := Mismatch;
        return false;
      }
      sent := true;
      loading := true;
      loading := false;
      if failure.Some? {
        message := failure.value;
      } else {
        message := Done;
        DoneIsGreen();
      }
    }
  }
}
