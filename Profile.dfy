/** The profile screen: the initials shown in the avatar, and the editing
    of the name and e-mail, with the save button enabled only for a valid
    change. The back end's answers are parameters. */
module Profile {
  import opened Wrappers
  import opened Text
  import opened Email

  /** A trimmed string: no whitespace at either end. */
  predicate Trimmed(t: string) {
    t == [] || (!IsWhitespace(t[0]) && !IsWhitespace(t[|t| - 1]))
  }

  /** Splitting a trimmed non-empty string on spaces: the first part starts
      with its first character and the last part is not empty. */
  lemma SplitTrimmedEnds(t: string)
    requires t != [] && Trimmed(t)
    ensures var parts := Split(t, ' ');
            parts[0] != [] && parts[0][0] == t[0] && parts[|parts| - 1] != []
  {
    var parts := Split(t, ' ');
    JoinFirst(parts, ' ', t);
    if |parts| >= 2 {
      JoinLast(parts, ' ');
    }
  }

  /** The initials of a trimmed name: nothing if it is empty; for one word,
      its first letter; otherwise the first letters of the first and last
      words. Words are separated by single spaces. */
  function WordInitials(t: string): (r: string)
    requires Trimmed(t)
  {
    var parts := Split(t, ' ');
    if |parts| == 1 then
      if parts[0] == [] then [] else [UpperChar(parts[0][0])]
    else
      SplitTrimmedEnds(t);
      [UpperChar(parts[0][0]), UpperChar(parts[|parts| - 1][0])]
  }

  /** `getInitials`: nothing for an empty name, else the initials of the
      trimmed name. */
  function Initials(name: string): (r: string)
  {
    if name == [] then [] else WordInitials(Trim(name))
  }

  /** The initials are empty exactly for a blank name. */
  lemma InitialsBlank(name: string)
    ensures Initials(name) == [] <==> AllWhitespace(name)
  {
    TrimEmptyIff(name);
    var t := Trim(name);
    if t != [] {
      SplitTrimmedEnds(t);
    }
  }

  /** A trimmed name without a space gives one letter, its first. */
  lemma InitialsOneWord(name: string)
    requires Trim(name) != [] && ' ' !in Trim(name)
    ensures Initials(name) == [UpperChar(Trim(name)[0])]
  {
    SplitTrimmedEnds(Trim(name));
  }

  /** The second initial of a trimmed name with a space is the letter after
      its last space. */
  lemma WordInitialsLast(t: string) returns (k: nat)
    requires Trimmed(t) && ' ' in t
    ensures k < |t| - 1 && t[k] == ' ' && ' ' !in t[k + 1..]
    ensures |WordInitials(t)| == 2 && WordInitials(t)[1] == UpperChar(t[k + 1])
  {
    var parts := Split(t, ' ');
    SplitTrimmedEnds(t);
    JoinLast(parts, ' ');
    var last := parts[|parts| - 1];
    k := |t| - |last| - 1;
    assert t[k + 1..] == last;
    assert t[k + 1] == last[0];
  }

  /** A trimmed name with a space gives two letters: its first, and the one
      after its last space. */
  lemma WordInitialsTwoWords(t: string)
    requires Trimmed(t) && ' ' in t
    ensures var r := WordInitials(t);
            && |r| == 2 && r[0] == UpperChar(t[0])
            && exists k :: 0 <= k < |t| - 1 && t[k] == ' ' && ' ' !in t[k + 1..] && r[1] == UpperChar(t[k + 1])
  {
    SplitTrimmedEnds(t);
    var k := WordInitialsLast(t);
  }

  lemma InitialsTwoWords(name: string)
    requires ' ' in Trim(name)
    ensures var t := Trim(name);
            && |Initials(name)| == 2 && Initials(name)[0] == UpperChar(t[0])
            && exists k :: 0 <= k < |t| - 1 && t[k] == ' ' && ' ' !in t[k + 1..]
                           && Initials(name)[1] == UpperChar(t[k + 1])
  {
    WordInitialsTwoWords(Trim(name));
  }

  /** At most two letters. */
  lemma InitialsShort(name: string)
    ensures |Initials(name)| <= 2
  {
  }

  /** `hasChanges` on values: the trimmed inputs differ from the trimmed
      originals. */
  predicate Changed(name: string, email: string, originalName: string, originalEmail: string) {
    Trim(name) != Trim(originalName) || Trim(email) != Trim(originalEmail)
  }

  /** `isValidInput` on values: a non-blank name and a valid trimmed e-mail. */
  predicate ValidInput(name: string, email: string) {
    |Trim(name)| > 0 && |Trim(email)| > 0 && ValidEmail(Trim(email))
  }

  /** Inputs saved as their trimmed selves leave nothing to save. */
  lemma SavedIsUnchanged(name: string, email: string)
    ensures !Changed(name, email, Trim(name), Trim(email))
  {
    TrimIdempotent(name);
    TrimIdempotent(email);
  }

  /** A pop-up alert: its title and its message. */
  datatype Alert = Alert(title: string, message: string)

  const InvalidInput := Alert("Invalid Input", "Please check your name and email address.")
  const UpdateFailedTitle := "Update Failed"
  const UpdateFailedDefault := "Unable to update profile. Please try again."
  const NoName := "No name provided"

  /** What the back end says about an update. */
  datatype UpdateResult = Updated | UpdateError(message: string)

  /** The alert of a failed update; an empty message falls back to the
      generic one. */
  function FailureAlert(message: string): (a: Alert)
    ensures a.title == UpdateFailedTitle && a.message != []
    ensures message != [] ==> a.message == message
  {
    Alert(UpdateFailedTitle, if message != [] then message else UpdateFailedDefault)
  }

  /** The profile screen's state: the data shown, the edit fields and the
      values they are compared with. */
  class ProfileScreen {
    const initialEmail: string
    var userName: string
    var userEmail: string
    var isEditing: bool
    var nameInput: string
    var emailInput: string
    var originalName: string
    var originalEmail: string
    var isSaving: bool

    constructor (email: string)
      ensures initialEmail == email && userName == [] && userEmail == email
      ensures !isEditing && nameInput == [] && emailInput == email
      ensures originalName == [] && originalEmail == email && !isSaving
    {
      initialEmail := email;
      userName, userEmail := [], email;
      isEditing := false;
      nameInput, emailInput := [], email;
      originalName, originalEmail := [], email;
      isSaving := false;
    }

    /** `hasChanges`: the trimmed inputs differ from the trimmed originals. */
    predicate HasChanges()
      reads this
    {
      Changed(nameInput, emailInput, originalName, originalEmail)
    }

    /** `isValidInput`: a non-blank name and a valid trimmed e-mail. */
    predicate IsValidInput()
      reads this
    {
      ValidInput(nameInput, emailInput)
    }

    /** `isSaveEnabled`. */
    predicate IsSaveEnabled()
      reads this
    {
      HasChanges() && IsValidInput() && !isSaving
    }

    /** A blank name or an e-mail the check rejects keeps the save button
        disabled, whatever else changed. */
    lemma SaveNeedsValidEmail()
      ensures IsSaveEnabled() ==> Trim(nameInput) != [] && EmailShape(Trim(emailInput))
    {
      ValidEmailShape(Trim(emailInput));
    }

    /** The signed-in user's data arrives: the name (the metadata's full
        name, or a placeholder when it has none) and the e-mail (the
        account's, or the one the screen was opened with) fill the shown
        data, the inputs and the originals. */
    method UserLoaded(fullName: string, accountEmail: string)
      modifies this
      ensures var n := if fullName != [] then fullName else NoName;
              var e := if accountEmail != [] then accountEmail else initialEmail;
              && userName == n && nameInput == n && originalName == n
              && userEmail == e && emailInput == e && originalEmail == e
      ensures isEditing == old(isEditing) && isSaving == old(isSaving)
      ensures !HasChanges()
    {
      var n := if fullName != [] then fullName else NoName;
      var e := if accountEmail != [] then accountEmail else initialEmail;
      userName, nameInput, originalName := n, n, n;
      userEmail, emailInput, originalEmail := e, e, e;
    }

    method StartEditing()
      modifies this
      ensures isEditing
      ensures nameInput == old(nameInput) && emailInput == old(emailInput)
      ensures originalName == old(originalName) && originalEmail == old(originalEmail)
      ensures userName == old(userName) && userEmail == old(userEmail) && isSaving == old(isSaving)
    {
      isEditing := true;
    }

    method NameInputChange(value: string)
      modifies this
      ensures nameInput == value && emailInput == old(emailInput)
      ensures originalName == old(originalName) && originalEmail == old(originalEmail)
      ensures userName == old(userName) && userEmail == old(userEmail)
      ensures isEditing == old(isEditing) && isSaving == old(isSaving)
    {
      nameInput := value;
    }

    method EmailInputChange(value: string)
      modifies this
      ensures emailInput == value && nameInput == old(nameInput)
      ensures originalName == old(originalName) && originalEmail == old(originalEmail)
      ensures userName == old(userName) && userEmail == old(userEmail)
      ensures isEditing == old(isEditing) && isSaving == old(isSaving)
    {
      emailInput := value;
    }

    /** `cancelEditing`: the inputs return to the originals and editing
        ends; afterwards nothing is changed. */
    method CancelEditing()
      modifies this
      ensures nameInput == originalName == old(originalName)
      ensures emailInput == originalEmail == old(originalEmail)
      ensures !isEditing && !HasChanges()
      ensures userName == old(userName) && userEmail == old(userEmail) && isSaving == old(isSaving)
    {
      nameInput := originalName;
      emailInput := originalEmail;
      isEditing := false;
    }

    /** The update of a valid edit, whose trimmed values are sent: on
        success they become the shown data and the originals and editing
        ends, so nothing is left to save; on failure an alert says why and
        nothing else changes. The saving flag is down again at the end. */
    method Save(result: UpdateResult) returns (alert: Option<Alert>)
      modifies this
      ensures result.Updated? ==>
                && alert.None? && !isEditing
                && userName == originalName == Trim(old(nameInput))
                && userEmail == originalEmail == Trim(old(emailInput))
                && !HasChanges()
      ensures result.UpdateError? ==>
                && alert == Some(FailureAlert(result.message))
                && userName == old(userName) && userEmail == old(userEmail)
                && originalName == old(originalName) && originalEmail == old(originalEmail)
                && isEditing == old(isEditing)
      ensures !isSaving && nameInput == old(nameInput) && emailInput == old(emailInput)
    {
      isSaving := true;
      match result {
        case UpdateError(m) =>
          alert := Some(FailureAlert(m));
        case Updated =>
          var newName := Trim(nameInput);
          var newEmail := Trim(emailInput);
          SavedIsUnchanged(nameInput, emailInput);
          userName, userEmail := newName, newEmail;
          originalName, originalEmail := newName, newEmail;
          isEditing := false;
          alert := None;
      }
      isSaving := false;
    }

    /** `handleSaveProfile`: invalid input only raises an alert; a valid
        edit is saved. */
    method HandleSaveProfile(result: UpdateResult) returns (alert: Option<Alert>)
      modifies this
      ensures !old(IsValidInput()) ==>
                && alert == Some(InvalidInput) && isSaving == old(isSaving)
                && userName == old(userName) && userEmail == old(userEmail)
                && originalName == old(originalName) && originalEmail == old(originalEmail)
                && isEditing == old(isEditing)
      ensures old(IsValidInput()) && result.Updated? ==>
                && alert.None? && !isSaving && !isEditing
                && userName == originalName == Trim(old(nameInput))
                && userEmail == originalEmail == Trim(old(emailInput))
                && !HasChanges()
      ensures old(IsValidInput()) && result.UpdateError? ==>
                && alert == Some(FailureAlert(result.message)) && !isSaving
                && userName == old(userName) && userEmail == old(userEmail)
                && originalName == old(originalName) && originalEmail == old(originalEmail)
                && isEditing == old(isEditing)
      ensures nameInput == old(nameInput) && emailInput == old(emailInput)
    {
      if IsValidInput() {
        alert := Save(result);
      } else {
        alert := Some(InvalidInput);
      }
    }
  }
}
