/** The booking form: the details of the deceased and of the contact person,
    checked field by field as they are typed, checked all together before
    the user moves on to the package list. Dates are calendar days; the
    clock is a parameter. */
module Booking {
  import opened Wrappers
  import opened Text
  import opened Email

  datatype Date = Date(year: int, month: nat, day: nat)

  /** Calendar order of days, as the form compares them. */
  predicate OnOrBefore(a: Date, b: Date) {
    a.year < b.year || (a.year == b.year && (a.month < b.month || (a.month == b.month && a.day <= b.day)))
  }

  // ---------------------------------------------------------------------
  // Age

  /** The day `n` years after `d`, same month and day. */
  function Anniversary(d: Date, n: int): Date {
    Date(d.year + n, d.month, d.day)
  }

  /** `calculateAge`: the year difference, one less when this year's
      birthday is still ahead. It is the number of birthdays reached. */
  function WholeYears(dob: Date, today: Date): (n: int)
    ensures OnOrBefore(Anniversary(dob, n), today)
    ensures !OnOrBefore(Anniversary(dob, n + 1), today)
  {
    var age := today.year - dob.year;
    var m := today.month - dob.month;
    if m < 0 || (m == 0 && today.day < dob.day) then age - 1 else age
  }

  /** The age shown next to the date of birth: nothing without a date, and
      nothing for an age outside `[0, 200)`. */
  function AgeDisplay(dob: Option<Date>, today: Date): (shown: string)
    ensures dob.None? ==> shown == []
    ensures dob.Some? && 0 <= WholeYears(dob.value, today) < 200 ==>
              shown == Numeral(WholeYears(dob.value, today))
    ensures dob.Some? && !(0 <= WholeYears(dob.value, today) < 200) ==> shown == []
  {
    if dob.None? then []
    else
      var age := WholeYears(dob.value, today);
      if 0 <= age < 200 then Numeral(age) else []
  }

  /** A birth date after today shows no age. */
  lemma NoAgeBeforeBirth(dob: Date, today: Date)
    requires !OnOrBefore(dob, today)
    ensures AgeDisplay(Some(dob), today) == []
  {
    if WholeYears(dob, today) >= 0 {
      AnniversaryMonotone(dob, 0, WholeYears(dob, today), today);
    }
  }

  /** Reaching a later birthday means having reached the earlier ones. */
  lemma AnniversaryMonotone(d: Date, i: int, j: int, today: Date)
    requires i <= j && OnOrBefore(Anniversary(d, j), today)
    ensures OnOrBefore(Anniversary(d, i), today)
  {
  }

  // ---------------------------------------------------------------------
  // Phone

  const PhonePrefix := "+63"
  const PhoneError := "Phone must start with +63 and be 10 digits"

  /** `/^\+63\d{10}$/`: `+63` and ten ASCII digits, nothing else. */
  predicate IsValidPhone(s: string) {
    |s| == 13 && StartsWith(s, PhonePrefix) && AllDigits(s[3..])
  }

  /** What the phone field may hold: `+63` and at most ten digits. */
  predicate PhoneShape(s: string) {
    |s| <= 13 && StartsWith(s, PhonePrefix) && AllDigits(s[3..])
  }

  /** The digits the phone handler keeps: those after a leading `+63`, or
      those of the whole input when it does not start so, at most ten. */
  function KeptDigits(input: string): (ds: string)
    ensures AllDigits(ds) && |ds| <= 10
  {
    if StartsWith(input, PhonePrefix) then Take(Digits(input[3..]), 10) else Take(Digits(input), 10)
  }

  /** The stored phone after `handlePhoneChange(input)`: `+63` alone for an
      input shorter than three UTF-16 code units, else `+63` and the kept
      digits. */
  function NormalizePhone(input: string): (stored: string)
    ensures PhoneShape(stored)
  {
    if Utf16Length(input) < 3 then PhonePrefix else PhonePrefix + KeptDigits(input)
  }

  /** After a leading `+63`, the stored phone is `+63` and the first ten
      ASCII digits of the rest, in order. */
  lemma NormalizeWithPrefix(w: string)
    ensures NormalizePhone(PhonePrefix + w) == PhonePrefix + Take(Digits(w), 10)
  {
    var input := PhonePrefix + w;
    assert StartsWith(input, PhonePrefix) && input[3..] == w;
    assert Utf16Length(input) >= |input| >= 3;
  }

  /** Without a leading `+63`, a long enough input is stored as `+63` and the
      first ten ASCII digits of the whole input, in order. */
  lemma NormalizeWithoutPrefix(input: string)
    requires Utf16Length(input) >= 3 && !StartsWith(input, PhonePrefix)
    ensures NormalizePhone(input) == PhonePrefix + Take(Digits(input), 10)
  {
  }

  /** The phone error after `handlePhoneChange(input)`. */
  function PhoneErrorOf(input: string): string {
    if Utf16Length(input) < 3 || !IsValidPhone(NormalizePhone(input)) then PhoneError else []
  }

  /** The phone error is clear exactly when ten digits were kept. */
  lemma PhoneErrorClearIff(input: string)
    ensures PhoneErrorOf(input) == [] <==> Utf16Length(input) >= 3 && |KeptDigits(input)| == 10
  {
    if Utf16Length(input) >= 3 {
      var stored := NormalizePhone(input);
      assert stored[3..] == KeptDigits(input);
    }
  }

  /** The length test counts UTF-16 code units: an emoji and a digit are
      long enough, and the digit is kept. */
  lemma AstralPhoneKept()
    ensures NormalizePhone("\U{1F600}1") == "+631"
  {
    assert Digits("\U{1F600}1") == "1";
  }

  /** A stored phone fed back in is kept as it is: normalising is idempotent. */
  lemma NormalizeKeepsShape(s: string)
    requires PhoneShape(s)
    ensures NormalizePhone(s) == s
  {
    assert s == PhonePrefix + s[3..];
    assert StartsWith(s, PhonePrefix);
    assert Digits(s[3..]) == s[3..];
  }

  lemma NormalizeIdempotent(input: string)
    ensures NormalizePhone(NormalizePhone(input)) == NormalizePhone(input)
  {
    NormalizeKeepsShape(NormalizePhone(input));
  }

  /** Every valid phone is a stored phone, so typing it keeps it unchanged
      and clears the error. */
  lemma ValidPhoneKept(s: string)
    requires IsValidPhone(s)
    ensures NormalizePhone(s) == s && PhoneErrorOf(s) == []
  {
    NormalizeKeepsShape(s);
  }

  // ---------------------------------------------------------------------
  // The form

  datatype Form = Form(
    deceasedName: string,
    dateOfBirth: Option<Date>,
    dateOfPassing: Option<Date>,
    placeOfPassing: string,
    contactName: string,
    contactPhone: string,
    contactEmail: string)

  /** One message per field; the empty string is no error. */
  datatype Errors = Errors(
    deceasedName: string,
    dateOfBirth: string,
    dateOfPassing: string,
    placeOfPassing: string,
    contactName: string,
    contactPhone: string,
    contactEmail: string)

  const EmptyForm := Form([], None, None, [], [], PhonePrefix, [])
  const NoErrors := Errors([], [], [], [], [], [], [])

  const NameRequired := "Full name is required"
  const BirthRequired := "Date of birth is required"
  const PassingRequired := "Date of passing is required"
  const PlaceRequired := "Place of passing is required"
  const ContactRequired := "Your name is required"
  const EmailError := "Invalid email address"
  const DateOrderError := "Date of passing must be after date of birth"

  /** The error of a required text field: set when the trimmed text is empty. */
  function Required(value: string, message: string): string {
    if Trim(value) == [] then message else []
  }

  function EmailErrorOf(email: string): string {
    if LooseEmail(email) then [] else EmailError
  }

  /** The passing-date error once both dates are known. */
  function OrderErrorOf(dob: Date, dop: Date): string {
    if OnOrBefore(dop, dob) then DateOrderError else []
  }

  /** `validateAll`'s passing-date error: required, then after the birth. */
  function PassingErrorOf(f: Form): string {
    if f.dateOfBirth.Some? && f.dateOfPassing.Some? then OrderErrorOf(f.dateOfBirth.value, f.dateOfPassing.value)
    else if f.dateOfPassing.Some? then [] else PassingRequired
  }

  /** `validateAll`'s record of errors. */
  function ValidateAll(f: Form): Errors {
    Errors(
      Required(f.deceasedName, NameRequired),
      if f.dateOfBirth.Some? then [] else BirthRequired,
      PassingErrorOf(f),
      Required(f.placeOfPassing, PlaceRequired),
      Required(f.contactName, ContactRequired),
      if IsValidPhone(f.contactPhone) then [] else PhoneError,
      EmailErrorOf(f.contactEmail))
  }

  predicate Clear(e: Errors) {
    e == NoErrors
  }

  /** A form ready to book: every text present, both dates set with the
      passing after the birth, a valid phone and a plausible e-mail. */
  predicate Complete(f: Form) {
    && Trim(f.deceasedName) != [] && Trim(f.placeOfPassing) != [] && Trim(f.contactName) != []
    && f.dateOfBirth.Some? && f.dateOfPassing.Some?
    && !OnOrBefore(f.dateOfPassing.value, f.dateOfBirth.value)
    && IsValidPhone(f.contactPhone) && LooseEmail(f.contactEmail)
  }

  /** `validateAll` returns true exactly for complete forms. */
  lemma ValidateAllClearIff(f: Form)
    ensures Clear(ValidateAll(f)) <==> Complete(f)
  {
  }

  /** With both dates set and the passing on or before the birth, the
      passing-date error is the order message, whatever else the form holds. */
  lemma ValidateAllDateOrder(f: Form)
    requires f.dateOfBirth.Some? && f.dateOfPassing.Some?
    requires OnOrBefore(f.dateOfPassing.value, f.dateOfBirth.value)
    ensures ValidateAll(f).dateOfPassing == DateOrderError
    ensures !Clear(ValidateAll(f))
  {
  }

  datatype PickerKind = BirthPicker | PassingPicker

  /** The booking screen's state. */
  class BookingScreen {
    var form: Form
    var errors: Errors
    var picker: Option<PickerKind>
    var tempDate: Date

    /** The phone field always holds `+63` and at most ten digits. */
    predicate Valid()
      reads this
    {
      PhoneShape(form.contactPhone)
    }

    constructor (today: Date)
      ensures form == EmptyForm && errors == NoErrors && picker == None && tempDate == today
      ensures Valid()
    {
      form := EmptyForm;
      errors := NoErrors;
      picker := None;
      tempDate := today;
    }

    method DeceasedNameChange(name: string)
      requires Valid()
      modifies this
      ensures form == old(form).(deceasedName := name)
      ensures errors == old(errors).(deceasedName := Required(name, NameRequired))
      ensures picker == old(picker) && tempDate == old(tempDate) && Valid()
    {
      form := form.(deceasedName := name);
      errors := errors.(deceasedName := Required(name, NameRequired));
    }

    method PlaceOfPassingChange(place: string)
      requires Valid()
      modifies this
      ensures form == old(form).(placeOfPassing := place)
      ensures errors == old(errors).(placeOfPassing := Required(place, PlaceRequired))
      ensures picker == old(picker) && tempDate == old(tempDate) && Valid()
    {
      form := form.(placeOfPassing := place);
      errors := errors.(placeOfPassing := Required(place, PlaceRequired));
    }

    method ContactNameChange(name: string)
      requires Valid()
      modifies this
      ensures form == old(form).(contactName := name)
      ensures errors == old(errors).(contactName := Required(name, ContactRequired))
      ensures picker == old(picker) && tempDate == old(tempDate) && Valid()
    {
      form := form.(contactName := name);
      errors := errors.(contactName := Required(name, ContactRequired));
    }

    /** `handlePhoneChange`: stores the normalised number and its error. */
    method PhoneChange(input: string)
      requires Valid()
      modifies this
      ensures form == old(form).(contactPhone := NormalizePhone(input))
      ensures errors == old(errors).(contactPhone := PhoneErrorOf(input))
      ensures picker == old(picker) && tempDate == old(tempDate) && Valid()
    {
      if Utf16Length(input) < 3 {
        form := form.(contactPhone := PhonePrefix);
        errors := errors.(contactPhone := PhoneError);
        return;
      }
      var stored: string;
      if !StartsWith(input, PhonePrefix) {
        stored := PhonePrefix + Take(Digits(input), 10);
      } else {
        stored := PhonePrefix + Take(Digits(input[3..]), 10);
      }
      form := form.(contactPhone := stored);
      errors := errors.(contactPhone := if IsValidPhone(stored) then [] else PhoneError);
    }

    method EmailChange(email: string)
      requires Valid()
      modifies this
      ensures form == old(form).(contactEmail := email)
      ensures errors == old(errors).(contactEmail := EmailErrorOf(email))
      ensures picker == old(picker) && tempDate == old(tempDate) && Valid()
    {
      form := form.(contactEmail := email);
      errors := errors.(contactEmail := EmailErrorOf(email));
    }

    /** `openDatePicker`: starts from the date already chosen, else today. */
    method OpenPicker(kind: PickerKind, today: Date)
      requires Valid()
      modifies this
      ensures picker == Some(kind)
      ensures tempDate == if kind == BirthPicker && old(form).dateOfBirth.Some? then old(form).dateOfBirth.value
                          else if kind == PassingPicker && old(form).dateOfPassing.Some? then old(form).dateOfPassing.value
                          else today
      ensures form == old(form) && errors == old(errors) && Valid()
    {
      var date := today;
      if kind == BirthPicker && form.dateOfBirth.Some? {
        date := form.dateOfBirth.value;
      }
      if kind == PassingPicker && form.dateOfPassing.Some? {
        date := form.dateOfPassing.value;
      }
      tempDate := date;
      picker := Some(kind);
    }

    /** `handleTempDateChange`: only a confirmed choice moves the date. */
    method TempDateChange(confirmed: bool, selected: Option<Date>)
      requires Valid()
      modifies this
      ensures tempDate == if confirmed && selected.Some? then selected.value else old(tempDate)
      ensures form == old(form) && errors == old(errors) && picker == old(picker) && Valid()
    {
      if confirmed && selected.Some? {
        tempDate := selected.value;
      }
    }

    /** `handlePickerDone`: stores the picked date in the open picker's field,
        clears its error, re-checks the order of the two dates when the other
        one is set, and closes the picker. */
    method PickerDone()
      requires Valid()
      modifies this
      ensures old(picker) == Some(BirthPicker) ==>
                && form == old(form).(dateOfBirth := Some(old(tempDate)))
                && errors == old(errors).(dateOfBirth := [],
                                          dateOfPassing := if old(form).dateOfPassing.Some?
                                                           then OrderErrorOf(old(tempDate), old(form).dateOfPassing.value)
                                                           else old(errors).dateOfPassing)
      ensures old(picker) == Some(PassingPicker) ==>
                && form == old(form).(dateOfPassing := Some(old(tempDate)))
                && errors == old(errors).(dateOfPassing := if old(form).dateOfBirth.Some?
                                                           then OrderErrorOf(old(form).dateOfBirth.value, old(tempDate))
                                                           else [])
      ensures old(picker) == None ==> form == old(form) && errors == old(errors)
      ensures old(picker).Some? && form.dateOfBirth.Some? && form.dateOfPassing.Some? ==>
                errors.dateOfPassing == PassingErrorOf(form)
      ensures picker == None && tempDate == old(tempDate) && Valid()
    {
      match picker {
        case Some(BirthPicker) =>
          var passing := form.dateOfPassing;
          form := form.(dateOfBirth := Some(tempDate));
          errors := errors.(dateOfBirth := []);
          if passing.Some? {
            errors := errors.(dateOfPassing := OrderErrorOf(tempDate, passing.value));
          }
        case Some(PassingPicker) =>
          var birth := form.dateOfBirth;
          form := form.(dateOfPassing := Some(tempDate));
          errors := errors.(dateOfPassing := []);
          if birth.Some? {
            errors := errors.(dateOfPassing := OrderErrorOf(birth.value, tempDate));
          }
        case None =>
      }
      picker := None;
    }

    method PickerCancel()
      requires Valid()
      modifies this
      ensures picker == None && form == old(form) && errors == old(errors) && tempDate == old(tempDate) && Valid()
    {
      picker := None;
    }

    /** `handleNext`: records `validateAll`'s errors and moves on to the
        packages, carrying the form, exactly when there are none. */
    method HandleNext() returns (sent: Option<Form>)
      requires Valid()
      modifies this
      ensures errors == ValidateAll(form) && form == old(form)
      ensures sent.Some? <==> Complete(form)
      ensures sent.Some? ==> sent.value == form
      ensures picker == old(picker) && tempDate == old(tempDate) && Valid()
    {
      errors := ValidateAll(form);
      ValidateAllClearIff(form);
      if errors == NoErrors {
        sent := Some(form);
      } else {
        sent := None;
      }
    }
  }
}
