/**
 * The client-side validator of the signup form: it checks the location, the
 * email, the password and the three parts of the birth date, and returns a
 * map from field name to error message, with at most one message per field.
 *
 * The current year is a parameter (the validator reads it from the clock).
 */
module SignupForm {
  import opened Wrappers
  import opened Ascii

  /** A numeric text field: empty, not a number, or an integer. */
  datatype NumField = Missing | NonNumeric | Num(n: int)

  /** The values of the form; `None` or `Some("")` is an empty field. */
  datatype FormValues = FormValues(
    location: Option<string>,
    email: Option<string>,
    password: Option<string>,
    month: NumField,
    day: NumField,
    year: NumField
  )

  /** A value that JavaScript treats as true: present and not the empty string. */
  predicate Given(o: Option<string>) { o.Some? && o.value != "" }

  /** A field holding a number between `lo` and `hi`. */
  predicate InRange(f: NumField, lo: int, hi: int) { f.Num? && lo <= f.n <= hi }

  /** The keys of the error object, one per form field. */
  datatype Field = Location | Email | Password | Month | Day | Year

  // ---------------------------------------------------------------------------
  // The email pattern  ^[A-Z0-9._%+-]+@[A-Z0-9.-]+\.[A-Z]{2,4}$  (case-insensitive)
  // ---------------------------------------------------------------------------

  predicate LocalChar(c: char) { IsLetter(c) || IsDigit(c) || c == '.' || c == '_' || c == '%' || c == '+' || c == '-' }

  predicate DomainChar(c: char) { IsLetter(c) || IsDigit(c) || c == '.' || c == '-' }

  /** `[A-Z0-9._%+-]+` */
  predicate LocalPart(s: string) { |s| >= 1 && forall i :: 0 <= i < |s| ==> LocalChar(s[i]) }

  /** `[A-Z0-9.-]+` */
  predicate DomainPart(s: string) { |s| >= 1 && forall i :: 0 <= i < |s| ==> DomainChar(s[i]) }

  /** `[A-Z]{2,4}` */
  predicate TopLevel(s: string) { 2 <= |s| <= 4 && forall i :: 0 <= i < |s| ==> IsLetter(s[i]) }

  /** `s` is `local`, '@', `domain`, '.' and `top`, each part of the right shape. */
  ghost predicate SplitsInto(s: string, local: string, domain: string, top: string)
  {
    LocalPart(local) && DomainPart(domain) && TopLevel(top) && s == local + "@" + domain + "." + top
  }

  /** The pattern as a grammar: a local part, '@', a domain, '.', and a top-level part. */
  ghost predicate MatchesEmailPattern(s: string)
  {
    exists local, domain, top :: SplitsInto(s, local, domain, top)
  }

  /**
   * `s` has the '@' at position `i` and the last-part '.' at position `d`:
   * local characters before `i`, domain characters between the two, and two
   * to four letters after `d`.
   */
  predicate EmailShape(s: string, i: nat, d: nat)
  {
    && 1 <= i && i + 1 < d && d < |s| && 2 <= |s| - d - 1 <= 4
    && s[i] == '@' && s[d] == '.'
    && (forall k :: 0 <= k < i ==> LocalChar(s[k]))
    && (forall k :: i < k < d ==> DomainChar(s[k]))
    && (forall k :: d < k < |s| ==> IsLetter(s[k]))
  }

  /** The regular expression's test, as a search over the positions of the '@' and the last '.'. */
  predicate IsEmailAddress(s: string)
  {
    exists i: nat, d: nat | i < |s| && d < |s| :: EmailShape(s, i, d)
  }

  /** Cutting `s` at the two positions gives the three parts of the grammar. */
  lemma ShapeSplits(s: string, i: nat, d: nat)
    requires EmailShape(s, i, d)
    ensures SplitsInto(s, s[..i], s[i + 1..d], s[d + 1..])
  {
    assert s[d..] == "." + s[d + 1..];
    assert s[i + 1..] == s[i + 1..d] + s[d..];
    assert s[i..] == "@" + s[i + 1..];
    assert s == s[..i] + s[i..];
  }

  /** Joining the three parts of the grammar gives a string of the right shape. */
  lemma SplitsShape(s: string, local: string, domain: string, top: string)
    requires SplitsInto(s, local, domain, top)
    ensures EmailShape(s, |local|, |local| + 1 + |domain|)
  {
    var i, d := |local|, |local| + 1 + |domain|;
    forall k | 0 <= k < i ensures LocalChar(s[k]) {
      assert s[k] == local[k];
    }
    forall k | i < k < d ensures DomainChar(s[k]) {
      assert s[k] == domain[k - i - 1];
    }
    forall k | d < k < |s| ensures IsLetter(s[k]) {
      assert s[k] == top[k - d - 1];
    }
  }

  /** The search finds exactly the strings the grammar describes. */
  lemma IsEmailAddressMatchesPattern(s: string)
    ensures IsEmailAddress(s) <==> MatchesEmailPattern(s)
  {
    if IsEmailAddress(s) {
      var i: nat, d: nat :| i < |s| && d < |s| && EmailShape(s, i, d);
      ShapeSplits(s, i, d);
    }
    if MatchesEmailPattern(s) {
      var local, domain, top :| SplitsInto(s, local, domain, top);
      SplitsShape(s, local, domain, top);
    }
  }

  /** An accepted email holds exactly one '@', since no other part may contain one. */
  lemma EmailHasOneAt(s: string)
    requires IsEmailAddress(s)
    ensures exists i :: 0 <= i < |s| && s[i] == '@' && forall j :: 0 <= j < |s| && s[j] == '@' ==> j == i
  {
    var i: nat, d: nat :| i < |s| && d < |s| && EmailShape(s, i, d);
    forall j | 0 <= j < |s| && s[j] == '@' ensures j == i {
    }
    assert 0 <= i < |s| && s[i] == '@';
  }

  // ---------------------------------------------------------------------------
  // Calendar dates
  // ---------------------------------------------------------------------------

  /** A leap year of the Gregorian calendar. */
  predicate IsLeapYear(y: int) { y % 4 == 0 && (y % 100 != 0 || y % 400 == 0) }

  /** The number of days of month `m` of year `y`. */
  function DaysInMonth(m: int, y: int): (days: int)
    requires 1 <= m <= 12
    ensures 28 <= days <= 31
    ensures m == 2 ==> (days == 29 <==> IsLeapYear(y))
    ensures m != 2 ==> (days == 30 <==> m in {4, 6, 9, 11})
  {
    if m == 2 then (if IsLeapYear(y) then 29 else 28)
    else if m == 4 || m == 6 || m == 9 || m == 11 then 30
    else 31
  }

  /** The month and day fields and year `y` name a day that exists. */
  predicate DateExists(month: NumField, day: NumField, y: int)
  {
    InRange(month, 1, 12) && InRange(day, 1, 31) && day.n <= DaysInMonth(month.n, y)
  }

  /** A date such as 02/30/2000 passes the month and day checks but does not exist. */
  lemma NonexistentDateHasValidParts()
    ensures InRange(Num(2), 1, 12) && InRange(Num(30), 1, 31)
    ensures !DateExists(Num(2), Num(30), 2000) && DateExists(Num(2), Num(29), 2000)
    ensures !DateExists(Num(2), Num(29), 2100)
  {
  }

  // ---------------------------------------------------------------------------
  // The validator
  // ---------------------------------------------------------------------------

  /**
   * The form passes every check: each text field is given, the email has the
   * pattern, the month is 1..12, the day 1..31, the year 1910..2100 and at most
   * `currentYear - 18`, and the date exists.
   */
  predicate Accepted(values: FormValues, currentYear: int)
  {
    && Given(values.location)
    && Given(values.email) && IsEmailAddress(values.email.value)
    && Given(values.password)
    && InRange(values.month, 1, 12)
    && InRange(values.day, 1, 31)
    && InRange(values.year, 1910, 2100)
    && values.year.n <= currentYear - 18
    && DateExists(values.month, values.day, values.year.n)
  }

  /**
   * The message, if any, for one field. Each field has its own checks, taken in
   * order; the first that fails gives the message. The year is checked for
   * presence, then for being a number in 1910..2100, then for being at most
   * `currentYear - 18` (the year alone), then for naming, with the month and
   * day fields, a date that exists.
   */
  function ErrorFor(values: FormValues, currentYear: int, f: Field): Option<string>
  {
    match f
    case Location =>
      if !Given(values.location) then Some("where are you?") else None
    case Email =>
      if !Given(values.email) then Some("Please enter an email")
      else if !IsEmailAddress(values.email.value) then Some("Invalid email address")
      else None
    case Password =>
      if !Given(values.password) then Some("Please enter a password") else None
    case Month =>
      if values.month.Missing? then Some("Please enter a month")
      else if !InRange(values.month, 1, 12) then Some("Must be a valid month number")
      else None
    case Day =>
      if values.day.Missing? then Some("Please enter a day")
      else if !InRange(values.day, 1, 31) then Some("Must be a valid day number")
      else None
    case Year =>
      if values.year.Missing? then Some("Please enter a year")
      else if !InRange(values.year, 1910, 2100) then Some("Must be a valid year number")
      else if values.year.n > currentYear - 18 then Some("Must be at least 18")
      else if !DateExists(values.month, values.day, values.year.n) then
        Some("Must be a valid birthdate (this date does not exist)")
      else None
  }

  /** No field has a message exactly when every check passes. */
  lemma NoMessageIffAccepted(values: FormValues, currentYear: int)
    ensures (forall f :: ErrorFor(values, currentYear, f).None?) <==> Accepted(values, currentYear)
  {
    if !Accepted(values, currentYear) {
      if !Given(values.location) { assert ErrorFor(values, currentYear, Location).Some?; }
      else if !(Given(values.email) && IsEmailAddress(values.email.value)) { assert ErrorFor(values, currentYear, Email).Some?; }
      else if !Given(values.password) { assert ErrorFor(values, currentYear, Password).Some?; }
      else if !InRange(values.month, 1, 12) { assert ErrorFor(values, currentYear, Month).Some?; }
      else if !InRange(values.day, 1, 31) { assert ErrorFor(values, currentYear, Day).Some?; }
      else { assert ErrorFor(values, currentYear, Year).Some?; }
    }
  }

  /**
   * The age test looks at the year only: born in `currentYear - 18`, on any
   * existing date, passes, even if the eighteenth birthday is still to come.
   */
  lemma CutoffYearPasses(values: FormValues, currentYear: int)
    requires values.year == Num(currentYear - 18) && 1910 <= currentYear - 18 <= 2100
    requires DateExists(values.month, values.day, currentYear - 18)
    ensures ErrorFor(values, currentYear, Year).None?
  {
  }

  /** 02/30/2000 sets only the year key; the month and day pass their own checks. */
  lemma NonexistentDateOnlyYear(values: FormValues, currentYear: int)
    requires values.month == Num(2) && values.day == Num(30) && values.year == Num(2000)
    requires currentYear >= 2018
    ensures ErrorFor(values, currentYear, Month).None? && ErrorFor(values, currentYear, Day).None?
    ensures ErrorFor(values, currentYear, Year) == Some("Must be a valid birthdate (this date does not exist)")
  {
  }

  /** The error object after a check that gave `msg` for field `f`. */
  function Record(errors: map<Field, string>, f: Field, msg: Option<string>): (r: map<Field, string>)
    ensures forall g :: g in r <==> (g == f && msg.Some?) || g in errors
    ensures forall g :: g in r ==> r[g] == if g == f && msg.Some? then msg.value else errors[g]
  {
    if msg.Some? then errors[f := msg.value] else errors
  }

  /** Recording every field's message, starting from an empty object. */
  ghost function AllMessages(values: FormValues, currentYear: int): map<Field, string>
  {
    var e0 := Record(map[], Location, ErrorFor(values, currentYear, Location));
    var e1 := Record(e0, Email, ErrorFor(values, currentYear, Email));
    var e2 := Record(e1, Password, ErrorFor(values, currentYear, Password));
    var e3 := Record(e2, Month, ErrorFor(values, currentYear, Month));
    var e4 := Record(e3, Day, ErrorFor(values, currentYear, Day));
    Record(e4, Year, ErrorFor(values, currentYear, Year))
  }

  /** The recorded object holds, for each field, exactly that field's message. */
  lemma AllMessagesPerField(values: FormValues, currentYear: int, f: Field)
    ensures f in AllMessages(values, currentYear) <==> ErrorFor(values, currentYear, f).Some?
    ensures f in AllMessages(values, currentYear) ==>
      ErrorFor(values, currentYear, f) == Some(AllMessages(values, currentYear)[f])
  {
  }

  /** What the recorded object means: the messages of the failing fields, and empty exactly when accepted. */
  lemma AllMessagesMeaning(values: FormValues, currentYear: int)
    ensures var errors := AllMessages(values, currentYear);
      && (forall f :: f in errors <==> ErrorFor(values, currentYear, f).Some?)
      && (forall f :: f in errors ==> ErrorFor(values, currentYear, f) == Some(errors[f]))
      && (errors == map[] <==> Accepted(values, currentYear))
  {
    forall f | true
      ensures f in AllMessages(values, currentYear) <==> ErrorFor(values, currentYear, f).Some?
      ensures f in AllMessages(values, currentYear) ==>
        ErrorFor(values, currentYear, f) == Some(AllMessages(values, currentYear)[f])
    {
      AllMessagesPerField(values, currentYear, f);
    }
    NoMessageIffAccepted(values, currentYear);
  }

  // Each check below takes `currentYear` only so that its result can be stated
  // through `ErrorFor`; only the year check reads it.

  /** The location check of `validate`. */
  method CheckLocation(values: FormValues, currentYear: int, errors: map<Field, string>) returns (r: map<Field, string>)
    ensures r == Record(errors, Location, ErrorFor(values, currentYear, Location))
  {
    r := errors;
    if !Given(values.location) {
      r := r[Location := "where are you?"];
    }
  }

  /** The email checks of `validate`: presence, then the pattern. */
  method CheckEmail(values: FormValues, currentYear: int, errors: map<Field, string>) returns (r: map<Field, string>)
    ensures r == Record(errors, Email, ErrorFor(values, currentYear, Email))
  {
    r := errors;
    if !Given(values.email) {
      r := r[Email := "Please enter an email"];
    } else if !IsEmailAddress(values.email.value) {
      r := r[Email := "Invalid email address"];
    }
  }

  /** The password check of `validate`. */
  method CheckPassword(values: FormValues, currentYear: int, errors: map<Field, string>) returns (r: map<Field, string>)
    ensures r == Record(errors, Password, ErrorFor(values, currentYear, Password))
  {
    r := errors;
    if !Given(values.password) {
      r := r[Password := "Please enter a password"];
    }
  }

  /** The month checks of `validate`: presence, then a number in 1..12. */
  method CheckMonth(values: FormValues, currentYear: int, errors: map<Field, string>) returns (r: map<Field, string>)
    ensures r == Record(errors, Month, ErrorFor(values, currentYear, Month))
  {
    r := errors;
    if values.month.Missing? {
      r := r[Month := "Please enter a month"];
    } else if values.month.NonNumeric? || values.month.n < 1 || values.month.n > 12 {
      r := r[Month := "Must be a valid month number"];
    }
  }

  /** The day checks of `validate`: presence, then a number in 1..31. */
  method CheckDay(values: FormValues, currentYear: int, errors: map<Field, string>) returns (r: map<Field, string>)
    ensures r == Record(errors, Day, ErrorFor(values, currentYear, Day))
  {
    r := errors;
    if values.day.Missing? {
      r := r[Day := "Please enter a day"];
    } else if values.day.NonNumeric? || values.day.n < 1 || values.day.n > 31 {
      r := r[Day := "Must be a valid day number"];
    }
  }

  /** The year checks of `validate`: presence, 1910..2100, the age cut-off, then the whole date. */
  method CheckYear(values: FormValues, currentYear: int, errors: map<Field, string>) returns (r: map<Field, string>)
    ensures r == Record(errors, Year, ErrorFor(values, currentYear, Year))
  {
    r := errors;
    if values.year.Missing? {
      r := r[Year := "Please enter a year"];
    } else if values.year.NonNumeric? || values.year.n < 1910 || values.year.n > 2100 {
      r := r[Year := "Must be a valid year number"];
    } else if values.year.n > currentYear - 18 {
      r := r[Year := "Must be at least 18"];
    } else if !DateExists(values.month, values.day, values.year.n) {
      r := r[Year := "Must be a valid birthdate (this date does not exist)"];
    }
  }

  /**
   * `validate`: builds the error object check by check, in the order of the
   * fields, and returns it.
   */
  method Validate(values: FormValues, currentYear: int) returns (errors: map<Field, string>)
    ensures forall f :: f in errors <==> ErrorFor(values, currentYear, f).Some?
    ensures forall f :: f in errors ==> ErrorFor(values, currentYear, f) == Some(errors[f])
    ensures errors == map[] <==> Accepted(values, currentYear)
  {
    errors := CheckLocation(values, currentYear, map[]);
    errors := CheckEmail(values, currentYear, errors);
    errors := CheckPassword(values, currentYear, errors);
    errors := CheckMonth(values, currentYear, errors);
    errors := CheckDay(values, currentYear, errors);
    errors := CheckYear(values, currentYear, errors);
    AllMessagesMeaning(values, currentYear);
  }
}
