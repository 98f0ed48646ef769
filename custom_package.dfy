/**
 * The custom-package request page: a three-step wizard over one form, two
 * list editors (extra stops, extra services) and an ordered validation
 * pipeline that runs before the request is sent.
 */
module CustomPackage {
  import opened Wrappers
  import opened JsString
  import opened JsNumber
  import opened Patterns
  import opened Fetch

  // ----- Dates -----------------------------------------------------------

  datatype Date = Date(year: nat, month: nat, day: nat)

  predicate IsLeapYear(y: nat) {
    y % 4 == 0 && (y % 100 != 0 || y % 400 == 0)
  }

  function DaysInMonth(y: nat, m: nat): nat {
    if m == 2 then (if IsLeapYear(y) then 29 else 28)
    else if m == 4 || m == 6 || m == 9 || m == 11 then 30
    else 31
  }

  predicate AllDigits(s: string) {
    forall k :: 0 <= k < |s| ==> IsDecimalDigit(s[k])
  }

  /**
   * The calendar date a `YYYY-MM-DD` string (what a date input yields) names;
   * `None` for any other string, which `new Date` turns into an invalid date.
   */
  function ParseIsoDate(s: string): Option<Date> {
    if |s| == 10 && s[4] == '-' && s[7] == '-' &&
       AllDigits(s[..4]) && AllDigits(s[5..7]) && AllDigits(s[8..])
    then
      var y, m, d := ValueOf(s[..4], 10), ValueOf(s[5..7], 10), ValueOf(s[8..], 10);
      if 1 <= m <= 12 && 1 <= d <= DaysInMonth(y, m) then Some(Date(y, m, d)) else None
    else None
  }

  /** `a` is an earlier day than `b`. */
  predicate Before(a: Date, b: Date) {
    a.year < b.year ||
    (a.year == b.year && (a.month < b.month || (a.month == b.month && a.day < b.day)))
  }

  /**
   * `new Date(endDate) < new Date(startDate)`. When either string is not a
   * date the comparison is against `NaN`, which is false.
   */
  predicate EndBeforeStart(startDate: string, endDate: string) {
    match (ParseIsoDate(startDate), ParseIsoDate(endDate))
    case (Some(s), Some(e)) => Before(e, s)
    case _ => false
  }

  /** "Before" orders days strictly and totally. */
  lemma BeforeIsStrictTotalOrder(a: Date, b: Date, c: Date)
    ensures !Before(a, a)
    ensures Before(a, b) ==> !Before(b, a)
    ensures Before(a, b) && Before(b, c) ==> Before(a, c)
    ensures a == b || Before(a, b) || Before(b, a)
  {
  }

  /** A trip that ends on the day it starts passes the date check. */
  lemma SameDayAccepted(date: string)
    ensures !EndBeforeStart(date, date)
  {
  }

  lemma ValueOfTwoDigits(s: string)
    requires |s| == 2
    ensures ValueOf(s, 10) == DigitValue(s[0]) * 10 + DigitValue(s[1])
  {
    assert s[..1][..0] == [] && s[..1][0] == s[0];
    assert ValueOf(s[..1], 10) == DigitValue(s[0]);
  }

  lemma ValueOfFourDigits(s: string)
    requires |s| == 4
    ensures ValueOf(s, 10) == ((DigitValue(s[0]) * 10 + DigitValue(s[1])) * 10 + DigitValue(s[2])) * 10 + DigitValue(s[3])
  {
    ValueOfTwoDigits(s[..2]);
    assert s[..3][..2] == s[..2];
  }

  /** The date fields of `s` as `ParseIsoDate` reads them. */
  lemma IsoFields(s: string)
    requires |s| == 10
    ensures ValueOf(s[..4], 10) == ((DigitValue(s[0]) * 10 + DigitValue(s[1])) * 10 + DigitValue(s[2])) * 10 + DigitValue(s[3])
    ensures ValueOf(s[5..7], 10) == DigitValue(s[5]) * 10 + DigitValue(s[6])
    ensures ValueOf(s[8..], 10) == DigitValue(s[8]) * 10 + DigitValue(s[9])
  {
    ValueOfFourDigits(s[..4]);
    ValueOfTwoDigits(s[5..7]);
    ValueOfTwoDigits(s[8..]);
  }

  /** A day of the calendar that a four-digit year can name. */
  predicate ValidDate(d: Date) {
    d.year < 10000 && 1 <= d.month <= 12 && 1 <= d.day <= DaysInMonth(d.year, d.month)
  }

  /** The last two decimal digits of `n`, zero-padded. */
  function Pad2(n: nat): string {
    [DigitChar(n / 10 % 10), DigitChar(n % 10)]
  }

  /** The last four decimal digits of `n`, zero-padded. */
  function Pad4(n: nat): string {
    [DigitChar(n / 1000 % 10), DigitChar(n / 100 % 10), DigitChar(n / 10 % 10), DigitChar(n % 10)]
  }

  /** The `YYYY-MM-DD` text a date input yields for `d`. */
  function IsoString(d: Date): string {
    Pad4(d.year) + "-" + Pad2(d.month) + "-" + Pad2(d.day)
  }

  lemma DigitCharValue(k: nat)
    requires k < 10
    ensures IsDecimalDigit(DigitChar(k)) && DigitValue(DigitChar(k)) == k
  {
  }

  lemma Pad2Value(n: nat)
    requires n < 100
    ensures AllDigits(Pad2(n)) && ValueOf(Pad2(n), 10) == n
  {
    var t := Pad2(n);
    DigitCharValue(n / 10 % 10);
    DigitCharValue(n % 10);
    ValueOfTwoDigits(t);
    assert (n / 10 % 10) * 10 + n % 10 == n;
  }

  lemma Pad4Value(n: nat)
    requires n < 10000
    ensures AllDigits(Pad4(n)) && ValueOf(Pad4(n), 10) == n
  {
    var a, b, c, e := n / 1000 % 10, n / 100 % 10, n / 10 % 10, n % 10;
    assert n == n / 10 * 10 + e;
    assert n / 10 == n / 100 * 10 + c;
    assert n / 100 == n / 1000 * 10 + b;
    assert n / 1000 == a;
    DigitCharValue(a);
    DigitCharValue(b);
    DigitCharValue(c);
    DigitCharValue(e);
    ValueOfFourDigits(Pad4(n));
  }

  /** Every calendar day, written as a date input writes it, is read back as that day. */
  lemma IsoRoundTrip(d: Date)
    requires ValidDate(d)
    ensures ParseIsoDate(IsoString(d)) == Some(d)
  {
    var s := IsoString(d);
    assert s[..4] == Pad4(d.year) && s[5..7] == Pad2(d.month) && s[8..] == Pad2(d.day);
    Pad4Value(d.year);
    Pad2Value(d.month);
    Pad2Value(d.day);
  }

  /** A string is read as a date only when it is a calendar day in the one text form of that day. */
  lemma ParsedIsValidAndCanonical(s: string)
    requires ParseIsoDate(s).Some?
    ensures ValidDate(ParseIsoDate(s).value) && IsoString(ParseIsoDate(s).value) == s
  {
    var d := ParseIsoDate(s).value;
    var y, m, dd := s[..4], s[5..7], s[8..];
    assert AllDigits(y) && AllDigits(m) && AllDigits(dd);
    ValueOfFourDigits(y);
    ValueOfTwoDigits(m);
    ValueOfTwoDigits(dd);
    DigitsOfFour(y[0], y[1], y[2], y[3]);
    DigitsOfTwo(m[0], m[1]);
    DigitsOfTwo(dd[0], dd[1]);
    assert Pad4(d.year) == y && Pad2(d.month) == m && Pad2(d.day) == dd;
    assert s == y + [s[4]] + m + [s[7]] + dd;
  }

  lemma DigitRoundTrip(c: char)
    requires IsDecimalDigit(c)
    ensures DigitValue(c) < 10 && DigitChar(DigitValue(c)) == c
  {
  }

  lemma DigitsOfTwo(a: char, b: char)
    requires IsDecimalDigit(a) && IsDecimalDigit(b)
    ensures Pad2(DigitValue(a) * 10 + DigitValue(b)) == [a, b]
  {
    DigitRoundTrip(a);
    DigitRoundTrip(b);
    var n := DigitValue(a) * 10 + DigitValue(b);
    assert n % 10 == DigitValue(b) && n / 10 % 10 == DigitValue(a);
  }

  lemma DigitsOfFour(a: char, b: char, c: char, e: char)
    requires IsDecimalDigit(a) && IsDecimalDigit(b) && IsDecimalDigit(c) && IsDecimalDigit(e)
    ensures Pad4(((DigitValue(a) * 10 + DigitValue(b)) * 10 + DigitValue(c)) * 10 + DigitValue(e)) == [a, b, c, e]
  {
    DigitRoundTrip(a);
    DigitRoundTrip(b);
    DigitRoundTrip(c);
    DigitRoundTrip(e);
    var n := ((DigitValue(a) * 10 + DigitValue(b)) * 10 + DigitValue(c)) * 10 + DigitValue(e);
    assert n % 10 == DigitValue(e) && n / 10 % 10 == DigitValue(c);
    assert n / 100 % 10 == DigitValue(b) && n / 1000 % 10 == DigitValue(a);
  }

  /** On real dates the submit check refuses an end date exactly when it is an earlier day than the start. */
  lemma IsoOrder(start: Date, end: Date)
    requires ValidDate(start) && ValidDate(end)
    ensures EndBeforeStart(IsoString(start), IsoString(end)) <==> Before(end, start)
  {
    IsoRoundTrip(start);
    IsoRoundTrip(end);
  }

  /** 29 February is a date in a leap year only, and anything but `YYYY-MM-DD` is not a date. */
  lemma LeapDayExamples()
    ensures ParseIsoDate("2024-02-29") == Some(Date(2024, 2, 29))
    ensures ParseIsoDate("2023-02-29") == None && ParseIsoDate("") == None
  {
    IsoFields("2024-02-29");
    IsoFields("2023-02-29");
  }

  lemma March9()
    ensures ParseIsoDate("2025-03-09") == Some(Date(2025, 3, 9))
  {
    IsoFields("2025-03-09");
  }

  lemma March10()
    ensures ParseIsoDate("2025-03-10") == Some(Date(2025, 3, 10))
  {
    IsoFields("2025-03-10");
  }

  /** An end date the day before the start is refused, the day after accepted, and a missing end date compares as NaN and is accepted. */
  lemma DateOrderExamples()
    ensures EndBeforeStart("2025-03-10", "2025-03-09")
    ensures !EndBeforeStart("2025-03-09", "2025-03-10")
    ensures !EndBeforeStart("2025-03-10", "")
  {
    March9();
    March10();
  }

  // ----- The form --------------------------------------------------------

  /**
   * The form state. Every scalar field is held as text, which is what its
   * input element reports (the number input and the two selects included);
   * the initial number 1 of `numberOfPeople` is written as "1".
   */
  datatype FormData = FormData(
    departureLocation: string,
    destination: string,
    additionalStops: seq<string>,
    startDate: string,
    endDate: string,
    numberOfPeople: string,
    hotelPreference: string,
    transportPreference: string,
    additionalServices: seq<string>,
    specialRequests: string,
    name: string,
    email: string,
    phone: string)

  /** The `name` attributes of the inputs bound to `handleInputChange`. */
  datatype Field =
    | DepartureLocation | Destination | StartDate | EndDate | NumberOfPeople
    | HotelPreference | TransportPreference | SpecialRequests | Name | Email | Phone

  const InitialForm := FormData("", "", [], "", "", "1", "comfort", "comfort", [], "", "", "", "")

  function Get(f: FormData, field: Field): string {
    match field
    case DepartureLocation => f.departureLocation
    case Destination => f.destination
    case StartDate => f.startDate
    case EndDate => f.endDate
    case NumberOfPeople => f.numberOfPeople
    case HotelPreference => f.hotelPreference
    case TransportPreference => f.transportPreference
    case SpecialRequests => f.specialRequests
    case Name => f.name
    case Email => f.email
    case Phone => f.phone
  }

  /** `{ ...prev, [name]: value }` */
  function With(f: FormData, field: Field, value: string): (r: FormData)
    ensures Get(r, field) == value
    ensures forall g :: g != field ==> Get(r, g) == Get(f, g)
    ensures r.additionalStops == f.additionalStops && r.additionalServices == f.additionalServices
  {
    match field
    case DepartureLocation => f.(departureLocation := value)
    case Destination => f.(destination := value)
    case StartDate => f.(startDate := value)
    case EndDate => f.(endDate := value)
    case NumberOfPeople => f.(numberOfPeople := value)
    case HotelPreference => f.(hotelPreference := value)
    case TransportPreference => f.(transportPreference := value)
    case SpecialRequests => f.(specialRequests := value)
    case Name => f.(name := value)
    case Email => f.(email := value)
    case Phone => f.(phone := value)
  }

  // ----- Extra services: a membership toggle ------------------------------

  /** `xs.filter((s) => s !== x)` */
  function RemoveAll(xs: seq<string>, x: string): seq<string> {
    if xs == [] then [] else (if xs[0] == x then [] else [xs[0]]) + RemoveAll(xs[1..], x)
  }

  /** `xs.includes(id) ? xs.filter((s) => s !== id) : [...xs, id]` */
  function Toggle(xs: seq<string>, id: string): seq<string> {
    if id in xs then RemoveAll(xs, id) else xs + [id]
  }

  predicate Distinct(xs: seq<string>) {
    forall i, j :: 0 <= i < j < |xs| ==> xs[i] != xs[j]
  }

  lemma {:induction false} RemoveAllMembers(xs: seq<string>, x: string)
    ensures forall y :: y in RemoveAll(xs, x) <==> y in xs && y != x
  {
    if xs != [] {
      RemoveAllMembers(xs[1..], x);
      assert xs == [xs[0]] + xs[1..];
    }
  }

  lemma {:induction false} RemoveAllAbsent(xs: seq<string>, x: string)
    requires x !in xs
    ensures RemoveAll(xs, x) == xs
  {
    if xs != [] {
      RemoveAllAbsent(xs[1..], x);
      assert xs == [xs[0]] + xs[1..];
    }
  }

  lemma {:induction false} RemoveAllAppend(xs: seq<string>, ys: seq<string>, x: string)
    ensures RemoveAll(xs + ys, x) == RemoveAll(xs, x) + RemoveAll(ys, x)
  {
    if xs == [] {
      assert xs + ys == ys;
    } else {
      assert (xs + ys)[1..] == xs[1..] + ys;
      RemoveAllAppend(xs[1..], ys, x);
    }
  }

  lemma {:induction false} RemoveAllDistinct(xs: seq<string>, x: string)
    requires Distinct(xs)
    ensures Distinct(RemoveAll(xs, x))
  {
    if xs != [] {
      var tail := xs[1..];
      assert Distinct(tail) by {
        forall i, j | 0 <= i < j < |tail| ensures tail[i] != tail[j] { assert tail[i] == xs[i + 1] && tail[j] == xs[j + 1]; }
      }
      RemoveAllDistinct(tail, x);
      RemoveAllMembers(tail, x);
      var rest := RemoveAll(tail, x);
      if xs[0] != x {
        assert xs[0] !in rest;
        var r := [xs[0]] + rest;
        forall i, j | 0 <= i < j < |r| ensures r[i] != r[j] {
          if i == 0 { assert r[j] == rest[j - 1]; } else { assert r[i] == rest[i - 1] && r[j] == rest[j - 1]; }
        }
      } else {
        assert RemoveAll(xs, x) == rest;
      }
    }
  }

  /** Toggling `id` flips whether `id` is selected and leaves every other id as it was. */
  lemma ToggleFlipsOnlyThatId(xs: seq<string>, id: string)
    ensures id in Toggle(xs, id) <==> id !in xs
    ensures forall y :: y != id ==> (y in Toggle(xs, id) <==> y in xs)
  {
    RemoveAllMembers(xs, id);
  }

  /** Ticking a box and unticking it again restores the list exactly. */
  lemma ToggleTwiceFromAbsent(xs: seq<string>, id: string)
    requires id !in xs
    ensures Toggle(Toggle(xs, id), id) == xs
  {
    assert id in xs + [id];
    RemoveAllAppend(xs, [id], id);
    RemoveAllAbsent(xs, id);
    assert RemoveAll([id], id) == [];
  }

  /** No id is ever listed twice. */
  lemma ToggleKeepsDistinct(xs: seq<string>, id: string)
    requires Distinct(xs)
    ensures Distinct(Toggle(xs, id))
  {
    if id in xs {
      RemoveAllDistinct(xs, id);
    } else {
      var r := xs + [id];
      forall i, j | 0 <= i < j < |r| ensures r[i] != r[j] {
        if j == |xs| { assert r[i] == xs[i]; }
      }
    }
  }

  // ----- Extra stops: append a trimmed value, drop by index ----------------

  /** `xs.filter((_, k) => k !== index)` */
  function DropIndex(xs: seq<string>, index: int): seq<string> {
    if xs == [] then [] else (if index == 0 then [] else [xs[0]]) + DropIndex(xs[1..], index - 1)
  }

  /** Removing stop `index` drops exactly that element and keeps the others in order; any other index changes nothing. */
  lemma {:induction false} DropIndexRemovesExactlyOne(xs: seq<string>, index: int)
    ensures DropIndex(xs, index) == if 0 <= index < |xs| then xs[..index] + xs[index + 1..] else xs
  {
    if xs != [] {
      var tail := xs[1..];
      DropIndexRemovesExactlyOne(tail, index - 1);
      if index == 0 {
        assert xs[..0] + xs[1..] == tail;
      } else if 0 < index < |xs| {
        ConsSplit(xs, index);
      } else {
        assert xs == [xs[0]] + tail;
      }
    }
  }

  /** Putting the head back in front of a split tail splits the whole list one place later. */
  lemma ConsSplit(xs: seq<string>, index: int)
    requires 0 < index < |xs|
    ensures [xs[0]] + (xs[1..][..index - 1] + xs[1..][index..]) == xs[..index] + xs[index + 1..]
  {
    assert xs[..index] == [xs[0]] + xs[1..][..index - 1];
    assert xs[index + 1..] == xs[1..][index..];
  }

  /** Every listed stop is non-empty and has no surrounding whitespace. */
  predicate StopsTrimmed(stops: seq<string>) {
    forall k :: 0 <= k < |stops| ==> stops[k] != "" && Trim(stops[k]) == stops[k]
  }

  lemma DropIndexKeepsTrimmed(xs: seq<string>, index: int)
    requires StopsTrimmed(xs)
    ensures StopsTrimmed(DropIndex(xs, index))
  {
    DropIndexRemovesExactlyOne(xs, index);
    if 0 <= index < |xs| {
      var r := xs[..index] + xs[index + 1..];
      forall k | 0 <= k < |r| ensures r[k] != "" && Trim(r[k]) == r[k] {
        if k < index { assert r[k] == xs[k]; } else { assert r[k] == xs[k + 1]; }
      }
    }
  }

  // ----- Validation before submit ------------------------------------------

  const RequiredMessage := "Vul alstublieft alle verplichte velden in."
  const InvalidEmailMessage := "Vul alstublieft een geldig e-mailadres in."
  const InvalidPhoneMessage := "Vul alstublieft een geldig telefoonnummer in."
  const DateOrderMessage := "De einddatum moet na de startdatum liggen."
  const SendFailedMessage := "Er is iets misgegaan bij het versturen van je aanvraag."
  const SuccessMessage := "Je aanvraag is succesvol verzonden! We nemen zo snel mogelijk contact met je op."

  /** One of the seven required fields is the empty string. */
  predicate MissingRequired(f: FormData) {
    f.departureLocation == "" || f.destination == "" || f.startDate == "" ||
    f.endDate == "" || f.name == "" || f.email == "" || f.phone == ""
  }

  /** The message of the first check that fails, in the order the submit handler runs them; `None` when all pass. */
  function Validate(f: FormData): Option<string> {
    if MissingRequired(f) then Some(RequiredMessage)
    else if !EmailValid(f.email) then Some(InvalidEmailMessage)
    else if !PhoneValid(f.phone) then Some(InvalidPhoneMessage)
    else if EndBeforeStart(f.startDate, f.endDate) then Some(DateOrderMessage)
    else None
  }

  lemma MessagesDiffer()
    ensures RequiredMessage != InvalidEmailMessage && RequiredMessage != InvalidPhoneMessage
    ensures RequiredMessage != DateOrderMessage && InvalidEmailMessage != InvalidPhoneMessage
    ensures InvalidEmailMessage != DateOrderMessage && InvalidPhoneMessage != DateOrderMessage
  {
    assert RequiredMessage[16] != InvalidEmailMessage[16];
    assert RequiredMessage[16] != InvalidPhoneMessage[16];
    assert RequiredMessage[0] != DateOrderMessage[0];
    assert InvalidEmailMessage[27] != InvalidPhoneMessage[27];
    assert InvalidEmailMessage[0] != DateOrderMessage[0] && InvalidPhoneMessage[0] != DateOrderMessage[0];
  }

  /** The required-field message is given exactly when one of the seven is empty. */
  lemma RequiredCheckedFirst(f: FormData)
    ensures Validate(f) == Some(RequiredMessage) <==> MissingRequired(f)
  {
    MessagesDiffer();
  }

  /** The email message is given exactly when the required fields are there and the email fails the pattern. */
  lemma EmailCheckedSecond(f: FormData)
    ensures Validate(f) == Some(InvalidEmailMessage) <==> !MissingRequired(f) && !EmailValid(f.email)
  {
    MessagesDiffer();
  }

  /** The phone message is given exactly when the earlier checks pass and the phone has a character outside the class. */
  lemma PhoneCheckedThird(f: FormData)
    ensures Validate(f) == Some(InvalidPhoneMessage) <==>
            !MissingRequired(f) && EmailValid(f.email) && !PhoneValid(f.phone)
  {
    MessagesDiffer();
  }

  /** The date message is given exactly when the earlier checks pass and the end date is before the start date. */
  lemma DatesCheckedLast(f: FormData)
    ensures Validate(f) == Some(DateOrderMessage) <==>
            !MissingRequired(f) && EmailValid(f.email) && PhoneValid(f.phone) && EndBeforeStart(f.startDate, f.endDate)
  {
    MessagesDiffer();
  }

  /** The request is sent exactly when every check passes. */
  lemma AcceptedIffAllChecksPass(f: FormData)
    ensures Validate(f) == None <==>
            !MissingRequired(f) && EmailValid(f.email) && PhoneValid(f.phone) && !EndBeforeStart(f.startDate, f.endDate)
  {
  }

  /** The number of people, the preferences, the extra stops and services and the special requests are not checked. */
  lemma OptionalFieldsUnchecked(f: FormData, people: string, hotel: string, transport: string,
                                stops: seq<string>, services: seq<string>, requests: string)
    ensures Validate(f.(numberOfPeople := people, hotelPreference := hotel, transportPreference := transport,
                        additionalStops := stops, additionalServices := services, specialRequests := requests))
            == Validate(f)
  {
  }

  /** A required field holding only a space counts as filled in: such a form fails later, on the email. */
  lemma WhitespaceCountsAsFilled()
    ensures Validate(InitialForm.(departureLocation := " ", destination := " ", startDate := " ", endDate := " ",
                                  name := " ", email := " ", phone := " "))
            == Some(InvalidEmailMessage)
  {
    assert IsWhitespace(" "[0]);
  }

  /** The state of the page, updated by its handlers. */
  class CustomPackagePage {
    var currentStep: int
    var newStop: string
    var formData: FormData
    var loading: bool
    var error: Option<string>
    var success: Option<string>

    /** The wizard is on step 1, 2 or 3; no service id is ticked twice; every stop is trimmed and non-empty. */
    ghost predicate Valid()
      reads this
    {
      1 <= currentStep <= 3 && Distinct(formData.additionalServices) && StopsTrimmed(formData.additionalStops)
    }

    constructor ()
      ensures Valid()
      ensures currentStep == 1 && newStop == "" && formData == InitialForm
      ensures !loading && error == None && success == None
    {
      currentStep := 1;
      newStop := "";
      formData := InitialForm;
      loading := false;
      error := None;
      success := None;
    }

    /** `handleInputChange`: only the named field changes. */
    method InputChange(field: Field, value: string)
      requires Valid()
      modifies this
      ensures Valid()
      ensures formData == With(old(formData), field, value)
      ensures currentStep == old(currentStep) && newStop == old(newStop)
      ensures loading == old(loading) && error == old(error) && success == old(success)
    {
      formData := With(formData, field, value);
    }

    /** The extra-stop text box. */
    method NewStopChange(value: string)
      requires Valid()
      modifies this
      ensures Valid()
      ensures newStop == value
      ensures formData == old(formData) && currentStep == old(currentStep)
      ensures loading == old(loading) && error == old(error) && success == old(success)
    {
      newStop := value;
    }

    /** `handleCheckboxChange` */
    method CheckboxChange(service: string)
      requires Valid()
      modifies this
      ensures Valid()
      ensures formData == old(formData).(additionalServices := Toggle(old(formData.additionalServices), service))
      ensures currentStep == old(currentStep) && newStop == old(newStop)
      ensures loading == old(loading) && error == old(error) && success == old(success)
    {
      ToggleKeepsDistinct(formData.additionalServices, service);
      formData := formData.(additionalServices := Toggle(formData.additionalServices, service));
    }

    /** `handleAddStop`: a stop that is not whitespace only is appended trimmed and the text box cleared. */
    method AddStop()
      requires Valid()
      modifies this
      ensures Valid()
      ensures !AllWhitespace(old(newStop)) ==>
                formData == old(formData).(additionalStops := old(formData.additionalStops) + [Trim(old(newStop))]) &&
                newStop == ""
      ensures AllWhitespace(old(newStop)) ==> formData == old(formData) && newStop == old(newStop)
      ensures currentStep == old(currentStep)
      ensures loading == old(loading) && error == old(error) && success == old(success)
    {
      TrimEmptyIff(newStop);
      var stop := Trim(newStop);
      if stop != "" {
        TrimIdempotent(newStop);
        var stops := formData.additionalStops + [stop];
        assert forall k :: 0 <= k < |formData.additionalStops| ==> stops[k] == formData.additionalStops[k];
        formData := formData.(additionalStops := stops);
        newStop := "";
      }
    }

    /** `handleRemoveStop` */
    method RemoveStop(index: int)
      requires Valid()
      modifies this
      ensures Valid()
      ensures formData == old(formData).(additionalStops := DropIndex(old(formData.additionalStops), index))
      ensures currentStep == old(currentStep) && newStop == old(newStop)
      ensures loading == old(loading) && error == old(error) && success == old(success)
    {
      DropIndexKeepsTrimmed(formData.additionalStops, index);
      formData := formData.(additionalStops := DropIndex(formData.additionalStops, index));
    }

    /** "Volgende": shown only before the last step. */
    method NextStep()
      requires Valid() && currentStep < 3
      modifies this
      ensures Valid() && currentStep == old(currentStep) + 1
      ensures formData == old(formData) && newStop == old(newStop)
      ensures loading == old(loading) && error == old(error) && success == old(success)
    {
      currentStep := currentStep + 1;
    }

    /** "Vorige": shown only after the first step. */
    method PreviousStep()
      requires Valid() && currentStep > 1
      modifies this
      ensures Valid() && currentStep == old(currentStep) - 1
      ensures formData == old(formData) && newStop == old(newStop)
      ensures loading == old(loading) && error == old(error) && success == old(success)
    {
      currentStep := currentStep - 1;
    }

    /**
     * `handleSubmit` up to the request: a failed check sets its message and
     * returns without a request; otherwise loading starts and both messages
     * are cleared.
     */
    method BeginSubmit() returns (requested: bool)
      requires Valid()
      modifies this
      ensures Valid()
      ensures requested <==> Validate(formData) == None
      ensures !requested ==> error == Validate(formData) && success == old(success) && loading == old(loading)
      ensures requested ==> loading && error == None && success == None
      ensures formData == old(formData) && currentStep == old(currentStep) && newStop == old(newStop)
    {
      var failure := Validate(formData);
      if failure.Some? {
        error := failure;
        return false;
      }
      loading := true;
      error := None;
      success := None;
      return true;
    }

    /**
     * `handleSubmit` after the request: success shows the fixed success
     * message, a failure the thrown error's message; loading ends either way.
     */
    method CompleteSubmit(outcome: Outcome<()>)
      requires Valid() && loading
      modifies this
      ensures Valid() && !loading
      ensures outcome.Ok? ==> success == Some(SuccessMessage) && error == old(error)
      ensures outcome.HttpStatus? ==> error == Some(SendFailedMessage) && success == old(success)
      ensures outcome.Transport? ==> error == Some(outcome.message) && success == old(success)
      ensures formData == old(formData) && currentStep == old(currentStep) && newStop == old(newStop)
    {
      match outcome {
        case Ok(_) => success := Some(SuccessMessage);
        case HttpStatus(_) => error := Some(SendFailedMessage);
        case Transport(message) => error := Some(message);
      }
      loading := false;
    }
  }
}
