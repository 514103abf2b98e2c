/**
 * The appointment-booking form: its field record, the sync of the date and
 * time fields with the caller's selection, and the validator run on submit.
 *
 * React state is modelled by values: the validator returns the error map it
 * hands to `setErrors` together with the toast messages it raises, in order.
 */
module AppointmentForm {
  import opened JsText
  import opened Patterns

  datatype Option<+T> = None | Some(value: T)

  /** A JavaScript `Date` object. The form only asks whether one is present
      (any `Date` object is truthy), so its time value is never inspected. */
  datatype DateToken = DateToken(timeValue: int)

  /** BookingFormData: everything the user fills in; `date` is `null` until one is selected. */
  datatype FormData = FormData(
    clientName: string,
    clientEmail: string,
    clientPhone: string,
    service: string,
    date: Option<DateToken>,
    time: string,
    notes: string)

  datatype Field = ClientName | ClientEmail | ClientPhone | Service | Date | Time | Notes

  /** A value stored in the error map. The four text checks store a message;
      the date check stores `null` and the time check the empty string. */
  datatype ErrVal = Text(message: string) | Null

  /** One validation pass: the new error map and the toasts it raised, in order. */
  datatype Validation = Validation(errors: map<Field, ErrVal>, toasts: seq<string>) {
    /** The entry this pass recorded for `k`, if any. */
    function Entry(k: Field): Option<ErrVal> {
      EntryOf(errors, k)
    }
  }

  /** The entry an error map holds for `k`, if any. */
  function EntryOf(m: map<Field, ErrVal>, k: Field): Option<ErrVal> {
    if k in m then Some(m[k]) else None
  }

  const NameRequired: string := "Name is required"
  const EmailRequired: string := "Email is required"
  const EmailInvalid: string := "Invalid email format"
  const PhoneRequired: string := "Phone is required"
  const PhoneInvalid: string := "Invalid phone format"
  const ServiceMissing: string := "Please select a service"
  const DateMissing: string := "Please select a date"
  const TimeMissing: string := "Please select a time"

  /** The value a field holds in the form. */
  datatype FieldValue = StringValue(s: string) | DateValue(d: Option<DateToken>)

  /** The value `fld` holds in `f`. */
  function ValueOf(f: FormData, fld: Field): FieldValue {
    match fld
    case ClientName => StringValue(f.clientName)
    case ClientEmail => StringValue(f.clientEmail)
    case ClientPhone => StringValue(f.clientPhone)
    case Service => StringValue(f.service)
    case Date => DateValue(f.date)
    case Time => StringValue(f.time)
    case Notes => StringValue(f.notes)
  }

  /** The form state before the user has typed anything: every text field
      is the empty string and no date is chosen. */
  function InitialForm(): (f: FormData)
    ensures forall fld :: fld != Date ==> ValueOf(f, fld) == StringValue("")
    ensures f.date.None?
  {
    FormData("", "", "", "", None, "", "")
  }

  /** The effect run whenever the selected date or time changes: both fields
      take the caller's values and nothing else in the form moves. */
  function Sync(f: FormData, selectedDate: Option<DateToken>, selectedTime: string): (g: FormData)
    ensures g.date == selectedDate && g.time == selectedTime
    ensures g.clientName == f.clientName && g.clientEmail == f.clientEmail
    ensures g.clientPhone == f.clientPhone && g.service == f.service && g.notes == f.notes
  {
    f.(date := selectedDate, time := selectedTime)
  }

  /** The toasts of the date and time checks, in the order the checks run. */
  function DateTimeToasts(date: Option<DateToken>, time: string): (n: seq<string>)
    ensures DateMissing in n <==> date.None?
    ensures TimeMissing in n <==> time == ""
    ensures n in {[], [DateMissing], [TimeMissing], [DateMissing, TimeMissing]}
  {
    var first: seq<string> := if date.None? then [DateMissing] else [];
    assert [] + [TimeMissing] == [TimeMissing];
    assert [DateMissing] + [TimeMissing] == [DateMissing, TimeMissing];
    if time == "" then first + [TimeMissing] else first
  }

  /** Writes `r` under `k` when a check produced one; otherwise leaves `m` as it is. */
  function Record(m: map<Field, ErrVal>, k: Field, r: Option<ErrVal>): (m': map<Field, ErrVal>)
    ensures EntryOf(m', k) == if r.Some? then r else EntryOf(m, k)
    ensures forall j :: j != k ==> EntryOf(m', j) == EntryOf(m, j)
  {
    if r.Some? then m[k := r.value] else m
  }

  /** The error map after the three contact checks: each writes its outcome
      under its own key into a map that starts out empty. */
  function ContactErrors(name: Option<ErrVal>, email: Option<ErrVal>, phone: Option<ErrVal>): (m: map<Field, ErrVal>)
    ensures EntryOf(m, ClientName) == name && EntryOf(m, ClientEmail) == email
    ensures EntryOf(m, ClientPhone) == phone
    ensures forall j :: j !in {ClientName, ClientEmail, ClientPhone} ==> EntryOf(m, j) == None
  {
    Record(Record(Record(map[], ClientName, name), ClientEmail, email), ClientPhone, phone)
  }

  /** The error map built from the outcome of each of the six checks: after
      the contact checks, the service, date and time checks each write their
      outcome under their own key, and nothing is ever written under the notes. */
  function Assemble(name: Option<ErrVal>, email: Option<ErrVal>, phone: Option<ErrVal>,
                    service: Option<ErrVal>, date: Option<ErrVal>, time: Option<ErrVal>): (m: map<Field, ErrVal>)
    ensures EntryOf(m, ClientName) == name && EntryOf(m, ClientEmail) == email
    ensures EntryOf(m, ClientPhone) == phone && EntryOf(m, Service) == service
    ensures EntryOf(m, Date) == date && EntryOf(m, Time) == time
    ensures EntryOf(m, Notes) == None
  {
    Record(Record(Record(ContactErrors(name, email, phone), Service, service), Date, date), Time, time)
  }

  /** The name rule: required, whitespace alone does not count. */
  ghost function NameRule(name: string): Option<ErrVal> {
    if AllSpace(name) then Some(Text(NameRequired)) else None
  }

  /** The email rule: required as for the name; otherwise it must contain a match of the pattern. */
  ghost function EmailRule(email: string): Option<ErrVal> {
    if AllSpace(email) then Some(Text(EmailRequired))
    else if !EmailLike(email) then Some(Text(EmailInvalid))
    else None
  }

  /** The phone rule: required as for the name; otherwise it must consist of phone characters. */
  ghost function PhoneRule(phone: string): Option<ErrVal> {
    if AllSpace(phone) then Some(Text(PhoneRequired))
    else if !PhoneChars(phone) then Some(Text(PhoneInvalid))
    else None
  }

  /** The service rule: only the empty string counts as no selection. */
  function ServiceRule(service: string): Option<ErrVal> {
    if service == "" then Some(Text(ServiceMissing)) else None
  }

  /** The date rule: a missing date records `null`. */
  function DateRule(date: Option<DateToken>): Option<ErrVal> {
    if date.None? then Some(Null) else None
  }

  /** The time rule: an empty time records the empty string. */
  function TimeRule(time: string): Option<ErrVal> {
    if time == "" then Some(Text("")) else None
  }

  /** The fields `validateForm` checks: all but the notes. */
  const CheckedFields: set<Field> := {ClientName, ClientEmail, ClientPhone, Service, Date, Time}

  /** What `validateForm` is meant to compute, rule by rule, stated with the
      declarative descriptions of a blank string and of the two patterns:
      each checked field gets the message of the first rule it breaks, the
      date and time checks also raise their toasts, and notes are ignored. */
  ghost function Validate(f: FormData): (v: Validation)
    ensures Notes !in v.errors
  {
    Validation(
      Assemble(NameRule(f.clientName), EmailRule(f.clientEmail), PhoneRule(f.clientPhone),
               ServiceRule(f.service), DateRule(f.date), TimeRule(f.time)),
      DateTimeToasts(f.date, f.time))
  }

  /** Two validation passes that agree on the entry of every field have the same error map. */
  lemma EntriesDetermineErrors(v: Validation, w: Validation)
    requires forall k :: v.Entry(k) == w.Entry(k)
    ensures v.errors == w.errors
  {
    forall k | k in v.errors
      ensures k in w.errors && v.errors[k] == w.errors[k]
    {
      assert v.Entry(k) == w.Entry(k);
    }
    forall k | k in w.errors
      ensures k in v.errors
    {
      assert v.Entry(k) == w.Entry(k);
    }
  }

  /** The name check as written: the value is trimmed and checked for emptiness. */
  method CheckName(name: string) returns (r: Option<ErrVal>)
    ensures r == NameRule(name)
  {
    r := None;
    var blank := IsBlank(name);
    if blank {
      r := Some(Text(NameRequired));
    }
  }

  /** The email check as written: the trimmed value is checked for emptiness,
      and only a non-blank value is matched, untrimmed, against the pattern. */
  method CheckEmail(email: string) returns (r: Option<ErrVal>)
    ensures r == EmailRule(email)
  {
    r := None;
    var blank := IsBlank(email);
    if blank {
      r := Some(Text(EmailRequired));
    } else {
      var ok := TestEmail(email);
      if !ok {
        r := Some(Text(EmailInvalid));
      }
    }
  }

  /** The phone check as written, built like the email check. */
  method CheckPhone(phone: string) returns (r: Option<ErrVal>)
    ensures r == PhoneRule(phone)
  {
    r := None;
    var blank := IsBlank(phone);
    if blank {
      r := Some(Text(PhoneRequired));
    } else {
      var ok := TestPhone(phone);
      if !ok {
        r := Some(Text(PhoneInvalid));
      }
    }
  }

  /** The date and time checks as written: each failed check records its
      entry and raises its toast at once, the date check first. */
  method CheckSchedule(date: Option<DateToken>, time: string)
    returns (dateErr: Option<ErrVal>, timeErr: Option<ErrVal>, toasts: seq<string>)
    ensures dateErr == DateRule(date) && timeErr == TimeRule(time)
    ensures toasts == DateTimeToasts(date, time)
  {
    dateErr, timeErr, toasts := None, None, [];
    if date.None? {
      dateErr := Some(Null);
      toasts := toasts + [DateMissing];
    }
    if time == "" {
      timeErr := Some(Text(""));
      toasts := toasts + [TimeMissing];
    }
  }

  /** `validateForm` as written: the checks run in source order, each failed
      check writes its entry into a map that starts out empty, and the date
      and time checks raise their toasts. The outcome is exactly the rules of
      `Validate`. */
  method ValidateForm(f: FormData) returns (v: Validation)
    ensures v == Validate(f)
  {
    var errors: map<Field, ErrVal> := map[];

    var name := CheckName(f.clientName);
    errors := Record(errors, ClientName, name);

    var email := CheckEmail(f.clientEmail);
    errors := Record(errors, ClientEmail, email);

    var phone := CheckPhone(f.clientPhone);
    errors := Record(errors, ClientPhone, phone);

    var service: Option<ErrVal> := None;
    if f.service == "" {
      service := Some(Text(ServiceMissing));
    }
    errors := Record(errors, Service, service);

    var date, time, toasts := CheckSchedule(f.date, f.time);
    errors := Record(errors, Date, date);
    errors := Record(errors, Time, time);

    v := Validation(errors, toasts);
  }
}
