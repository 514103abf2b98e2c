/**
 * Properties of the booking form's validator and of the date/time sync that
 * relate several calls, or pin the behaviour down on concrete inputs.
 */
module FormProperties {
  import opened JsText
  import opened Patterns
  import opened AppointmentForm

  // ---------------------------------------------------------------------
  // The two patterns on concrete strings
  // ---------------------------------------------------------------------

  /** "a@b.c" is the smallest kind of address the pattern accepts; the match
      need not cover the whole string, so surrounding spaces do not matter. */
  lemma EmailPatternAccepts()
    ensures EmailLike("a@b.c")
    ensures EmailLike(" a@b.c ")
    ensures EmailLike("jo@x.com")
  {
    assert EmailAt("a@b.c", 1, 3);
    assert EmailAt(" a@b.c ", 2, 4);
    assert EmailAt("jo@x.com", 2, 4);
  }

  /** A string with no '@' never matches. */
  lemma NoAtNoEmail(s: string)
    requires forall i :: 0 <= i < |s| ==> s[i] != '@'
    ensures !EmailLike(s)
  {
    forall p, q ensures !EmailAt(s, p, q) {
      if 0 <= p < |s| {
        assert s[p] != '@';
      }
    }
  }

  /** Strings the pattern rejects: no '@'; whitespace right before the '@';
      nothing between '@' and '.'; nothing after the '.'. */
  lemma EmailPatternRejects()
    ensures !EmailLike("not-an-email")
    ensures !EmailLike("a @b.c")
    ensures !EmailLike("a@.c")
    ensures !EmailLike("a@b.")
  {
    NoAtNoEmail("not-an-email");
    var s1, s2, s3 := "a @b.c", "a@.c", "a@b.";
    forall p, q ensures !EmailAt(s1, p, q) && !EmailAt(s2, p, q) && !EmailAt(s3, p, q) {
      if 0 <= p < |s1| && s1[p] == '@' {
        assert p == 2;
      }
      if 0 <= p < |s2| && s2[p] == '@' {
        assert p == 1;
      }
      if 0 <= p < |s3| && s3[p] == '@' {
        assert p == 1;
      }
    }
  }

  lemma PhonePatternExamples()
    ensures PhoneChars("+1 (555) 123-4567")
    ensures PhoneChars("555-1234")
    ensures !PhoneChars("call-me")
    ensures !PhoneChars("")
  {
    assert "call-me"[0] == 'c';
  }

  // ---------------------------------------------------------------------
  // The validator
  // ---------------------------------------------------------------------

  /** The rules for the three typed contact fields, each stated against the
      declarative description of a blank string and of the two patterns: the
      required check comes first, the pattern only for a non-blank value. */
  lemma ContactFieldRules(f: FormData)
    ensures Validate(f).Entry(ClientName) ==
              if AllSpace(f.clientName) then Some(Text(NameRequired)) else None
    ensures Validate(f).Entry(ClientEmail) ==
              if AllSpace(f.clientEmail) then Some(Text(EmailRequired))
              else if !EmailLike(f.clientEmail) then Some(Text(EmailInvalid))
              else None
    ensures Validate(f).Entry(ClientPhone) ==
              if AllSpace(f.clientPhone) then Some(Text(PhoneRequired))
              else if !PhoneChars(f.clientPhone) then Some(Text(PhoneInvalid))
              else None
  {
  }

  /** The rules for the selections: a falsy check on each, with no trimming;
      the date and time checks also raise their toasts, date first. */
  lemma SelectionRules(f: FormData)
    ensures Validate(f).Entry(Service) == if f.service == "" then Some(Text(ServiceMissing)) else None
    ensures Validate(f).Entry(Date) == if f.date.None? then Some(Null) else None
    ensures Validate(f).Entry(Time) == if f.time == "" then Some(Text("")) else None
    ensures Validate(f).errors.Keys <= CheckedFields
    ensures DateMissing in Validate(f).toasts <==> f.date.None?
    ensures TimeMissing in Validate(f).toasts <==> f.time == ""
    ensures Validate(f).toasts in {[], [DateMissing], [TimeMissing], [DateMissing, TimeMissing]}
  {
  }

  /** The required check runs before the pattern: an empty or whitespace-only
      email is reported as missing and never as malformed, whatever the other
      fields hold, and the same holds for the phone. */
  lemma RequiredBeforeFormat(f: FormData)
    ensures AllSpace(f.clientEmail) ==> Validate(f).Entry(ClientEmail) == Some(Text(EmailRequired))
    ensures AllSpace(f.clientPhone) ==> Validate(f).Entry(ClientPhone) == Some(Text(PhoneRequired))
  {
  }

  /** An empty or whitespace-only email is reported as missing. */
  lemma EmptyEmailExample(f: FormData)
    requires f.clientEmail == "" || f.clientEmail == " \t"
    ensures Validate(f).Entry(ClientEmail) == Some(Text(EmailRequired))
  {
  }

  /** "not-an-email" is not blank, so it reaches the pattern, which rejects it. */
  lemma MalformedEmailExample(f: FormData)
    requires f.clientEmail == "not-an-email"
    ensures Validate(f).Entry(ClientEmail) == Some(Text(EmailInvalid))
  {
    assert !IsSpace(f.clientEmail[0]);
    NoAtNoEmail(f.clientEmail);
  }

  /** "a@b.c" passes the email check. */
  lemma WellFormedEmailExample(f: FormData)
    requires f.clientEmail == "a@b.c"
    ensures Validate(f).Entry(ClientEmail) == None
  {
    assert EmailAt(f.clientEmail, 1, 3);
    assert !IsSpace(f.clientEmail[0]);
  }

  /** An empty or whitespace-only phone is reported as missing. */
  lemma EmptyPhoneExample(f: FormData)
    requires f.clientPhone == "" || f.clientPhone == "  "
    ensures Validate(f).Entry(ClientPhone) == Some(Text(PhoneRequired))
  {
  }

  /** "call-me" is not blank, so it reaches the character class, which rejects its letters. */
  lemma MalformedPhoneExample(f: FormData)
    requires f.clientPhone == "call-me"
    ensures Validate(f).Entry(ClientPhone) == Some(Text(PhoneInvalid))
  {
    assert !IsPhoneChar(f.clientPhone[0]);
  }

  /** "+1 (555) 123-4567" passes the phone check. */
  lemma WellFormedPhoneExample(f: FormData)
    requires f.clientPhone == "+1 (555) 123-4567"
    ensures Validate(f).Entry(ClientPhone) == None
  {
    PhonePatternExamples();
    assert !IsSpace(f.clientPhone[0]);
  }

  /** The service check does not trim: a lone space counts as a selection. */
  lemma ServiceIsNotTrimmed(f: FormData)
    ensures Validate(f.(service := " ")).Entry(Service) == None
    ensures Validate(f.(service := "")).Entry(Service) == Some(Text(ServiceMissing))
  {
  }

  /** No check short-circuits another: the entry for a field, present or not
      and whatever its value, is decided by that field's own value alone. */
  lemma EntryDependsOnlyOnItsField(f: FormData, g: FormData, fld: Field)
    requires ValueOf(f, fld) == ValueOf(g, fld)
    ensures Validate(f).Entry(fld) == Validate(g).Entry(fld)
  {
    match fld
    case ClientName =>
      assert f.clientName == g.clientName;
    case ClientEmail =>
      assert f.clientEmail == g.clientEmail;
    case ClientPhone =>
      assert f.clientPhone == g.clientPhone;
    case Service =>
    case Date =>
    case Time =>
    case Notes =>
  }

  /** The toasts depend on the date and time fields alone. */
  lemma ToastsDependOnlyOnDateAndTime(f: FormData, g: FormData)
    requires f.date == g.date && f.time == g.time
    ensures Validate(f).toasts == Validate(g).toasts
  {
  }

  /** Notes are never checked: changing them changes nothing the validator produces. */
  lemma NotesNeverChecked(f: FormData, notes: string)
    ensures Validate(f.(notes := notes)) == Validate(f)
  {
    var v, w := Validate(f.(notes := notes)), Validate(f);
    forall k ensures v.Entry(k) == w.Entry(k) {
      if k != Notes {
        EntryDependsOnlyOnItsField(f.(notes := notes), f, k);
      }
    }
    EntriesDetermineErrors(v, w);
  }

  /** The error map comes out empty exactly when every one of the six checks
      passes, and no toast is raised exactly when a date and a time are set. */
  lemma NoEntriesIffEveryCheckPasses(f: FormData)
    ensures Validate(f).errors == map[] <==>
              && !AllSpace(f.clientName)
              && !AllSpace(f.clientEmail) && EmailLike(f.clientEmail)
              && !AllSpace(f.clientPhone) && PhoneChars(f.clientPhone)
              && f.service != ""
              && f.date.Some?
              && f.time != ""
    ensures Validate(f).toasts == [] <==> f.date.Some? && f.time != ""
  {
    var v := Validate(f);
    if v.errors == map[] {
      assert v.Entry(ClientName) == None && v.Entry(ClientEmail) == None;
      assert v.Entry(ClientPhone) == None && v.Entry(Service) == None;
      assert v.Entry(Date) == None && v.Entry(Time) == None;
    }
    if v.Entry(ClientName) == None && v.Entry(ClientEmail) == None && v.Entry(ClientPhone) == None
       && v.Entry(Service) == None && v.Entry(Date) == None && v.Entry(Time) == None
    {
      assert v.errors.Keys == {};
    }
  }

  /** The strings of a correctly filled-in form pass their checks. */
  lemma FilledFormStringsPass()
    ensures !AllSpace("Jo")
    ensures !AllSpace("jo@x.com") && EmailLike("jo@x.com")
    ensures !AllSpace("555-1234") && PhoneChars("555-1234")
  {
    assert !IsSpace("Jo"[0]);
    assert !IsSpace("jo@x.com"[0]) && EmailAt("jo@x.com", 2, 4);
    assert !IsSpace("555-1234"[0]);
  }

  /** A correctly filled-in form: no entry and no toast. */
  lemma FilledFormPasses(f: FormData)
    requires f.clientName == "Jo" && f.clientEmail == "jo@x.com" && f.clientPhone == "555-1234"
    requires f.service == "1" && f.date.Some? && f.time == "10:00"
    ensures Validate(f).errors == map[]
    ensures Validate(f).toasts == []
  {
    FilledFormStringsPass();
    NoEntriesIffEveryCheckPasses(f);
  }

  /** The untouched form fails all six checks, with both "required" messages
      for email and phone, and raises the date toast before the time toast. */
  lemma InitialFormFailsEveryCheck(f: FormData)
    requires f == InitialForm()
    ensures Validate(f).errors.Keys == CheckedFields
    ensures Validate(f).Entry(ClientEmail) == Some(Text(EmailRequired))
    ensures Validate(f).Entry(ClientPhone) == Some(Text(PhoneRequired))
    ensures Validate(f).toasts == [DateMissing, TimeMissing]
  {
    var v := Validate(f);
    assert v.Entry(ClientName).Some? && v.Entry(Service).Some?;
    assert v.Entry(Date).Some? && v.Entry(Time).Some?;
  }

  // ---------------------------------------------------------------------
  // The date/time sync
  // ---------------------------------------------------------------------

  /** Running the sync again with the same selection changes nothing. */
  lemma SyncIdempotent(f: FormData, d: Option<DateToken>, t: string)
    ensures Sync(Sync(f, d, t), d, t) == Sync(f, d, t)
  {
  }

  /** Only the latest selection counts. */
  lemma SyncLatestWins(f: FormData, d1: Option<DateToken>, t1: string, d2: Option<DateToken>, t2: string)
    ensures Sync(Sync(f, d1, t1), d2, t2) == Sync(f, d2, t2)
  {
  }

  /** A selection change leaves the entries of every field outside the
      selection (name, email, phone, service and notes) as they were, and the toasts are decided by the selection alone. */
  lemma SyncKeepsTypedFieldEntries(f: FormData, d: Option<DateToken>, t: string, fld: Field)
    requires fld in {ClientName, ClientEmail, ClientPhone, Service, Notes}
    ensures Validate(Sync(f, d, t)).Entry(fld) == Validate(f).Entry(fld)
    ensures Validate(Sync(f, d, t)).toasts == Validate(Sync(InitialForm(), d, t)).toasts
  {
    EntryDependsOnlyOnItsField(Sync(f, d, t), f, fld);
  }

  /** Right after mounting, the sync has copied the caller's selection into
      the empty form: name, email and phone fail as "required", the service
      fails as "Please select a service", and the date
      and time checks fail exactly when the selection is missing. */
  lemma MountedFormChecks(d: Option<DateToken>, t: string)
    ensures Validate(Sync(InitialForm(), d, t)).Entry(ClientName) == Some(Text(NameRequired))
    ensures Validate(Sync(InitialForm(), d, t)).Entry(ClientEmail) == Some(Text(EmailRequired))
    ensures Validate(Sync(InitialForm(), d, t)).Entry(ClientPhone) == Some(Text(PhoneRequired))
    ensures Validate(Sync(InitialForm(), d, t)).Entry(Service) == Some(Text(ServiceMissing))
    ensures Validate(Sync(InitialForm(), d, t)).Entry(Date).Some? <==> d.None?
    ensures Validate(Sync(InitialForm(), d, t)).Entry(Time).Some? <==> t == ""
  {
  }
}
