# Appointment booking form: validator and selection sync

A Dafny model of the logic in the appointment-booking form component
(`appointmentForm.tsx`). It covers the three pieces of that component that
carry rules:

- the initial form record (`InitialForm`): every text field is empty and no date is chosen;
- the selection sync effect (`Sync`): when the caller's selected date or
  time changes, both fields of the form take the new values and every other
  field keeps its value;
- the validator `validateForm`. It runs six independent checks on the form
  and writes each failure into an error map that starts out empty. It also
  raises a toast for a missing date and for a missing time, in that order.

The model is laid out in four modules:

- `JsText` (`js_text.dfy`): the ECMAScript whitespace set. It is used both by
  `String.prototype.trim` and by the regex classes `\s`/`\S`. The module also
  defines `Trim` and the blank test `!s.trim()`.
- `Patterns` (`patterns.dfy`): the two regular expressions, each given twice.
  One form is a declarative predicate on strings: `EmailLike` for the
  unanchored `\S+@\S+\.\S+`, and `PhoneChars` for `^[\d\s\-\+\(\)]+$`. The
  other is a left-to-right matcher method. A proof shows the two forms agree.
- `AppointmentForm` (`appointment_form.dfy`): the form record, `Sync`, and the
  validator.
  - `Validate` is the reference definition, stated rule by rule with the
    declarative predicates.
  - `ValidateForm` follows the source statement by statement. It uses the
    executable trim and the matchers, and it is proved equal to `Validate`
    on every form.
- `FormProperties` (`form_properties.dfy`): lemmas that relate several calls,
  and examples on concrete inputs.

React state is modelled by values. The validator returns the error map it
would hand to `setErrors`, together with the toast messages it raises. The
date check stores `null` in the map (`Null`), and the time check stores the
empty string (`Text("")`), as the code does.

Three details of `appointmentForm.tsx` the model keeps:

- The email and phone "required" checks trim. A whitespace-only value is
  therefore "required", not "invalid format".
- The `.` in the email pattern is escaped, so it is a literal dot.
- A missing date or time records a key in the error map, in addition to
  raising a toast.

## Model

| member | source | states |
|---|---|---|
| JsText.WhitespaceSetEdges | appointmentForm.tsx:64-76 | the whitespace set used by `trim()` and by `\s`/`\S` is the ECMAScript WhiteSpace and LineTerminator set: it contains TAB, LF, VT, FF, CR, SPACE, NO-BREAK SPACE, ZERO WIDTH NO-BREAK SPACE, LINE SEPARATOR and IDEOGRAPHIC SPACE, and not NEXT LINE, ZERO WIDTH SPACE, MONGOLIAN VOWEL SEPARATOR or the characters the patterns look for |
| JsText.TrimStart | appointmentForm.tsx:64 | the result is a suffix of the input; everything dropped is whitespace; the result does not start with whitespace |
| JsText.TrimEnd | appointmentForm.tsx:64 | the result is a prefix of the input; everything dropped is whitespace; the result does not end with whitespace |
| JsText.Trim | appointmentForm.tsx:64 | `trim()` returns an infix of the input surrounded by whitespace alone, and that infix neither starts nor ends with whitespace |
| JsText.TrimUnique | appointmentForm.tsx:64 | any infix with those properties is exactly `Trim(s)`, so the contract of `Trim` pins down `trim()` completely |
| JsText.IsBlank | appointmentForm.tsx:64 | `!s.trim()` holds exactly when every character of `s` is whitespace (the empty string included) |
| Patterns.ScanTracksPrefix | appointmentForm.tsx:70 | after any prefix, each flag of the one-pass email scan means what it says; in particular the scan has matched exactly when the prefix contains `\S+@\S+\.\S+` |
| Patterns.TestEmail | appointmentForm.tsx:70 | the email regex test succeeds exactly when some infix of the raw string is non-space, '@', a non-empty non-space run, '.', non-space |
| Patterns.TestPhone | appointmentForm.tsx:76 | the phone regex test succeeds exactly when the string is non-empty and every character is a digit 0-9, whitespace, '-', '+', '(' or ')' |
| FormProperties.EmailPatternAccepts | appointmentForm.tsx:70 | "a@b.c", " a@b.c " and "jo@x.com" contain a match of the email pattern |
| FormProperties.NoAtNoEmail | appointmentForm.tsx:70 | a string without '@' never contains a match of the email pattern |
| FormProperties.EmailPatternRejects | appointmentForm.tsx:70 | "not-an-email", "a @b.c", "a@.c" and "a@b." contain no match |
| FormProperties.PhonePatternExamples | appointmentForm.tsx:76 | "+1 (555) 123-4567" and "555-1234" match the phone pattern; "call-me" and "" do not |
| AppointmentForm.InitialForm | appointmentForm.tsx:18-26 | the initial form holds the empty string in each of the six text fields and no date |
| AppointmentForm.Sync | appointmentForm.tsx:37-43 | after a selection change the form's date and time are the selected ones, and name, email, phone, service and notes are unchanged |
| FormProperties.SyncIdempotent | appointmentForm.tsx:37-43 | running the sync twice with the same selection gives the same form as running it once |
| FormProperties.SyncLatestWins | appointmentForm.tsx:37-43 | after two selection changes only the latest selection is visible |
| FormProperties.SyncKeepsTypedFieldEntries | appointmentForm.tsx:37-43 | a selection change leaves the validator's entries for name, email, phone, service and notes as they were, and the toasts depend on the selection alone |
| AppointmentForm.DateTimeToasts | appointmentForm.tsx:84-92 | "Please select a date" is raised exactly when no date is set, and "Please select a time" exactly when the time is empty; there are at most these two, date first |
| AppointmentForm.Assemble | appointmentForm.tsx:62-92 | an error map built from empty in which each check's outcome sits under its own key and nothing sits under the notes |
| AppointmentForm.Validate | appointmentForm.tsx:61-94 | the reference rules of the validator; the notes never get an entry |
| AppointmentForm.CheckName | appointmentForm.tsx:64-66 | the name check records "Name is required" exactly when the name is whitespace only, and nothing otherwise |
| AppointmentForm.CheckEmail | appointmentForm.tsx:68-72 | the email check records "Email is required" for a whitespace-only email, otherwise "Invalid email format" exactly when the untrimmed email contains no match of the pattern |
| AppointmentForm.CheckPhone | appointmentForm.tsx:74-78 | the phone check records "Phone is required" for a whitespace-only phone, otherwise "Invalid phone format" exactly when a character lies outside the phone class |
| AppointmentForm.CheckSchedule | appointmentForm.tsx:84-92 | the date check records `null` and the time check records `''` exactly when they fail, and the toasts they raise, in order, are those of `DateTimeToasts` |
| AppointmentForm.ValidateForm | appointmentForm.tsx:61-94 | the validator as written, starting from an empty map and running every check, computes exactly the error map and toasts of the reference rules |
| FormProperties.ContactFieldRules | appointmentForm.tsx:64-78 | each contact field's entry: required first, then the pattern, and no entry when both pass |
| FormProperties.SelectionRules | appointmentForm.tsx:80-92 | the service, date and time entries and toasts follow their falsy checks; the map's keys are among the six checked fields |
| FormProperties.RequiredBeforeFormat | appointmentForm.tsx:68-78 | whatever the other fields hold, a blank email gets the "required" message and never the format message, and so does a blank phone |
| FormProperties.EmptyEmailExample | appointmentForm.tsx:68-69 | "" and " \t" as email give "Email is required" |
| FormProperties.MalformedEmailExample | appointmentForm.tsx:70-71 | "not-an-email" gives "Invalid email format" |
| FormProperties.WellFormedEmailExample | appointmentForm.tsx:68-72 | "a@b.c" gets no email entry |
| FormProperties.EmptyPhoneExample | appointmentForm.tsx:74-75 | "" and "  " as phone give "Phone is required" |
| FormProperties.MalformedPhoneExample | appointmentForm.tsx:76-77 | "call-me" gives "Invalid phone format" |
| FormProperties.WellFormedPhoneExample | appointmentForm.tsx:74-78 | "+1 (555) 123-4567" gets no phone entry |
| FormProperties.ServiceIsNotTrimmed | appointmentForm.tsx:80-82 | a service of " " passes and an empty service gets "Please select a service" |
| FormProperties.EntryDependsOnlyOnItsField | appointmentForm.tsx:62-92 | no check short-circuits another: two forms that agree on a field get the same entry for it |
| FormProperties.ToastsDependOnlyOnDateAndTime | appointmentForm.tsx:84-92 | two forms with the same date and time raise the same toasts |
| FormProperties.NotesNeverChecked | appointmentForm.tsx:61-94 | changing the notes changes neither the error map nor the toasts |
| FormProperties.NoEntriesIffEveryCheckPasses | appointmentForm.tsx:62-92 | the error map is empty exactly when all six checks pass, and no toast is raised exactly when a date and a time are set |
| FormProperties.FilledFormStringsPass | appointmentForm.tsx:64-78 | "Jo", "jo@x.com" and "555-1234" pass the name, email and phone rules |
| FormProperties.FilledFormPasses | appointmentForm.tsx:61-92 | a form filled with Jo / jo@x.com / 555-1234 / service "1" / a date / "10:00" gets no entry and no toast |
| FormProperties.InitialFormFailsEveryCheck | appointmentForm.tsx:18-26 | the initial form gets an entry for each of the six checked fields, the "required" messages for email and phone, and exactly the two toasts, date first |
| FormProperties.MountedFormChecks | appointmentForm.tsx:37-43 | once the sync has copied a selection into the initial form, name, email and phone fail as "required", the service fails as "Please select a service", and the date and time checks fail exactly when the selection lacks them |

## Left out

- `loadServices` (appointmentForm.tsx:45-59): it assigns a constant list of four services. Its `catch` branch cannot be reached, so there is no logic to model.
- The submission path, the `loading` flag and the boolean result of `validateForm`: the source file ends at line 94, before any of them is visible, so the model does not invent them.
- React plumbing (`useState`, `useEffect`, `setErrors`, `setFormData`): state updates are modelled as function results.
- Toast rendering: toasts are modelled only as the ordered sequence of their messages.
- The unused imports (`format` from date-fns, `serviceApi`).
- The internals of `Date` objects: a date is an opaque token, and the form only asks whether one is present.
- UTF-16: JavaScript strings are sequences of UTF-16 code units, while Dafny strings here are sequences of Unicode scalar values. Every character outside the Basic Multilingual Plane is non-whitespace and outside the phone class, and so is each of its two surrogate halves. Trimming, blankness and both pattern tests therefore give the same answers either way.
- The regex engine: the two patterns are modelled by hand-written matchers, proved equal to the strings the patterns describe, not by a general regular-expression semantics.
