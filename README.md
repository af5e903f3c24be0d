# Time-entry form: schema and submit cycle

This project models the logic of the time-tracker form component in
`time-tracker-app/src/forms/TimeTrackerForm.jsx`. That logic has two parts.

- **The time-entry schema.** A draft has six string fields: employee name,
  project, date, start time, end time and optional notes. Each field has one
  rule, and every rule is applied, so all faulty fields are reported together.
  After the field rules, one cross-field rule runs. If both times are
  non-empty, it requires the end time to be greater than the start time
  *as a string* (JavaScript's `>`). When that fails, the issue is attached to
  the end time. Validation either accepts the draft and hands it on verbatim,
  or returns the ordered list of (field, message) issues. Beside each field
  the form shows the first message reported on it.
- **The form controller.** This is an object holding the current draft, the
  messages on display, and the date captured when the form was created.
  `Edit` changes one field. `Submit` validates the draft. On success it hands
  the record to the submit handler and resets the form to its defaults: all
  fields empty except the date. On failure it shows the messages and keeps the
  draft as it was.

The file holds two concatenated copies of the component. The first copy
(lines 1–91) does not parse, because of a stray `yield` at line 8. The model
follows the second copy (lines 92–183), and every citation below points into
it.

Modules:

- `lex_order.dfy` (`LexOrder`): JavaScript's string order.
  - It is written out because Dafny's `<` on sequences means "proper prefix".
  - It is proved equal to the textbook prefix definition.
  - It is proved a strict total order: irreflexive, transitive, and for any
    two different strings exactly one is smaller.
- `time_format.dfy` (`TimeFormat`): the pattern `^([0-1]?[0-9]|2[0-3]):[0-5][0-9]$`,
  written as a predicate, plus the clock value that a matching string names.
  - The pattern accepts exactly the `HH:MM` spellings from 00:00 to 23:59,
    plus the `H:MM` spellings with a single-digit hour.
  - When both strings have the same width, string order is chronological order.
  - Across widths it is not: `"10:00" > "9:00"` is false, although 10:00 is later.
- `schema.dfy` (`TimeEntrySchema`): the rules, the messages, validation, the
  per-field independence of the rules, the order of the report, and the
  message shown per field. The report (`Report`) is stated over the outcome
  of each of the seven checks, and a draft's issues are that report applied
  to the draft's own outcomes.
- `form.dfy` (`TimeTrackerForm`): the defaults, the `Form` class with
  `Edit` / `Reset` / `Submit`, and a two-entry scenario on one form.
- `wrappers.dfy` (`Wrappers`): the `Option` type. It models the optional
  `notes` field and the "record handed on or not" result of `Submit`.

Design points:

- **The refinement runs even when field rules fail.** A failed string check
  does not stop Zod from running the object's refinement. So a draft with
  malformed but non-empty times is still compared as strings.
  `FaultyEntryReportsEveryField` shows the case `"25:00"` / `"ab:cd"`. There
  the comparison passes, so exactly five issues are reported.
- **An end time can carry two issues.** When the end time is malformed and
  the ordering also fails, the issue list holds both the format issue and the
  ordering issue. The displayed message is the first one, the format message
  (`DisplayedMessages`).
- **The code is modelled as written.** The comparison stays lexicographic,
  even though it misorders single-digit hours. The model does not parse times
  into minutes before comparing them. `SingleDigitStartRejected` proves that a
  9:00–10:00 entry is rejected.

## Model

| member | source | states |
|---|---|---|
| `LexOrder.LessIsLexicographic` | time-tracker-app/src/forms/TimeTrackerForm.jsx:109 | The string comparison holds exactly when the strings share a prefix that is followed either by a smaller character or by the end of the first string (both directions). |
| `LexOrder.LessIrreflexive` | time-tracker-app/src/forms/TimeTrackerForm.jsx:109 | No string is greater than itself. |
| `LexOrder.LessTrichotomous` | time-tracker-app/src/forms/TimeTrackerForm.jsx:109 | Any two strings are equal or ordered one way, never both ways. |
| `LexOrder.LessTransitive` | time-tracker-app/src/forms/TimeTrackerForm.jsx:109 | If `b > a` and `c > b` then `c > a`, for all strings. |
| `TimeFormat.HourOf` | time-tracker-app/src/forms/TimeTrackerForm.jsx:103-104 | The hour named by a matching string is below 24, and below 10 in the four-character form. |
| `TimeFormat.MinuteOf` | time-tracker-app/src/forms/TimeTrackerForm.jsx:103-104 | The minute named by a matching string is below 60. |
| `TimeFormat.MinutesOf` | time-tracker-app/src/forms/TimeTrackerForm.jsx:103-104 | Minutes since midnight are below 1440, and split back into the hour and the minute. |
| `TimeFormat.TimeShape` | time-tracker-app/src/forms/TimeTrackerForm.jsx:103-104 | Every accepted string has length 4 or 5 and contains a colon; the empty string is rejected. |
| `TimeFormat.TimeSpelling` | time-tracker-app/src/forms/TimeTrackerForm.jsx:103-104 | An accepted string is the `HH:MM` (length 5) or `H:MM` (length 4) spelling of its own hour and minute. |
| `TimeFormat.SpelledTimesMatch` | time-tracker-app/src/forms/TimeTrackerForm.jsx:103-104 | Every `HH:MM` time from 00:00 to 23:59, and every `H:MM` time with hour 0–9, is accepted and names that hour and minute. |
| `TimeFormat.TimeFormatExact` | time-tracker-app/src/forms/TimeTrackerForm.jsx:103-104 | The pattern accepts a string if and only if it is the `HH:MM` spelling of a time of day, or the `H:MM` spelling of one with a single-digit hour. |
| `TimeFormat.SameWidthOrderIsChronological` | time-tracker-app/src/forms/TimeTrackerForm.jsx:103-109 | For two accepted strings of equal length, string order is the same as the order of minutes since midnight (both directions). |
| `TimeFormat.SingleDigitHourBreaksOrder` | time-tracker-app/src/forms/TimeTrackerForm.jsx:103-109 | "9:00" and "10:00" are both accepted and 9:00 is earlier, yet "10:00" is not greater than "9:00" as a string. |
| `TimeEntrySchema.Validate` | time-tracker-app/src/forms/TimeTrackerForm.jsx:99-113 | A draft is accepted if and only if every field rule and the refinement hold. An accepted record equals the input draft. A rejection carries the full, non-empty issue list. |
| `TimeEntrySchema.IssuesPerField` | time-tracker-app/src/forms/TimeTrackerForm.jsx:99-113 | The issues on each field are exactly that field's rule applied to that field's value. The end time additionally carries the refinement's issue, after its format issue. |
| `TimeEntrySchema.IssuesOnConcat` | time-tracker-app/src/forms/TimeTrackerForm.jsx:99-105 | Selecting the issues of one field commutes with joining two issue lists. This is a rule-independence step. |
| `TimeEntrySchema.FieldIssuesIndependent` | time-tracker-app/src/forms/TimeTrackerForm.jsx:99-105 | Two drafts that agree on a field other than the end time get the same issues on that field, whatever their other fields hold. |
| `TimeEntrySchema.MessagesReported` | time-tracker-app/src/forms/TimeTrackerForm.jsx:100-113 | Each of the seven messages, on its own field, is reported if and only if its rule fails. So failures are all reported, not short-circuited. |
| `TimeEntrySchema.IssuesInOrder` | time-tracker-app/src/forms/TimeTrackerForm.jsx:99-113 | The report has at most seven issues. They follow field declaration order, with the refinement's issue last, and no issue appears twice. |
| `TimeEntrySchema.ShortNotesPass` | time-tracker-app/src/forms/TimeTrackerForm.jsx:105 | Absent notes, or notes of at most 500 characters, draw no issue. |
| `TimeEntrySchema.OnlyLongNotesRejected` | time-tracker-app/src/forms/TimeTrackerForm.jsx:105 | Notes over 500 characters on an otherwise valid draft give exactly one issue, the notes message. |
| `TimeEntrySchema.EmptyTimeSkipsOrdering` | time-tracker-app/src/forms/TimeTrackerForm.jsx:108 | With either time empty, the ordering issue never arises. |
| `TimeEntrySchema.EqualTimesRejected` | time-tracker-app/src/forms/TimeTrackerForm.jsx:106-113 | Equal non-empty times draw the ordering issue on the end time, and the draft is rejected. |
| `TimeEntrySchema.PaddedOrderingIsChronological` | time-tracker-app/src/forms/TimeTrackerForm.jsx:103-109 | For two zero-padded `HH:MM` times, the refinement holds if and only if the end is later on the clock. |
| `TimeEntrySchema.SingleDigitStartRejected` | time-tracker-app/src/forms/TimeTrackerForm.jsx:103-113 | A 9:00 to 10:00 entry is well-formed and chronologically ordered, yet it draws the ordering issue. |
| `TimeEntrySchema.Displayed` | time-tracker-app/src/forms/TimeTrackerForm.jsx:141-176 | The shown messages cover exactly the fields with at least one issue. Each field shows the first issue reported on it. |
| `TimeEntrySchema.DisplayedMessages` | time-tracker-app/src/forms/TimeTrackerForm.jsx:100-113 | Field by field, a message is shown if and only if its rule fails, and it is that rule's exact text. The end time shows its format message when malformed, and otherwise the ordering message. |
| `TimeEntrySchema.WellFormedEntryAccepted` | time-tracker-app/src/forms/TimeTrackerForm.jsx:99-113 | {"Jane Doe", "Acme", "2024-05-01", "09:00", "17:00", ""} is accepted and handed on unchanged. |
| `TimeEntrySchema.FaultyEntryReportsEveryField` | time-tracker-app/src/forms/TimeTrackerForm.jsx:99-113 | {"J", "", "", "25:00", "ab:cd", ""} gives exactly five issues, one each on the name, project, date, start time and end time, in that order. |
| `TimeEntrySchema.OverlongNotesEntry` | time-tracker-app/src/forms/TimeTrackerForm.jsx:105 | 501 characters of notes on an otherwise valid entry give only "Notes cannot exceed 500 characters". |
| `TimeTrackerForm.WithField` | time-tracker-app/src/forms/TimeTrackerForm.jsx:141-176 | Editing one input sets that field to the typed value and leaves every other field as it was. |
| `TimeTrackerForm.DefaultsRejected` | time-tracker-app/src/forms/TimeTrackerForm.jsx:119-126 | The default draft is rejected with the name, project, start-time and end-time messages (plus the date message if the date is empty). The refinement is skipped. |
| `TimeTrackerForm.SecondEntryAccepted` | time-tracker-app/src/forms/TimeTrackerForm.jsx:99-113 | The second entry of the scenario is accepted verbatim. |
| `TimeTrackerForm.Form.constructor` | time-tracker-app/src/forms/TimeTrackerForm.jsx:117-127 | A new form holds the defaults, with the date it is given as the captured date. No messages are shown and no record has been handed on. |
| `TimeTrackerForm.Form.Edit` | time-tracker-app/src/forms/TimeTrackerForm.jsx:141-176 | The draft changes only in the edited field. No record is handed on. |
| `TimeTrackerForm.Form.Reset` | time-tracker-app/src/forms/TimeTrackerForm.jsx:134 | The draft returns to the defaults, with the captured date, and the shown messages are cleared. |
| `TimeTrackerForm.Form.Submit` | time-tracker-app/src/forms/TimeTrackerForm.jsx:130-138 | On acceptance, exactly one record, equal to the draft, goes to the handler; then the draft is the defaults and no message is shown. On rejection nothing is handed on, the draft is unchanged, and each field shows its first issue. Only accepted records are ever handed on. |
| `TimeTrackerForm.SubmitTwice` | time-tracker-app/src/forms/TimeTrackerForm.jsx:117-135 | On one form, an accepted entry followed by a freshly typed second entry gives two accepted records. Submitting the untouched defaults afterwards hands nothing on. So no state leaks between submissions. |

## Left out

- The JSX markup, labels, CSS classes and the `<form>` / `<input>` wiring (lines 137–180) are presentational. Only the rule "one message per field, the first one" is modelled, as `Displayed`.
- The `console.log` and `alert` calls in the submit handler (lines 131, 133) are I/O. The handler is modelled as receiving the record, which is `Submit`'s `handed` result and the ghost `submitted` trace.
- The clock read `new Date().toISOString().split('T')[0]` (line 122) becomes the constructor parameter `today`.
- The internals of Zod, `zodResolver` and react-hook-form are library code. The schema's meaning is modelled directly. Every input is a string, so Zod's non-string type-error path never arises.
- React-hook-form's other form-state flags (submit count, submitting, dirty) and its asynchronous `handleSubmit` are not modelled. Validation here is synchronous.
- TimeTrackerForm.Form.Edit: its contract says nothing about the shown messages after an edit. After the first submit, react-hook-form re-validates on change, and that behaviour is not visible in this file.
- JavaScript strings are UTF-16. The model treats strings as `seq<char>`, so `.length` and `>` count characters, not UTF-16 code units.
- The first, unparseable copy of the component (lines 1–91) is not modelled. It is otherwise identical to the second copy.
