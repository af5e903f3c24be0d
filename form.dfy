/**
 * The form component's state: the draft the inputs edit, the messages shown
 * beside the fields, and the submit cycle that validates, hands an accepted
 * record on and resets to the defaults.
 */
module TimeTrackerForm {
  import opened Wrappers
  import opened TimeEntrySchema

  /** The values the form starts from and returns to: empty fields, with `today` as the date. */
  function Defaults(today: string): Draft
  {
    Draft("", "", today, "", "", Some(""))
  }

  /** The draft after the input for `f` reports the value `v`. */
  function WithField(d: Draft, f: Field, v: string): (r: Draft)
    ensures ValueOf(r, f) == Some(v)
    ensures forall g :: g != f ==> ValueOf(r, g) == ValueOf(d, g)
  {
    match f
    case EmployeeName => d.(employeeName := v)
    case Project => d.(project := v)
    case Date => d.(date := v)
    case StartTime => d.(startTime := v)
    case EndTime => d.(endTime := v)
    case Notes => d.(notes := Some(v))
  }

  /**
   * Submitting the untouched defaults is rejected: the name, the project and
   * both times are empty (and the date too, if `today` is). The refinement
   * is skipped, since the times are empty.
   */
  lemma DefaultsRejected(today: string)
    ensures Validate(Defaults(today)) ==
      Rejected([Issue(EmployeeName, NameTooShort), Issue(Project, ProjectRequired)] +
        (if today == "" then [Issue(Date, DateRequired)] else []) +
        [Issue(StartTime, BadStartTime), Issue(EndTime, BadEndTime)])
  {
  }

  /** A second entry, as typed in after the first was accepted, is accepted too. */
  lemma SecondEntryAccepted()
    ensures var d := Draft("John Roe", "Beta", "2024-05-01", "10:30", "12:15", Some("review"));
      Validate(d) == Accepted(d)
  {
    var d := Draft("John Roe", "Beta", "2024-05-01", "10:30", "12:15", Some("review"));
    assert d.startTime[..2] == "10" && d.startTime[3..] == "30";
    assert d.endTime[..2] == "12" && d.endTime[3..] == "15";
  }

  class Form {
    /** The date captured once, when the form is created. */
    const today: string
    var draft: Draft
    /** The message shown beside each field after the last submit. */
    var errors: map<Field, string>
    /** Every record handed to the submit handler so far, oldest first. */
    ghost var submitted: seq<Draft>

    /** Only records the schema accepts ever reach the handler. */
    ghost predicate Valid()
      reads this
    {
      forall i :: 0 <= i < |submitted| ==> Validate(submitted[i]).Accepted?
    }

    constructor (today: string)
      ensures Valid()
      ensures this.today == today && draft == Defaults(today)
      ensures errors == map[] && submitted == []
    {
      this.today := today;
      draft := Defaults(today);
      errors := map[];
      submitted := [];
    }

    /** One keystroke: the input for `f` now holds `v`; no other field changes. */
    method Edit(f: Field, v: string)
      requires Valid()
      modifies this`draft, this`errors
      ensures Valid()
      ensures draft == WithField(old(draft), f, v)
    {
      draft := WithField(draft, f, v);
    }

    /** Put every field back to its default and clear the shown messages. */
    method Reset()
      requires Valid()
      modifies this`draft, this`errors
      ensures Valid()
      ensures draft == Defaults(today) && errors == map[]
    {
      draft := Defaults(today);
      errors := map[];
    }

    /**
     * Validate the draft. If it is accepted, hand the record to the handler
     * (returned as `handed` and appended to `submitted`) and reset; otherwise
     * show the first message on each faulty field and keep the draft.
     */
    method Submit() returns (handed: Option<Draft>)
      requires Valid()
      modifies this`draft, this`errors, this`submitted
      ensures Valid()
      ensures Validate(old(draft)).Accepted? ==>
        handed == Some(old(draft)) && submitted == old(submitted) + [old(draft)] &&
        draft == Defaults(today) && errors == map[]
      ensures Validate(old(draft)).Rejected? ==>
        handed == None && submitted == old(submitted) && draft == old(draft) &&
        errors == Displayed(Issues(old(draft)))
    {
      match Validate(draft)
      case Accepted(record) =>
        handed := Some(record);
        submitted := submitted + [record];
        Reset();
      case Rejected(issues) =>
        errors := Displayed(issues);
        handed := None;
    }
  }

  /**
   * Two entries in a row on one form: after the first is accepted the form is
   * back at its defaults, and the second, typed in afresh, is accepted on its
   * own. Submitting the untouched defaults is then rejected.
   */
  method SubmitTwice() returns (first: Option<Draft>, second: Option<Draft>, third: Option<Draft>)
    ensures first == Some(Draft("Jane Doe", "Acme", "2024-05-01", "09:00", "17:00", Some("")))
    ensures second == Some(Draft("John Roe", "Beta", "2024-05-01", "10:30", "12:15", Some("review")))
    ensures third == None
  {
    var form := new Form("2024-05-01");
    form.Edit(EmployeeName, "Jane Doe");
    form.Edit(Project, "Acme");
    form.Edit(StartTime, "09:00");
    form.Edit(EndTime, "17:00");
    assert form.draft == Draft("Jane Doe", "Acme", "2024-05-01", "09:00", "17:00", Some(""));
    WellFormedEntryAccepted();
    first := form.Submit();

    form.Edit(EmployeeName, "John Roe");
    form.Edit(Project, "Beta");
    form.Edit(StartTime, "10:30");
    form.Edit(EndTime, "12:15");
    form.Edit(Notes, "review");
    assert form.draft == Draft("John Roe", "Beta", "2024-05-01", "10:30", "12:15", Some("review"));
    SecondEntryAccepted();
    second := form.Submit();

    assert form.draft == Defaults("2024-05-01");
    DefaultsRejected("2024-05-01");
    third := form.Submit();
  }
}
