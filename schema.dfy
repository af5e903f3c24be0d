/**
 * The time-entry schema: six per-field rules, evaluated independently and all
 * reported, followed by one cross-field rule on the two times whose failure
 * is reported on the end time.
 */
module TimeEntrySchema {
  import opened Wrappers
  import opened LexOrder
  import opened TimeFormat

  datatype Field = EmployeeName | Project | Date | StartTime | EndTime | Notes

  /** The form's values; `notes` is the one field the schema marks optional. */
  datatype Draft = Draft(
    employeeName: string,
    project: string,
    date: string,
    startTime: string,
    endTime: string,
    notes: Option<string>)

  datatype Issue = Issue(field: Field, message: string)

  /** What validation hands back: the record itself, or every issue found. */
  datatype Validation = Accepted(record: Draft) | Rejected(issues: seq<Issue>)

  const NameTooShort := "Employee name must be at least 2 characters long"
  const ProjectRequired := "Project/Task is required"
  const DateRequired := "Date is required"
  const BadStartTime := "Invalid start time format (HH:MM)"
  const BadEndTime := "Invalid end time format (HH:MM)"
  const NotesTooLong := "Notes cannot exceed 500 characters"
  const EndNotAfterStart := "End time must be after start time"

  const MinNameLength := 2
  const MaxNotesLength := 500

  /** The value of one field, `None` only for absent notes. */
  function ValueOf(d: Draft, f: Field): Option<string>
  {
    match f
    case EmployeeName => Some(d.employeeName)
    case Project => Some(d.project)
    case Date => Some(d.date)
    case StartTime => Some(d.startTime)
    case EndTime => Some(d.endTime)
    case Notes => d.notes
  }

  /** A check that passes, or fails with one issue on `field`. */
  function Check(ok: bool, field: Field, message: string): seq<Issue>
  {
    if ok then [] else [Issue(field, message)]
  }

  /** The checks on the name, project, date and start time, in the report's order. */
  function Leading(b0: bool, b1: bool, b2: bool, b3: bool): seq<Issue>
  {
    Check(b0, EmployeeName, NameTooShort) + Check(b1, Project, ProjectRequired) +
    Check(b2, Date, DateRequired) + Check(b3, StartTime, BadStartTime)
  }

  /**
   * The report, given the outcome of each check: every check is run, in
   * field declaration order, and the refinement runs last and reports on the
   * end time.
   */
  function Report(nameOk: bool, projectOk: bool, dateOk: bool, startOk: bool,
                  endOk: bool, notesOk: bool, orderOk: bool): seq<Issue>
  {
    Leading(nameOk, projectOk, dateOk, startOk) +
    Check(endOk, EndTime, BadEndTime) + Check(notesOk, Notes, NotesTooLong) +
    Check(orderOk, EndTime, EndNotAfterStart)
  }

  predicate NameOk(v: string) { |v| >= MinNameLength }
  predicate Present(v: string) { |v| >= 1 }

  /** An absent `notes` passes; a present one may hold at most 500 characters. */
  predicate NotesOk(v: Option<string>) { v.None? || |v.value| <= MaxNotesLength }

  /**
   * The refinement: with either time empty it holds vacuously; otherwise the
   * end time must be greater than the start time as a string.
   */
  predicate EndAfterStart(d: Draft)
  {
    d.startTime == "" || d.endTime == "" || Less(d.startTime, d.endTime)
  }

  /** All issues of a draft. */
  function Issues(d: Draft): seq<Issue>
  {
    Report(NameOk(d.employeeName), Present(d.project), Present(d.date), IsTime(d.startTime),
      IsTime(d.endTime), NotesOk(d.notes), EndAfterStart(d))
  }

  /** Every rule of the schema holds of `d`. */
  predicate Conforms(d: Draft)
  {
    |d.employeeName| >= MinNameLength && d.project != "" && d.date != "" &&
    IsTime(d.startTime) && IsTime(d.endTime) &&
    (d.notes.None? || |d.notes.value| <= MaxNotesLength) &&
    (d.startTime == "" || d.endTime == "" || Less(d.startTime, d.endTime))
  }

  /** Validation accepts exactly the drafts every rule holds of, handing them on verbatim. */
  function Validate(d: Draft): (r: Validation)
    ensures r.Accepted? <==> Conforms(d)
    ensures r.Accepted? ==> r.record == d
    ensures r.Rejected? ==> r.issues != [] && r.issues == Issues(d)
  {
    var issues := Issues(d);
    if issues == [] then Accepted(d) else Rejected(issues)
  }

  /** The issues of `issues` that are attached to `f`, in order. */
  function IssuesOn(issues: seq<Issue>, f: Field): seq<Issue>
  {
    if issues == [] then []
    else (if issues[0].field == f then [issues[0]] else []) + IssuesOn(issues[1..], f)
  }

  lemma {:induction false} IssuesOnConcat(xs: seq<Issue>, ys: seq<Issue>, f: Field)
    ensures IssuesOn(xs + ys, f) == IssuesOn(xs, f) + IssuesOn(ys, f)
    decreases |xs|
  {
    if xs == [] {
      assert xs + ys == ys;
    } else {
      var head := if xs[0].field == f then [xs[0]] else [];
      IssuesOnConcat(xs[1..], ys, f);
      assert (xs + ys)[0] == xs[0];
      assert (xs + ys)[1..] == xs[1..] + ys;
      assert IssuesOn(xs + ys, f) == head + IssuesOn(xs[1..] + ys, f);
      assert IssuesOn(xs, f) == head + IssuesOn(xs[1..], f);
    }
  }

  /** A check's issue survives filtering to `f` only when the check is about `f`. */
  lemma IssuesOnCheck(ok: bool, g: Field, message: string, f: Field)
    ensures IssuesOn(Check(ok, g, message), f) == Check(ok || g != f, g, message)
  {
    if !ok {
      assert Check(ok, g, message)[1..] == [];
    }
  }

  /** An issue on `f` is reported exactly when it survives filtering to `f`. */
  lemma {:induction false} InIssuesOn(issues: seq<Issue>, f: Field, x: Issue)
    requires x.field == f
    ensures x in issues <==> x in IssuesOn(issues, f)
    decreases |issues|
  {
    if issues != [] {
      InIssuesOn(issues[1..], f, x);
      assert issues == [issues[0]] + issues[1..];
    }
  }

  /** Filtering the report to `f` drops every check that is not about `f`. */
  lemma ReportOn(b0: bool, b1: bool, b2: bool, b3: bool, b4: bool, b5: bool, b6: bool, f: Field)
    ensures IssuesOn(Report(b0, b1, b2, b3, b4, b5, b6), f) ==
      Check(b0 || EmployeeName != f, EmployeeName, NameTooShort) +
      Check(b1 || Project != f, Project, ProjectRequired) +
      Check(b2 || Date != f, Date, DateRequired) +
      Check(b3 || StartTime != f, StartTime, BadStartTime) +
      Check(b4 || EndTime != f, EndTime, BadEndTime) +
      Check(b5 || Notes != f, Notes, NotesTooLong) +
      Check(b6 || EndTime != f, EndTime, EndNotAfterStart)
  {
    var p0, p1 := Check(b0, EmployeeName, NameTooShort), Check(b1, Project, ProjectRequired);
    var p2, p3 := Check(b2, Date, DateRequired), Check(b3, StartTime, BadStartTime);
    var p4, p5 := Check(b4, EndTime, BadEndTime), Check(b5, Notes, NotesTooLong);
    var p6 := Check(b6, EndTime, EndNotAfterStart);
    IssuesOnConcat(p0, p1, f);
    IssuesOnConcat(p0 + p1, p2, f);
    IssuesOnConcat(p0 + p1 + p2, p3, f);
    IssuesOnConcat(p0 + p1 + p2 + p3, p4, f);
    IssuesOnConcat(p0 + p1 + p2 + p3 + p4, p5, f);
    IssuesOnConcat(p0 + p1 + p2 + p3 + p4 + p5, p6, f);
    IssuesOnCheck(b0, EmployeeName, NameTooShort, f);
    IssuesOnCheck(b1, Project, ProjectRequired, f);
    IssuesOnCheck(b2, Date, DateRequired, f);
    IssuesOnCheck(b3, StartTime, BadStartTime, f);
    IssuesOnCheck(b4, EndTime, BadEndTime, f);
    IssuesOnCheck(b5, Notes, NotesTooLong, f);
    IssuesOnCheck(b6, EndTime, EndNotAfterStart, f);
  }

  /** The name, project and date parts of the report are their own checks' issues, nothing else. */
  lemma ReportOnFirstFields(b0: bool, b1: bool, b2: bool, b3: bool, b4: bool, b5: bool, b6: bool)
    ensures IssuesOn(Report(b0, b1, b2, b3, b4, b5, b6), EmployeeName) == Check(b0, EmployeeName, NameTooShort)
    ensures IssuesOn(Report(b0, b1, b2, b3, b4, b5, b6), Project) == Check(b1, Project, ProjectRequired)
    ensures IssuesOn(Report(b0, b1, b2, b3, b4, b5, b6), Date) == Check(b2, Date, DateRequired)
  {
    ReportOn(b0, b1, b2, b3, b4, b5, b6, EmployeeName);
    ReportOn(b0, b1, b2, b3, b4, b5, b6, Project);
    ReportOn(b0, b1, b2, b3, b4, b5, b6, Date);
  }

  /**
   * The start time, end time and notes parts of the report are their own
   * checks' issues; the end time's format issue comes before the refinement's.
   */
  lemma ReportOnLastFields(b0: bool, b1: bool, b2: bool, b3: bool, b4: bool, b5: bool, b6: bool)
    ensures IssuesOn(Report(b0, b1, b2, b3, b4, b5, b6), StartTime) == Check(b3, StartTime, BadStartTime)
    ensures IssuesOn(Report(b0, b1, b2, b3, b4, b5, b6), EndTime) ==
      Check(b4, EndTime, BadEndTime) + Check(b6, EndTime, EndNotAfterStart)
    ensures IssuesOn(Report(b0, b1, b2, b3, b4, b5, b6), Notes) == Check(b5, Notes, NotesTooLong)
  {
    ReportOn(b0, b1, b2, b3, b4, b5, b6, StartTime);
    ReportOn(b0, b1, b2, b3, b4, b5, b6, EndTime);
    ReportOn(b0, b1, b2, b3, b4, b5, b6, Notes);
  }

  /**
   * The issues on each field come from that field's own rule applied to that
   * field's value alone; `endTime` carries its format issue first, then the
   * refinement's.
   */
  lemma IssuesPerField(d: Draft)
    ensures IssuesOn(Issues(d), EmployeeName) == Check(NameOk(d.employeeName), EmployeeName, NameTooShort)
    ensures IssuesOn(Issues(d), Project) == Check(Present(d.project), Project, ProjectRequired)
    ensures IssuesOn(Issues(d), Date) == Check(Present(d.date), Date, DateRequired)
    ensures IssuesOn(Issues(d), StartTime) == Check(IsTime(d.startTime), StartTime, BadStartTime)
    ensures IssuesOn(Issues(d), EndTime) ==
      Check(IsTime(d.endTime), EndTime, BadEndTime) + Check(EndAfterStart(d), EndTime, EndNotAfterStart)
    ensures IssuesOn(Issues(d), Notes) == Check(NotesOk(d.notes), Notes, NotesTooLong)
  {
    var b0, b1, b2, b3 := NameOk(d.employeeName), Present(d.project), Present(d.date), IsTime(d.startTime);
    var b4, b5, b6 := IsTime(d.endTime), NotesOk(d.notes), EndAfterStart(d);
    ReportOnFirstFields(b0, b1, b2, b3, b4, b5, b6);
    ReportOnLastFields(b0, b1, b2, b3, b4, b5, b6);
  }

  /** Two drafts that agree on a field other than the end time get the same issues on it. */
  lemma FieldIssuesIndependent(d1: Draft, d2: Draft, f: Field)
    requires f != EndTime && ValueOf(d1, f) == ValueOf(d2, f)
    ensures IssuesOn(Issues(d1), f) == IssuesOn(Issues(d2), f)
  {
    IssuesPerField(d1);
    IssuesPerField(d2);
  }

  /**
   * Each message is reported exactly when its rule fails, whatever the other
   * fields hold; failures do not hide one another.
   */
  lemma MessagesReported(d: Draft)
    ensures Issue(EmployeeName, NameTooShort) in Issues(d) <==> |d.employeeName| < 2
    ensures Issue(Project, ProjectRequired) in Issues(d) <==> d.project == ""
    ensures Issue(Date, DateRequired) in Issues(d) <==> d.date == ""
    ensures Issue(StartTime, BadStartTime) in Issues(d) <==> !IsTime(d.startTime)
    ensures Issue(EndTime, BadEndTime) in Issues(d) <==> !IsTime(d.endTime)
    ensures Issue(Notes, NotesTooLong) in Issues(d) <==> d.notes.Some? && |d.notes.value| > 500
    ensures Issue(EndTime, EndNotAfterStart) in Issues(d) <==>
      d.startTime != "" && d.endTime != "" && !Less(d.startTime, d.endTime)
  {
    IssuesPerField(d);
    InIssuesOn(Issues(d), EmployeeName, Issue(EmployeeName, NameTooShort));
    InIssuesOn(Issues(d), Project, Issue(Project, ProjectRequired));
    InIssuesOn(Issues(d), Date, Issue(Date, DateRequired));
    InIssuesOn(Issues(d), StartTime, Issue(StartTime, BadStartTime));
    InIssuesOn(Issues(d), EndTime, Issue(EndTime, BadEndTime));
    InIssuesOn(Issues(d), Notes, Issue(Notes, NotesTooLong));
    InIssuesOn(Issues(d), EndTime, Issue(EndTime, EndNotAfterStart));
    assert Issue(EndTime, BadEndTime) != Issue(EndTime, EndNotAfterStart);
  }

  /** Where an issue stands in the order of the report: field order, then the refinement. */
  function Rank(x: Issue): nat
  {
    match x.field
    case EmployeeName => 0
    case Project => 1
    case Date => 2
    case StartTime => 3
    case EndTime => if x.message == EndNotAfterStart then 6 else 4
    case Notes => 5
  }

  predicate RankIncreasing(xs: seq<Issue>)
  {
    forall i, j :: 0 <= i < j < |xs| ==> Rank(xs[i]) < Rank(xs[j])
  }

  /** Every issue of `xs` is ranked below `n`. */
  predicate RankedBelow(xs: seq<Issue>, n: nat)
  {
    forall i :: 0 <= i < |xs| ==> Rank(xs[i]) < n
  }

  /**
   * Appending a check ranked `n` to increasing issues ranked below `n` keeps
   * them increasing, and every issue is then ranked below `n + 1`.
   */
  lemma AppendCheck(xs: seq<Issue>, ok: bool, field: Field, message: string, n: nat)
    requires RankIncreasing(xs) && RankedBelow(xs, n)
    requires Rank(Issue(field, message)) == n
    ensures RankIncreasing(xs + Check(ok, field, message))
    ensures RankedBelow(xs + Check(ok, field, message), n + 1)
  {
  }

  lemma LeadingInOrder(b0: bool, b1: bool, b2: bool, b3: bool)
    ensures |Leading(b0, b1, b2, b3)| <= 4
    ensures RankIncreasing(Leading(b0, b1, b2, b3)) && RankedBelow(Leading(b0, b1, b2, b3), 4)
  {
    var q0 := Check(b0, EmployeeName, NameTooShort);
    AppendCheck([], b0, EmployeeName, NameTooShort, 0);
    assert [] + q0 == q0;
    var q1 := q0 + Check(b1, Project, ProjectRequired);
    AppendCheck(q0, b1, Project, ProjectRequired, 1);
    var q2 := q1 + Check(b2, Date, DateRequired);
    AppendCheck(q1, b2, Date, DateRequired, 2);
    AppendCheck(q2, b3, StartTime, BadStartTime, 3);
  }

  /** Whatever the outcomes, the report lists at most seven issues in rank order. */
  lemma ReportInOrder(b0: bool, b1: bool, b2: bool, b3: bool, b4: bool, b5: bool, b6: bool)
    ensures |Report(b0, b1, b2, b3, b4, b5, b6)| <= 7
    ensures RankIncreasing(Report(b0, b1, b2, b3, b4, b5, b6))
  {
    var q3 := Leading(b0, b1, b2, b3);
    LeadingInOrder(b0, b1, b2, b3);
    var q4 := q3 + Check(b4, EndTime, BadEndTime);
    AppendCheck(q3, b4, EndTime, BadEndTime, 4);
    var q5 := q4 + Check(b5, Notes, NotesTooLong);
    AppendCheck(q4, b5, Notes, NotesTooLong, 5);
    AppendCheck(q5, b6, EndTime, EndNotAfterStart, 6);
    assert Report(b0, b1, b2, b3, b4, b5, b6) == q5 + Check(b6, EndTime, EndNotAfterStart);
  }

  /** The report lists issues in field declaration order, the refinement's issue last, none twice. */
  lemma IssuesInOrder(d: Draft)
    ensures |Issues(d)| <= 7
    ensures RankIncreasing(Issues(d))
  {
    ReportInOrder(NameOk(d.employeeName), Present(d.project), Present(d.date), IsTime(d.startTime),
      IsTime(d.endTime), NotesOk(d.notes), EndAfterStart(d));
  }

  /** Absent notes, or notes of at most 500 characters, never draw an issue. */
  lemma ShortNotesPass(d: Draft)
    requires d.notes.None? || |d.notes.value| <= 500
    ensures IssuesOn(Issues(d), Notes) == []
  {
    IssuesPerField(d);
  }

  /** A draft whose only fault is over-long notes draws the notes message and nothing else. */
  lemma OnlyLongNotesRejected(d: Draft)
    requires |d.employeeName| >= 2 && d.project != "" && d.date != ""
    requires IsTime(d.startTime) && IsTime(d.endTime) && Less(d.startTime, d.endTime)
    requires d.notes.Some? && |d.notes.value| > 500
    ensures Validate(d) == Rejected([Issue(Notes, NotesTooLong)])
  {
  }

  /** With either time empty the refinement never reports. */
  lemma EmptyTimeSkipsOrdering(d: Draft)
    requires d.startTime == "" || d.endTime == ""
    ensures Issue(EndTime, EndNotAfterStart) !in Issues(d)
  {
    MessagesReported(d);
  }

  /** Equal non-empty times draw the ordering issue: the end must be strictly later. */
  lemma EqualTimesRejected(d: Draft)
    requires d.startTime == d.endTime && d.startTime != ""
    ensures Issue(EndTime, EndNotAfterStart) in Issues(d)
    ensures !Validate(d).Accepted?
  {
    LessIrreflexive(d.startTime);
    MessagesReported(d);
  }

  /** For zero-padded times the refinement accepts exactly the chronologically later end times. */
  lemma PaddedOrderingIsChronological(d: Draft)
    requires IsTime(d.startTime) && IsTime(d.endTime)
    requires |d.startTime| == 5 && |d.endTime| == 5
    ensures EndAfterStart(d) <==> MinutesOf(d.startTime) < MinutesOf(d.endTime)
  {
    SameWidthOrderIsChronological(d.startTime, d.endTime);
  }

  /** A 9:00 to 10:00 entry is well-formed and chronologically ordered, yet rejected by the refinement. */
  lemma SingleDigitStartRejected(d: Draft)
    requires d.startTime == "9:00" && d.endTime == "10:00"
    ensures IsTime(d.startTime) && IsTime(d.endTime)
    ensures MinutesOf(d.startTime) < MinutesOf(d.endTime)
    ensures Issue(EndTime, EndNotAfterStart) in Issues(d)
  {
    SingleDigitHourBreaksOrder();
    MessagesReported(d);
  }

  /**
   * The message shown beside each field: the first issue reported on it.
   * Fields without an issue have no entry.
   */
  function Displayed(issues: seq<Issue>): (r: map<Field, string>)
    ensures forall f :: f in r <==> IssuesOn(issues, f) != []
    ensures forall f :: f in r ==> r[f] == IssuesOn(issues, f)[0].message
  {
    if issues == [] then map[]
    else Displayed(issues[1..])[issues[0].field := issues[0].message]
  }

  /** The shown messages follow the rules field by field; a malformed end time shows its format message first. */
  lemma DisplayedMessages(d: Draft)
    ensures var shown := Displayed(Issues(d));
      (EmployeeName in shown <==> |d.employeeName| < 2) &&
      (EmployeeName in shown ==> shown[EmployeeName] == NameTooShort) &&
      (Project in shown <==> d.project == "") &&
      (Project in shown ==> shown[Project] == ProjectRequired) &&
      (Date in shown <==> d.date == "") &&
      (Date in shown ==> shown[Date] == DateRequired) &&
      (StartTime in shown <==> !IsTime(d.startTime)) &&
      (StartTime in shown ==> shown[StartTime] == BadStartTime) &&
      (Notes in shown <==> d.notes.Some? && |d.notes.value| > 500) &&
      (Notes in shown ==> shown[Notes] == NotesTooLong) &&
      (EndTime in shown <==> !IsTime(d.endTime) || !EndAfterStart(d)) &&
      (EndTime in shown ==> shown[EndTime] == if IsTime(d.endTime) then EndNotAfterStart else BadEndTime)
  {
    IssuesPerField(d);
  }

  /** A complete, well-ordered entry is accepted and handed on unchanged. */
  lemma WellFormedEntryAccepted()
    ensures var d := Draft("Jane Doe", "Acme", "2024-05-01", "09:00", "17:00", Some(""));
      Validate(d) == Accepted(d)
  {
    var d := Draft("Jane Doe", "Acme", "2024-05-01", "09:00", "17:00", Some(""));
    assert d.startTime[..2] == "09" && d.startTime[3..] == "00";
    assert d.endTime[..2] == "17" && d.endTime[3..] == "00";
  }

  /**
   * Five faulty fields give five issues in field order. Neither time is empty,
   * so the refinement compares "ab:cd" with "25:00" too; it passes, because
   * 'a' comes after '2'.
   */
  lemma FaultyEntryReportsEveryField()
    ensures Issues(Draft("J", "", "", "25:00", "ab:cd", Some(""))) ==
      [Issue(EmployeeName, NameTooShort), Issue(Project, ProjectRequired), Issue(Date, DateRequired),
       Issue(StartTime, BadStartTime), Issue(EndTime, BadEndTime)]
  {
    assert "25:00"[..2] == "25";
    assert "ab:cd"[..2] == "ab";
    assert Less("25:00", "ab:cd");
  }

  /** 501 characters of notes on an otherwise valid entry draw only the notes message. */
  lemma OverlongNotesEntry()
    ensures var d := Draft("Jane Doe", "Acme", "2024-05-01", "09:00", "17:00", Some(seq(501, _ => 'x')));
      Validate(d) == Rejected([Issue(Notes, NotesTooLong)])
  {
    var d := Draft("Jane Doe", "Acme", "2024-05-01", "09:00", "17:00", Some(seq(501, _ => 'x')));
    assert d.startTime[..2] == "09" && d.startTime[3..] == "00";
    assert d.endTime[..2] == "17" && d.endTime[3..] == "00";
    OnlyLongNotesRejected(d);
  }
}
