/** The application shell: the session state the top-level component owns,
    the day-offset effect, the symptom log, the appointment list, the
    document list, the severity display and the navigation links. */
module App {

  import opened Text
  import SurgeryForm
  import RecoveryPlan
  import Medications
  import Checklist
  import MockData

  // ---------------------------------------------------------------------------
  // Day offset since surgery

  /** `1000 * 60 * 60 * 24`. */
  const MsPerDay: int := 86400000

  /** `Math.ceil((now - surgery) / MsPerDay)` for integer millisecond
      timestamps: the number of started days since the surgery instant. */
  function DayOffset(now: int, surgeryMs: int): (d: int)
    ensures (d - 1) * MsPerDay < now - surgeryMs <= d * MsPerDay
  {
    -((surgeryMs - now) / MsPerDay)
  }

  /** The bounds of `DayOffset` pin the day down: it is the ceiling. */
  lemma DayOffsetUnique(now: int, surgeryMs: int, d: int)
    requires (d - 1) * MsPerDay < now - surgeryMs <= d * MsPerDay
    ensures d == DayOffset(now, surgeryMs)
  {
  }

  /** At the surgery instant the offset is 0; one millisecond later it is 1;
      whole days later it is the number of days. */
  lemma DayOffsetBoundaries(surgeryMs: int, k: int)
    ensures DayOffset(surgeryMs, surgeryMs) == 0
    ensures DayOffset(surgeryMs + 1, surgeryMs) == 1
    ensures DayOffset(surgeryMs + k * MsPerDay, surgeryMs) == k
  {
    DayOffsetUnique(surgeryMs, surgeryMs, 0);
    DayOffsetUnique(surgeryMs + 1, surgeryMs, 1);
    DayOffsetUnique(surgeryMs + k * MsPerDay, surgeryMs, k);
  }

  /** A later clock reading never gives an earlier day. */
  lemma DayOffsetMonotonic(now: int, later: int, surgeryMs: int)
    requires now <= later
    ensures DayOffset(now, surgeryMs) <= DayOffset(later, surgeryMs)
  {
  }

  /** The effect on `[surgeryData]`: with a record whose date text is
      non-empty, the day is recomputed from the clock reading `now` and the
      date's millisecond value `dateMs`; otherwise the day is left as it is. */
  function EffectDay(surgery: Option<SurgeryForm.SurgeryRecord>, dateMs: int, now: int, currentDay: int): (d: int)
    ensures surgery.None? ==> d == currentDay
    ensures surgery.Some? && surgery.value.date == "" ==> d == currentDay
    ensures surgery.Some? && surgery.value.date != "" ==>
      (d - 1) * MsPerDay < now - dateMs <= d * MsPerDay
  {
    if surgery.Some? && surgery.value.date != "" then DayOffset(now, dateMs) else currentDay
  }

  // ---------------------------------------------------------------------------
  // Records owned by the session

  /** The options of the symptom-type select. */
  const SymptomTypes: seq<string> := ["pain", "dryness", "blurriness", "redness"]

  /** The range input yields 1 to 5. */
  type Severity = s: int | 1 <= s <= 5 witness 3

  datatype SymptomDraft = SymptomDraft(symptomType: string, severity: Severity, notes: string)

  datatype Symptom = Symptom(symptomType: string, severity: Severity, notes: string, date: string, id: int)

  const InitialSymptomDraft: SymptomDraft := SymptomDraft("pain", 3, "")

  datatype AppointmentDraft = AppointmentDraft(date: string, time: string, purpose: string)

  datatype Appointment = Appointment(date: string, time: string, purpose: string, id: int)

  const EmptyAppointmentDraft: AppointmentDraft := AppointmentDraft("", "", "")

  /** A file picked in the file input. */
  datatype File = File(name: string, mimeType: string, size: nat)

  /** The id and object URL generated for one picked file. */
  datatype Upload = Upload(id: real, url: string)

  datatype Document = Document(id: real, name: string, mimeType: string, size: nat, url: string)

  /** `files.map(...)`: one document per file, in selection order. */
  function NewDocuments(files: seq<File>, uploads: seq<Upload>): (docs: seq<Document>)
    requires |uploads| == |files|
    ensures |docs| == |files|
    ensures forall i :: 0 <= i < |files| ==>
      docs[i].name == files[i].name && docs[i].mimeType == files[i].mimeType &&
      docs[i].size == files[i].size && docs[i].id == uploads[i].id && docs[i].url == uploads[i].url
  {
    seq(|files|, i requires 0 <= i < |files| =>
      Document(uploads[i].id, files[i].name, files[i].mimeType, files[i].size, uploads[i].url))
  }

  // ---------------------------------------------------------------------------
  // Severity display

  /** The five dots of a symptom's severity; dot i is filled when i < severity. */
  function SeverityDots(severity: int): (dots: seq<bool>)
    ensures |dots| == 5
    ensures forall i :: 0 <= i < 5 ==> (dots[i] <==> i < severity)
  {
    seq(5, i => i < severity)
  }

  function CountFilled(dots: seq<bool>): (n: nat)
    ensures n <= |dots|
  {
    if dots == [] then 0
    else CountFilled(dots[..|dots| - 1]) + (if dots[|dots| - 1] then 1 else 0)
  }

  lemma {:induction false} FilledPrefix(severity: int, n: nat)
    requires n <= 5
    ensures CountFilled(SeverityDots(severity)[..n]) ==
      if severity < 0 then 0 else if severity > n then n else severity
  {
    if n > 0 {
      var dots := SeverityDots(severity);
      assert dots[..n][..n - 1] == dots[..n - 1];
      FilledPrefix(severity, n - 1);
    }
  }

  /** Exactly `severity` of the five dots are filled. */
  lemma FilledDots(severity: Severity)
    ensures CountFilled(SeverityDots(severity)) == severity
  {
    FilledPrefix(severity, 5);
    assert SeverityDots(severity)[..5] == SeverityDots(severity);
  }

  // ---------------------------------------------------------------------------
  // Navigation

  /** The targets of the bottom navigation, in display order. */
  const NavTargets: seq<string> := ["/recovery-plan", "/reminders", "/checklist", "/progress"]

  /** `location.pathname === to`: strict equality of strings, the same
      characters at the same positions. */
  predicate IsActive(pathname: string, to: string): (r: bool)
    ensures r <==> |pathname| == |to| && forall i :: 0 <= i < |to| ==> pathname[i] == to[i]
  {
    pathname == to
  }

  function ActiveCount(pathname: string, targets: seq<string>): (n: nat)
    ensures n <= |targets|
  {
    if targets == [] then 0
    else (if IsActive(pathname, targets[0]) then 1 else 0) + ActiveCount(pathname, targets[1..])
  }

  lemma {:induction false} ActiveCountDistinct(pathname: string, targets: seq<string>)
    requires forall i, j :: 0 <= i < j < |targets| ==> targets[i] != targets[j]
    ensures ActiveCount(pathname, targets) == if pathname in targets then 1 else 0
  {
    if targets != [] {
      ActiveCountDistinct(pathname, targets[1..]);
      assert pathname in targets <==> pathname == targets[0] || pathname in targets[1..];
      if pathname == targets[0] {
        assert pathname !in targets[1..];
      }
    }
  }

  /** At most one link of the bottom navigation is highlighted, and one is
      exactly when the current path is one of its targets. */
  lemma OneActiveLink(pathname: string)
    ensures ActiveCount(pathname, NavTargets) == if pathname in NavTargets then 1 else 0
  {
    ActiveCountDistinct(pathname, NavTargets);
  }

  // ---------------------------------------------------------------------------
  // The missing setSurgeryData prop

  /** A surgery-form submission as App.js wires it: `App` never passes
      `setSurgeryData` to `MainContent`, so the form calls `undefined`, the
      handler throws, and the session keeps its record. */
  function SubmitAsWired(current: Option<SurgeryForm.SurgeryRecord>, form: SurgeryForm.FormData, id: int)
    : (r: Option<SurgeryForm.SurgeryRecord>)
    ensures r == current
  {
    current
  }

  /** The intended submission: the record built from the form replaces the
      session's record. */
  function SubmitIntended(current: Option<SurgeryForm.SurgeryRecord>, form: SurgeryForm.FormData, id: int)
    : (r: Option<SurgeryForm.SurgeryRecord>)
    ensures form.date != "" ==> r == Some(SurgeryForm.ToRecord(form, id))
    ensures form.date == "" ==> r == current
  {
    match SurgeryForm.Submit(form, id)
    case Some(record) => Some(record)
    case None => current
  }

  /** The discrepancy on one input: a dated form that the intended wiring
      turns into a record is lost as wired. */
  lemma WiringGap(form: SurgeryForm.FormData, id: int)
    requires form.date != ""
    ensures SubmitAsWired(None, form, id) == None
    ensures SubmitIntended(None, form, id) == Some(SurgeryForm.SurgeryRecord(form.surgeryType, form.date, id))
  {
  }

  /** The record after a series of submissions, under either wiring. */
  function AfterSubmissions(intended: bool, forms: seq<SurgeryForm.FormData>, ids: seq<int>)
    : Option<SurgeryForm.SurgeryRecord>
    requires |ids| == |forms|
  {
    if forms == [] then None
    else
      var before := AfterSubmissions(intended, forms[..|forms| - 1], ids[..|ids| - 1]);
      if intended then SubmitIntended(before, forms[|forms| - 1], ids[|ids| - 1])
      else SubmitAsWired(before, forms[|forms| - 1], ids[|ids| - 1])
  }

  /** As wired, no number of submissions ever gets past the prompt. */
  lemma {:induction false} AsWiredNeverLeavesPrompt(forms: seq<SurgeryForm.FormData>, ids: seq<int>, currentDay: int)
    requires |ids| == |forms|
    ensures AfterSubmissions(false, forms, ids) == None
    ensures RecoveryPlan.Render(AfterSubmissions(false, forms, ids), currentDay, MockData.RecoveryPlans)
      == RecoveryPlan.EnterDetailsPrompt
  {
    if forms != [] {
      AsWiredNeverLeavesPrompt(forms[..|forms| - 1], ids[..|ids| - 1], currentDay);
    }
  }

  /** As intended, the last dated submission is the record and the plan is shown. */
  lemma {:induction false} IntendedShowsLastRecord(forms: seq<SurgeryForm.FormData>, ids: seq<int>, k: nat)
    requires |ids| == |forms|
    requires k < |forms| && forms[k].date != ""
    requires forall j :: k < j < |forms| ==> forms[j].date == ""
    ensures AfterSubmissions(true, forms, ids) == Some(SurgeryForm.ToRecord(forms[k], ids[k]))
  {
    if k < |forms| - 1 {
      IntendedShowsLastRecord(forms[..|forms| - 1], ids[..|ids| - 1], k);
    }
  }

  // ---------------------------------------------------------------------------
  // The session

  /** The state of the top-level component: each `useState` slot is a field
      that the handlers replace as a whole. */
  class Session {
    var surgeryData: Option<SurgeryForm.SurgeryRecord>
    var currentDay: int
    var meds: seq<Medications.Medication>
    var checklist: seq<Checklist.ChecklistItem>
    var symptoms: seq<Symptom>
    var appointments: seq<Appointment>
    var documents: seq<Document>

    /** The day stays 1 until there is a record; ids stay distinct. */
    ghost predicate Valid()
      reads this
    {
      && (surgeryData.None? ==> currentDay == 1)
      && Distinct(Medications.Ids(meds))
      && Distinct(Checklist.Ids(checklist))
    }

    constructor ()
      ensures Valid()
      ensures surgeryData == None && currentDay == 1
      ensures meds == MockData.InitialMedications && checklist == MockData.InitialChecklist
      ensures symptoms == [] && appointments == [] && documents == []
    {
      surgeryData := None;
      currentDay := 1;
      meds := MockData.InitialMedications;
      checklist := MockData.InitialChecklist;
      symptoms := [];
      appointments := [];
      documents := [];
      MockData.InitialMedicationsFacts();
      MockData.InitialChecklistFacts();
    }

    /** The recovery-plan page for the current state. */
    function PlanPage(): (v: RecoveryPlan.View)
      reads this
      ensures surgeryData.None? <==> v.EnterDetailsPrompt?
      ensures v.PlanView? ==> forall e :: e in v.milestones ==> e.day > currentDay
    {
      RecoveryPlan.Render(surgeryData, currentDay, MockData.RecoveryPlans)
    }

    /** `setSurgeryData(record)` followed by the effect it triggers, run at
        clock reading `now`; `dateMs` is the millisecond value of the date. */
    method SetSurgeryData(record: SurgeryForm.SurgeryRecord, now: int, dateMs: int)
      requires Valid()
      modifies this`surgeryData, this`currentDay
      ensures Valid()
      ensures surgeryData == Some(record)
      ensures record.date != "" ==> currentDay == DayOffset(now, dateMs)
      ensures record.date == "" ==> currentDay == old(currentDay)
      ensures PlanPage().PlanView?
    {
      surgeryData := Some(record);
      currentDay := EffectDay(surgeryData, dateMs, now, currentDay);
    }

    /** "Mark as Taken" on medication `id` at time `now`. */
    method TakeMedication(id: int, now: string)
      requires Valid()
      modifies this`meds
      ensures Valid()
      ensures meds == Medications.MarkTaken(old(meds), id, now)
    {
      Medications.MarkTakenKeepsIds(meds, id, now);
      meds := Medications.MarkTaken(meds, id, now);
    }

    /** Ticking checklist item `id`. */
    method ToggleChecklistItem(id: int)
      requires Valid()
      modifies this`checklist
      ensures Valid()
      ensures checklist == Checklist.Toggle(old(checklist), id)
    {
      Checklist.ToggleKeepsIds(checklist, id);
      checklist := Checklist.Toggle(checklist, id);
    }

    /** `handleFileUpload`: the picked files become documents after the
        existing ones; `uploads` holds the id and object URL made for each. */
    method UploadDocuments(files: seq<File>, uploads: seq<Upload>)
      requires |uploads| == |files|
      modifies this`documents
      ensures documents == old(documents) + NewDocuments(files, uploads)
      ensures |documents| == |old(documents)| + |files|
      ensures documents[..|old(documents)|] == old(documents)
    {
      documents := documents + NewDocuments(files, uploads);
    }
  }

  /** The symptom form of the progress tracker. */
  class ProgressTracker {
    var newSymptom: SymptomDraft

    ghost predicate Valid()
      reads this
    {
      newSymptom.symptomType in SymptomTypes
    }

    constructor ()
      ensures Valid() && newSymptom == InitialSymptomDraft
    {
      newSymptom := InitialSymptomDraft;
    }

    /** The select only reports one of its options. */
    method SetType(value: string)
      requires Valid() && value in SymptomTypes
      modifies this
      ensures Valid() && newSymptom == old(newSymptom).(symptomType := value)
    {
      newSymptom := newSymptom.(symptomType := value);
    }

    method SetSeverity(value: Severity)
      requires Valid()
      modifies this
      ensures Valid() && newSymptom == old(newSymptom).(severity := value)
    {
      newSymptom := newSymptom.(severity := value);
    }

    method SetNotes(value: string)
      requires Valid()
      modifies this
      ensures Valid() && newSymptom == old(newSymptom).(notes := value)
    {
      newSymptom := newSymptom.(notes := value);
    }

    /** "Add Symptom": the draft, stamped with `now` and `id`, goes at the end
        of the log, and the form is reset. */
    method HandleSubmit(app: Session, now: string, id: int)
      requires Valid()
      modifies this, app`symptoms
      ensures Valid()
      ensures app.symptoms == old(app.symptoms) +
        [Symptom(old(newSymptom).symptomType, old(newSymptom).severity, old(newSymptom).notes, now, id)]
      ensures newSymptom == InitialSymptomDraft
    {
      var entry := Symptom(newSymptom.symptomType, newSymptom.severity, newSymptom.notes, now, id);
      app.symptoms := app.symptoms + [entry];
      newSymptom := InitialSymptomDraft;
    }
  }

  /** The appointment form. */
  class AppointmentScheduler {
    var newAppointment: AppointmentDraft

    constructor ()
      ensures newAppointment == EmptyAppointmentDraft
    {
      newAppointment := EmptyAppointmentDraft;
    }

    method SetDate(value: string)
      modifies this
      ensures newAppointment == old(newAppointment).(date := value)
    {
      newAppointment := newAppointment.(date := value);
    }

    method SetTime(value: string)
      modifies this
      ensures newAppointment == old(newAppointment).(time := value)
    {
      newAppointment := newAppointment.(time := value);
    }

    method SetPurpose(value: string)
      modifies this
      ensures newAppointment == old(newAppointment).(purpose := value)
    {
      newAppointment := newAppointment.(purpose := value);
    }

    /** "Schedule Appointment". All three inputs are `required`, so the
        browser dispatches the submit only when each is filled; then the
        draft, with `id`, goes at the end of the list and the form clears. */
    method HandleSubmit(app: Session, id: int)
      modifies this, app`appointments
      ensures var d := old(newAppointment);
        if d.date != "" && d.time != "" && d.purpose != "" then
          && app.appointments == old(app.appointments) + [Appointment(d.date, d.time, d.purpose, id)]
          && newAppointment == EmptyAppointmentDraft
        else
          && app.appointments == old(app.appointments)
          && newAppointment == d
    {
      var d := newAppointment;
      if d.date != "" && d.time != "" && d.purpose != "" {
        app.appointments := app.appointments + [Appointment(d.date, d.time, d.purpose, id)];
        newAppointment := EmptyAppointmentDraft;
      }
    }
  }
}
