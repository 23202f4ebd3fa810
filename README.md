# Eye-surgery recovery tracker — Dafny model

The application helps a patient recover from eye surgery. The patient enters
the surgery type and date. The app then shows a day-by-day recovery plan, a
list of medications to mark as taken, a do's-and-don'ts checklist, a symptom
log, a list of appointments and a list of uploaded documents. All state lives
in the page session; nothing is persisted.

This project models the logic under that interface:

- `RecoveryPlan` (recovery_plan.dfy) is the recovery-plan projector. It picks
  the plan for the surgery type, falling back to an empty plan. It finds
  today's instruction, falling back to `Day N: Continue following your
  recovery plan`. It lists the upcoming milestones. `Object.entries` is
  modelled as the plan's entries in ascending day order. The filter reads
  each key back with `parseInt`.
- `App` (app.dfy) holds the day offset `ceil((now - date) / 86400000)` on
  integer milliseconds and the effect that recomputes it. It also holds the
  session state of the top-level component, as class `Session`. The two
  form components with their own draft state are classes too:
  `ProgressTracker` (symptoms) and `AppointmentScheduler`. The file also
  covers the document upload, the severity dots and the navigation-link
  highlight.
- `Medications` and `Checklist` hold the two update-by-id operations as
  functions over sequences, like the `map` calls they model.
- `SurgeryForm` holds the intake form, as class `Form`, and the record that a
  submission builds.
- `MockData` holds the reference data: the two recovery plans, the initial
  medications and the initial checklist, with the facts about them.
- `Text` holds the decimal rendering of day numbers and the part of
  `parseInt` the filter uses.

Clocks, ids, object URLs and date parsing are parameters. `now` is an ISO
timestamp string where the source calls `toISOString()`, and an integer
millisecond count in the day-offset effect. `dateMs` is the millisecond value
of the surgery date.

The day offset is 0 at the surgery instant and negative for a surgery date in
the future; nothing clamps it to 1. `App.DayOffset` is the code's ceiling.

Each instruction in `MockData` is written as its `"Day d:"` label
concatenated with the rest of the text. The value is the same string as in
src/data/mockData.js. The split only lets the verifier see the label
without unfolding the whole literal.

## Model

| member | source | states |
|---|---|---|
| `Text.NatToString` | src/components/RecoveryPlan.js:20 | a day number renders as a non-empty string of decimal digits with no leading zero |
| `Text.ParseInt` | src/components/RecoveryPlan.js:39 | `parseInt` gives NaN (None) exactly when the text does not start with a digit |
| `Text.ParseIntOfNatToString` | src/components/RecoveryPlan.js:39 | `parseInt` of a rendered day, followed by any non-digit text, gives the day back |
| `Text.IntToString` | src/components/RecoveryPlan.js:20 | `${currentDay}` is non-empty, starts with `-` exactly for a negative day, and its digits read back as the day's magnitude |
| `Text.NatToStringInjective` | src/components/RecoveryPlan.js:38-39 | different days have different key texts, so keying a plan by day number merges no two keys |
| `RecoveryPlan.PlanFor` | src/components/RecoveryPlan.js:19 | the plan of a known type is its table entry; an unknown type gets the empty plan |
| `RecoveryPlan.Entries` | src/components/RecoveryPlan.js:38 | `Object.entries(plan)` lists every day of the plan exactly once, with its stored instruction, strictly ascending by day |
| `RecoveryPlan.KeyAfter` | src/components/RecoveryPlan.js:39 | the filter test `parseInt(day) > currentDay` on the key text holds exactly when the day is after the current day |
| `RecoveryPlan.Upcoming` | src/components/RecoveryPlan.js:38-39 | the filter keeps exactly the entries after the current day, and keeps an ascending list ascending |
| `RecoveryPlan.Milestones` | src/components/RecoveryPlan.js:38-40 | every milestone is a plan entry with its instruction unchanged and a day after today; every plan day after today is a milestone; strictly ascending, so no duplicates |
| `RecoveryPlan.MilestonesUnique` | src/components/RecoveryPlan.js:38-40 | any list with the three milestone properties is the milestone list |
| `RecoveryPlan.TodayInstruction` | src/components/RecoveryPlan.js:20 | the stored text when the plan has a non-empty entry for today; otherwise `Day N: Continue following your recovery plan` |
| `RecoveryPlan.Render` | src/components/RecoveryPlan.js:5-20 | no surgery record gives the prompt and nothing else; a record gives today's instruction and the milestones of its type's plan |
| `RecoveryPlan.NoRecordGivesPrompt` | src/components/RecoveryPlan.js:5-17 | without a surgery record only the "enter details first" prompt is produced |
| `RecoveryPlan.UnknownTypeView` | src/components/RecoveryPlan.js:19-20 | an unknown type gets the generic instruction for the day and no milestones |
| `RecoveryPlan.EmptyPlanNoMilestones` | src/components/RecoveryPlan.js:19-39 | the empty plan has no milestones |
| `RecoveryPlan.NoMilestonesAfterLastDay` | src/components/RecoveryPlan.js:38-39 | at or past the plan's last day the milestone list is empty |
| `RecoveryPlan.TodayInstructionNamesDay` | src/components/RecoveryPlan.js:20 | if every stored text starts with its own `Day d:`, today's instruction starts with `Day N:` on either branch |
| `RecoveryPlan.Fallback` | src/components/RecoveryPlan.js:20 | the fallback text is `Day `, then the day as text that parses back to the day (after a `-` for a negative day), then `: Continue following your recovery plan` |
| `SurgeryForm.ToRecord` | src/components/SurgeryForm.js:12-15 | the record has the form's type and date and the given id |
| `SurgeryForm.Submit` | src/components/SurgeryForm.js:10-15 | a submission yields a record exactly when the required date is filled in; the record carries the form's type and date and the id |
| `SurgeryForm.SurgeryTypesDistinct` | src/components/SurgeryForm.js:29-32 | the select offers LASIK, Cataract, PRK and ICL, each once |
| `SurgeryForm.InitialFormNotSubmittable` | src/components/SurgeryForm.js:5-8 | the form starts at LASIK with an empty date, so it cannot be submitted yet |
| `SurgeryForm.Form.constructor` | src/components/SurgeryForm.js:5-8 | the form starts with type LASIK and an empty date |
| `SurgeryForm.Form.SetType` | src/components/SurgeryForm.js:27 | changing the type changes only the type, and only to one of the four options |
| `SurgeryForm.Form.SetDate` | src/components/SurgeryForm.js:41 | changing the date changes only the date |
| `SurgeryForm.Form.HandleSubmit` | src/components/SurgeryForm.js:10-16 | submit returns the form's type and date with the id, and only when a date is filled in |
| `Medications.MarkTaken` | src/components/MedicationReminders.js:5-9 | same length and order; a medication with the id gets `lastTaken = now` with its id, name and frequency kept; every other medication is unchanged |
| `Medications.MarkTakenKeepsIds` | src/components/MedicationReminders.js:6-7 | marking keeps the id sequence, so distinct ids stay distinct |
| `Medications.MarkTakenAbsentId` | src/components/MedicationReminders.js:6-8 | an id that names no medication leaves the list unchanged |
| `Medications.MarkTakenIdempotent` | src/components/MedicationReminders.js:6-8 | marking twice with the same `now` equals marking once |
| `Medications.MarkTakenLastWins` | src/components/MedicationReminders.js:6-8 | marking again with a later time keeps only the later time |
| `Medications.ShowsLastTaken` | src/components/MedicationReminders.js:25 | the "Last taken" line is hidden for a null `lastTaken` and shown for a timestamp exactly when it is non-empty (truthy) |
| `Medications.MarkedShowsLastTaken` | src/components/MedicationReminders.js:25 | a medication just marked shows its "Last taken" line |
| `Medications.NeverTakenShowsNothing` | src/components/MedicationReminders.js:25 | "Last taken" is not shown while `lastTaken` is null |
| `Checklist.Toggle` | src/components/Checklist.js:4-8 | same length and order; the item with the id has `isDone` flipped with its id, text and `isPositive` kept; every other item is unchanged |
| `Checklist.LabelClass` | src/components/Checklist.js:27 | an item's label is struck through exactly when it is done, and has no class otherwise |
| `Checklist.ToggleTwice` | src/components/Checklist.js:5-7 | toggling the same id twice restores the list |
| `Checklist.ToggleAbsentId` | src/components/Checklist.js:5-7 | an id that names no item leaves the list unchanged |
| `Checklist.ToggleKeepsIds` | src/components/Checklist.js:5-7 | toggling keeps every item's id, so distinct ids stay distinct |
| `Checklist.ToggleFlipsStrikeThrough` | src/components/Checklist.js:5-27 | the toggled item's strike-through flips; every other item's stays |
| `MockData.PlanDays` | src/data/mockData.js:1-18 | only LASIK and Cataract have plans, and both have exactly the days {1,2,3,7,14,30} |
| `MockData.LasikWellFormed` | src/data/mockData.js:2-9 | every LASIK entry for day d starts with `Day d:` |
| `MockData.CataractWellFormed` | src/data/mockData.js:10-17 | every Cataract entry for day d starts with `Day d:` |
| `MockData.PlansWellFormed` | src/data/mockData.js:1-18 | every plan in the table names its own day in each entry |
| `MockData.StoredInstructionsNonEmpty` | src/data/mockData.js:1-18 | no stored text is empty, so a stored day always shows its stored text |
| `MockData.PrkAndIclHaveNoPlan` | src/data/mockData.js:1-18 | PRK and ICL always get the fallback instruction and no milestones |
| `MockData.PlannedTypes` | src/data/mockData.js:1-18 | of the four selectable types, exactly LASIK and Cataract have plans |
| `MockData.LasikDaySeven` | src/data/mockData.js:6 | LASIK day 7 shows exactly `Day 7: First follow-up appointment today` |
| `MockData.LasikWeekOneMilestones` | src/data/mockData.js:2-9 | on LASIK day 7 the milestones are exactly day 14 then day 30, with their texts |
| `MockData.LasikWeekOneView` | src/components/RecoveryPlan.js:19-40 | a LASIK record on day 7 shows the day-7 text and the milestones for days 14 and 30 |
| `MockData.FallbackDayFive` | src/components/RecoveryPlan.js:20 | the fallback for day 5 is `Day 5: Continue following your recovery plan` |
| `MockData.UnknownTypeDayFive` | src/components/RecoveryPlan.js:19-20 | an unknown type on day 5 shows that fallback and no milestones |
| `MockData.NothingAfterDayThirty` | src/data/mockData.js:1-18 | from day 30 on, no type has milestones left |
| `MockData.InitialMedicationsFacts` | src/data/mockData.js:20-24 | the initial medications have ids 1, 2, 3 in order, all distinct, and `lastTaken` null |
| `MockData.InitialChecklistFacts` | src/data/mockData.js:26-31 | the initial items have ids 1 to 4, all distinct and not done; items 1-2 are do's and 3-4 don'ts |
| `App.DayOffset` | src/App.js:335 | the day d satisfies (d-1)·86400000 < now − date ≤ d·86400000 |
| `App.DayOffsetUnique` | src/App.js:335 | those bounds determine the day: it is the ceiling |
| `App.DayOffsetBoundaries` | src/App.js:335-336 | now = date gives 0; one millisecond later gives 1; k whole days later gives k |
| `App.DayOffsetMonotonic` | src/App.js:335 | a later clock reading never gives an earlier day |
| `App.EffectDay` | src/App.js:333-338 | without a record, or with an empty date, the day is unchanged; otherwise it is the ceiling day offset |
| `App.NewDocuments` | src/App.js:259-266 | one document per picked file, in selection order, with the file's name, type and size and the generated id and URL |
| `App.SeverityDots` | src/App.js:150-153 | five dots; dot i is filled exactly when i < severity |
| `App.FilledDots` | src/App.js:150-153 | for a severity from 1 to 5, exactly that many dots are filled |
| `App.IsActive` | src/App.js:448 | a link is active exactly when the pathname has the target's length and the same character at every position |
| `App.ActiveCountDistinct` | src/App.js:448 | over distinct targets, at most one link is active, and one is exactly when the path is a target |
| `App.OneActiveLink` | src/App.js:437-448 | a link is active iff the pathname equals its target; in the bottom bar exactly one is active when the path is one of the four targets, none otherwise |
| `App.SubmitAsWired` | src/App.js:386-388 | as wired, a surgery submission leaves the session's record as it was |
| `App.SubmitIntended` | src/components/SurgeryForm.js:10-15 | as intended, a dated submission sets the record built from the form; an undated one changes nothing |
| `App.WiringGap` | src/App.js:344-388 | for any dated form, the intended wiring yields a record and the actual wiring yields none |
| `App.AsWiredNeverLeavesPrompt` | src/App.js:344-388 | as wired, after any number of submissions there is no record and the plan page shows only the prompt |
| `App.IntendedShowsLastRecord` | src/components/SurgeryForm.js:10-15 | as intended, the record is the one built from the last dated submission |
| `App.Session.constructor` | src/App.js:325-331 | the session starts with no record, day 1, the reference medications and checklist, and empty symptom, appointment and document lists |
| `App.Session.PlanPage` | src/App.js:390-396 | the plan page is the prompt exactly when there is no record; every milestone shown is after the current day |
| `App.Session.SetSurgeryData` | src/App.js:333-338 | setting the record reruns the effect: the day becomes the ceiling offset when the date is filled in, the plan is shown, the day stays 1 until a record exists, and only the record and the day change |
| `App.Session.TakeMedication` | src/components/MedicationReminders.js:5-9 | the medication list becomes `MarkTaken` of the old list; ids stay distinct; nothing else changes |
| `App.Session.ToggleChecklistItem` | src/components/Checklist.js:4-8 | the checklist becomes `Toggle` of the old list; ids stay distinct; nothing else changes |
| `App.Session.UploadDocuments` | src/App.js:258-268 | k picked files append exactly k documents, in selection order, after all existing ones |
| `App.ProgressTracker.constructor` | src/App.js:68-72 | the symptom form starts at type pain, severity 3 and empty notes |
| `App.ProgressTracker.SetType` | src/App.js:98 | changing the symptom type changes only the type |
| `App.ProgressTracker.SetSeverity` | src/App.js:113 | changing the severity changes only the severity |
| `App.ProgressTracker.SetNotes` | src/App.js:124 | changing the notes changes only the notes |
| `App.ProgressTracker.HandleSubmit` | src/App.js:74-86 | exactly one symptom with the submitted type, severity and notes, plus the time and id, is appended after the prior ones; the form resets to pain, 3 and empty notes |
| `App.AppointmentScheduler.constructor` | src/App.js:168-172 | the appointment form starts empty |
| `App.AppointmentScheduler.SetDate` | src/App.js:198 | changing the date changes only the date |
| `App.AppointmentScheduler.SetTime` | src/App.js:208 | changing the time changes only the time |
| `App.AppointmentScheduler.SetPurpose` | src/App.js:220 | changing the purpose changes only the purpose |
| `App.AppointmentScheduler.HandleSubmit` | src/App.js:174-185 | with all three required fields filled, exactly one appointment with that date, time, purpose and the id is appended after the prior ones and the form clears; otherwise nothing changes |

## Findings

| source | as written | input that shows it | evidently intended | confidence | as-written member | corrected member |
|---|---|---|---|---|---|---|
| src/App.js:344-359 | `App` renders `MainContent` without a `setSurgeryData` prop. `MainContent` forwards `props.setSurgeryData`, which is undefined, to `SurgeryForm` (src/App.js:386-388). The form's submit handler then calls undefined and throws, so the surgery record is never set. As text, App.js also lacks imports for `SurgeryForm`, `RecoveryPlan`, `MedicationReminders` and `Checklist` (src/App.js:1-3), which `MainContent` uses at src/App.js:386-408; the claim holds once those imports are added. | type LASIK, date "2024-01-01", submitted once: the record stays null and the plan page keeps asking for surgery details | a submission sets the surgery record, which recomputes the day and shows the plan | not executed | `App.SubmitAsWired` | `App.Session.SetSurgeryData` |

`App.WiringGap` and `App.AsWiredNeverLeavesPrompt` exhibit the discrepancy.
`App.SubmitIntended` and `App.IntendedShowsLastRecord` state the intended
behaviour on values. The session's `SetSurgeryData` implements it.

## Left out

- Rendering is not modelled: JSX markup, styling classes, icons, iframes, the
  video list and its data, the header text, and the empty-list messages.
  Only the conditions that choose what is shown are modelled.
- react-router routes, `Link`, `useLocation` and the bootstrap through
  `ReactDOM.createRoot` are framework plumbing. Only the pathname equality
  behind the link highlight is kept.
- React's effect scheduling is not modelled. `Session.SetSurgeryData` sets the
  record and runs the effect in one step, which is what the page shows after
  the next render.
- Date text parsing (`new Date("YYYY-MM-DD")`), `toLocaleString`,
  `toLocaleDateString` and the date-fns `format` call are library and locale
  behaviour. Dates come in as integer milliseconds (`dateMs`, `now`).
  Timestamps come in as an ISO string (`now`).
- `Date.now()`, `Math.random()` and `URL.createObjectURL` produce values the
  model cannot compute. They are parameters instead: the id of each new
  record, and one `Upload` (id and URL) per picked file.
- `App.DayOffset` uses exact integer arithmetic. JavaScript divides in floating
  point before `Math.ceil`, which gives the same day while the difference is
  under about 10^8 days. JavaScript's `-0` for an instant less than one day
  before the surgery is the integer 0 here. An invalid date (NaN) is not
  modelled.
- `Text.ParseInt` models only unsigned decimal text. Leading whitespace,
  signs and radix prefixes are left out because plan keys never contain them.
- The document size display `(size / 1024).toFixed(1)` is floating-point
  formatting.
- The appointment "Cancel" button has no handler, so there is nothing to
  model.
- src/App.js does not import the four components it renders from
  src/components (src/App.js:1-3). The model assumes those imports, as the
  component files export them.
- src/AppTemp.js is a truncated copy of the App.js data and day-offset
  effect. src/App.js also carries its own copies of the plans, medications
  and checklist (src/App.js:6-36), equal to src/data/mockData.js. The model
  defines them once, in `MockData`.
- The change handlers of the two selects require one of the offered option
  values, because the select element can only report those.
- `SurgeryForm.Form.HandleSubmit` and `App.AppointmentScheduler.HandleSubmit`
  model the browser's `required` check as a submission that does not happen.
- The source's `type` fields are named `surgeryType`, `symptomType` and
  `mimeType` here, because `type` is a Dafny keyword.
