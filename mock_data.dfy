/** The reference data the app starts from: the recovery plans per surgery
    type, the prescribed medications and the checklist. */
module MockData {

  import opened Text
  import opened RecoveryPlan
  import Medications
  import Checklist
  import SurgeryForm

  // Each instruction is written as its "Day d:" label followed by the rest of
  // the text; the value is the same string.

  const LasikPlan: Plan := map[
    1 := "Day 1:" + " Rest your eyes, use prescribed eye drops every 4 hours, wear protective glasses",
    2 := "Day 2:" + " Continue eye drops, avoid screens for more than 30 minutes at a time",
    3 := "Day 3:" + " You may resume light activities, continue eye drops",
    7 := "Day 7:" + " First follow-up appointment today",
    14 := "Day 14:" + " You may resume light exercise",
    30 := "Day 30:" + " Final check-up today"
  ]

  const CataractPlan: Plan := map[
    1 := "Day 1:" + " Keep eye shield on, use antibiotic drops as prescribed",
    2 := "Day 2:" + " Remove shield during the day but wear at night",
    3 := "Day 3:" + " Begin using anti-inflammatory drops",
    7 := "Day 7:" + " First follow-up appointment today",
    14 := "Day 14:" + " You may resume most normal activities",
    30 := "Day 30:" + " Final check-up today"
  ]

  const RecoveryPlans: PlanTable := map["LASIK" := LasikPlan, "Cataract" := CataractPlan]

  const InitialMedications: seq<Medications.Medication> := [
    Medications.Medication(1, "Antibiotic Drops", "Every 4 hours", None),
    Medications.Medication(2, "Anti-inflammatory Drops", "Twice daily", None),
    Medications.Medication(3, "Artificial Tears", "As needed", None)
  ]

  const InitialChecklist: seq<Checklist.ChecklistItem> := [
    Checklist.ChecklistItem(1, "Wear sunglasses outdoors", false, true),
    Checklist.ChecklistItem(2, "Use eye drops as prescribed", false, true),
    Checklist.ChecklistItem(3, "Don't rub your eyes", false, false),
    Checklist.ChecklistItem(4, "Avoid swimming for 2 weeks", false, false)
  ]

  /** Both plans cover the same six days. */
  lemma PlanDays()
    ensures RecoveryPlans.Keys == {"LASIK", "Cataract"}
    ensures LasikPlan.Keys == {1, 2, 3, 7, 14, 30}
    ensures CataractPlan.Keys == LasikPlan.Keys
  {
  }

  lemma DayKeyTexts()
    ensures NatToString(1) == "1" && NatToString(2) == "2" && NatToString(3) == "3"
    ensures NatToString(7) == "7" && NatToString(14) == "14" && NatToString(30) == "30"
  {
    assert NatToString(1) == "1";
    assert NatToString(14) == NatToString(1) + "4";
    assert NatToString(3) == "3";
    assert NatToString(30) == NatToString(3) + "0";
  }

  lemma LasikWellFormed()
    ensures WellFormedPlan(LasikPlan)
  {
    DayKeyTexts();
  }

  lemma CataractWellFormed()
    ensures WellFormedPlan(CataractPlan)
  {
    DayKeyTexts();
  }

  /** Every stored instruction for day d starts with "Day d:". */
  lemma PlansWellFormed()
    ensures forall t :: t in RecoveryPlans ==> WellFormedPlan(RecoveryPlans[t])
  {
    LasikWellFormed();
    CataractWellFormed();
  }

  /** No stored instruction is empty, so a stored day never falls back. */
  lemma StoredInstructionsNonEmpty(surgeryType: string, currentDay: nat)
    requires surgeryType in RecoveryPlans
    ensures var plan := RecoveryPlans[surgeryType];
      TodayInstruction(plan, currentDay) == (if currentDay in plan then plan[currentDay] else Fallback(currentDay))
  {
    var plan := RecoveryPlans[surgeryType];
    if currentDay in plan {
      assert |plan[currentDay]| > 0;
    }
  }

  /** PRK and ICL are offered by the form but have no plan: every day falls
      back to the generic text, and there are never milestones. */
  lemma PrkAndIclHaveNoPlan(record: SurgeryForm.SurgeryRecord, currentDay: int)
    requires record.surgeryType in {"PRK", "ICL"}
    ensures Render(Some(record), currentDay, RecoveryPlans) == PlanView(Fallback(currentDay), [])
  {
    UnknownTypeView(record, currentDay, RecoveryPlans);
  }

  /** The plans and the form's options: exactly LASIK and Cataract have plans. */
  lemma PlannedTypes()
    ensures forall t :: t in SurgeryForm.SurgeryTypes ==> (t in RecoveryPlans <==> t == "LASIK" || t == "Cataract")
  {
  }

  lemma LasikDaySeven()
    ensures TodayInstruction(RecoveryPlans["LASIK"], 7) == "Day 7:" + " First follow-up appointment today"
  {
  }

  /** On day 7 of the LASIK plan the milestones are days 14 and 30. */
  lemma LasikWeekOneMilestones()
    ensures Milestones(LasikPlan, 7) ==
      [PlanEntry(14, "Day 14:" + " You may resume light exercise"), PlanEntry(30, "Day 30:" + " Final check-up today")]
  {
    var r := [PlanEntry(14, LasikPlan[14]), PlanEntry(30, LasikPlan[30])];
    forall d | d in LasikPlan && d > 7 ensures PlanEntry(d, LasikPlan[d]) in r {
      assert d == 14 || d == 30;
    }
    MilestonesUnique(LasikPlan, 7, r);
  }

  /** A LASIK patient on day 7: the follow-up text, then days 14 and 30. */
  lemma LasikWeekOneView(record: SurgeryForm.SurgeryRecord)
    requires record.surgeryType == "LASIK"
    ensures Render(Some(record), 7, RecoveryPlans) == PlanView(
      "Day 7:" + " First follow-up appointment today",
      [PlanEntry(14, "Day 14:" + " You may resume light exercise"),
       PlanEntry(30, "Day 30:" + " Final check-up today")])
  {
    assert PlanFor(RecoveryPlans, record.surgeryType) == LasikPlan;
    assert TodayInstruction(LasikPlan, 7) == LasikPlan[7];
    LasikWeekOneMilestones();
  }

  lemma FallbackDayFive()
    ensures Fallback(5) == "Day " + "5" + ": Continue following your recovery plan"
  {
    assert IntToString(5) == "5";
  }

  /** An unknown type on day 5: the generic text naming day 5, no milestones. */
  lemma UnknownTypeDayFive(record: SurgeryForm.SurgeryRecord)
    requires record.surgeryType !in RecoveryPlans
    ensures Render(Some(record), 5, RecoveryPlans) ==
      PlanView("Day " + "5" + ": Continue following your recovery plan", [])
  {
    UnknownTypeView(record, 5, RecoveryPlans);
    FallbackDayFive();
  }

  /** After day 30 neither plan has anything left to come. */
  lemma NothingAfterDayThirty(surgeryType: string, currentDay: int)
    requires currentDay >= 30
    ensures Milestones(PlanFor(RecoveryPlans, surgeryType), currentDay) == []
  {
    NoMilestonesAfterLastDay(PlanFor(RecoveryPlans, surgeryType), currentDay);
  }

  lemma InitialMedicationsFacts()
    ensures Medications.Ids(InitialMedications) == [1, 2, 3]
    ensures Distinct(Medications.Ids(InitialMedications))
    ensures forall i :: 0 <= i < |InitialMedications| ==> InitialMedications[i].lastTaken == None
  {
  }

  lemma InitialChecklistFacts()
    ensures Checklist.Ids(InitialChecklist) == [1, 2, 3, 4]
    ensures Distinct(Checklist.Ids(InitialChecklist))
    ensures forall i :: 0 <= i < |InitialChecklist| ==> !InitialChecklist[i].isDone
    ensures forall i :: 0 <= i < |InitialChecklist| ==> (InitialChecklist[i].isPositive <==> i < 2)
  {
  }
}
