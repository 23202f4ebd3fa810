/** The recovery-plan projector: picks the plan for the surgery type, finds
    today's instruction (or a generic one) and lists the upcoming milestones.
    The component keeps no state: everything here is a function of the
    surgery record, the current day and the plan table. */
module RecoveryPlan {

  import opened Text
  import SurgeryForm

  /** One surgery type's plan: day offset to instruction. Its keys are array
      indices, so JavaScript lists them in ascending numeric order. Keying by
      the number loses nothing, because distinct days have distinct key texts
      (`NatToStringInjective`). */
  type Plan = map<nat, string>

  /** Surgery type to plan. */
  type PlanTable = map<string, Plan>

  /** One `[day, instruction]` pair of `Object.entries(plan)`; the key text is
      `NatToString(day)`. */
  datatype PlanEntry = PlanEntry(day: nat, instruction: string)

  /** What the component shows. */
  datatype View =
    | EnterDetailsPrompt
    | PlanView(today: string, milestones: seq<PlanEntry>)

  /** `recoveryPlans[type] || {}`. */
  function PlanFor(plans: PlanTable, surgeryType: string): (p: Plan)
    ensures surgeryType in plans ==> p == plans[surgeryType]
    ensures surgeryType !in plans ==> p == map[]
  {
    if surgeryType in plans then plans[surgeryType] else map[]
  }

  // ---------------------------------------------------------------------------
  // Object.entries: the plan's entries in ascending day order

  predicate StrictlyAscending(es: seq<PlanEntry>) {
    forall i, j :: 0 <= i < j < |es| ==> es[i].day < es[j].day
  }

  lemma {:induction false} MinOf(keys: set<nat>) returns (k: nat)
    requires keys != {}
    ensures k in keys && forall j :: j in keys ==> k <= j
  {
    var x :| x in keys;
    var rest := keys - {x};
    if rest == {} {
      k := x;
    } else {
      var m := MinOf(rest);
      k := if m < x then m else x;
    }
    forall j | j in keys ensures k <= j {
      if j != x {
        assert j in rest;
      }
    }
  }

  lemma MinExists(keys: set<nat>)
    requires keys != {}
    ensures exists k :: k in keys && forall j :: j in keys ==> k <= j
  {
    var k := MinOf(keys);
  }

  /** The smallest day of a non-empty key set. */
  function MinKey(keys: set<nat>): (k: nat)
    requires keys != {}
    ensures k in keys && forall j :: j in keys ==> k <= j
  {
    MinExists(keys);
    var k :| k in keys && forall j :: j in keys ==> k <= j;
    k
  }

  /** `Object.entries(plan)`: every entry exactly once, ascending by day. */
  function Entries(plan: Plan): (es: seq<PlanEntry>)
    ensures |es| == |plan|
    ensures StrictlyAscending(es)
    ensures forall e :: e in es ==> e.day in plan && plan[e.day] == e.instruction
    ensures forall d :: d in plan ==> PlanEntry(d, plan[d]) in es
    decreases |plan|
  {
    if plan == map[] then []
    else
      var k := MinKey(plan.Keys);
      var rest := plan - {k};
      RemoveKeyCard(plan, k);
      var tail := Entries(rest);
      EntriesStep(plan, k, rest, tail);
      [PlanEntry(k, plan[k])] + tail
  }

  lemma RemoveKeyCard(plan: Plan, k: nat)
    requires k in plan
    ensures |plan - {k}| == |plan| - 1
  {
    assert (plan - {k}).Keys == plan.Keys - {k};
  }

  /** Putting the smallest day in front of the entries of the other days. */
  lemma EntriesStep(plan: Plan, k: nat, rest: Plan, tail: seq<PlanEntry>)
    requires k in plan && forall j :: j in plan ==> k <= j
    requires rest == plan - {k}
    requires StrictlyAscending(tail)
    requires forall e :: e in tail ==> e.day in rest && rest[e.day] == e.instruction
    requires forall d :: d in rest ==> PlanEntry(d, rest[d]) in tail
    ensures var es := [PlanEntry(k, plan[k])] + tail;
      && StrictlyAscending(es)
      && (forall e :: e in es ==> e.day in plan && plan[e.day] == e.instruction)
      && (forall d :: d in plan ==> PlanEntry(d, plan[d]) in es)
  {
    var es := [PlanEntry(k, plan[k])] + tail;
    forall i, j | 0 <= i < j < |es| ensures es[i].day < es[j].day {
      assert es[j] == tail[j - 1];
      assert es[j] in tail;
      if i > 0 {
        assert es[i] == tail[i - 1];
      }
    }
    forall d | d in plan ensures PlanEntry(d, plan[d]) in es {
      if d != k {
        assert d in rest;
      }
    }
  }

  // ---------------------------------------------------------------------------
  // .filter(([day]) => parseInt(day) > currentDay)

  /** The filter's test on one entry: the key text read back as a number
      (NaN compares false) is after the current day, which holds exactly
      when the day itself is. */
  predicate KeyAfter(day: nat, currentDay: int): (r: bool)
    ensures r <==> day > currentDay
  {
    ParseIntOfNatToString(day, "");
    assert NatToString(day) + "" == NatToString(day);
    match ParseInt(NatToString(day))
    case Some(v) => v > currentDay
    case None => false
  }

  function Upcoming(es: seq<PlanEntry>, currentDay: int): (r: seq<PlanEntry>)
    ensures forall e :: e in r ==> e in es && e.day > currentDay
    ensures forall e :: e in es && e.day > currentDay ==> e in r
    ensures StrictlyAscending(es) ==> StrictlyAscending(r)
  {
    if es == [] then []
    else
      var tail := Upcoming(es[1..], currentDay);
      UpcomingStep(es, currentDay, tail);
      if KeyAfter(es[0].day, currentDay) then [es[0]] + tail else tail
  }

  /** One step of the filter: keep or drop the first entry. */
  lemma UpcomingStep(es: seq<PlanEntry>, currentDay: int, tail: seq<PlanEntry>)
    requires es != []
    requires forall e :: e in tail ==> e in es[1..] && e.day > currentDay
    requires forall e :: e in es[1..] && e.day > currentDay ==> e in tail
    requires StrictlyAscending(es[1..]) ==> StrictlyAscending(tail)
    ensures var r := if es[0].day > currentDay then [es[0]] + tail else tail;
      && (forall e :: e in r ==> e in es && e.day > currentDay)
      && (forall e :: e in es && e.day > currentDay ==> e in r)
      && (StrictlyAscending(es) ==> StrictlyAscending(r))
  {
    assert es == [es[0]] + es[1..];
    if StrictlyAscending(es) {
      assert StrictlyAscending(es[1..]);
      if es[0].day > currentDay {
        KeepFirstAscending(es, tail);
      }
    }
  }

  lemma KeepFirstAscending(es: seq<PlanEntry>, tail: seq<PlanEntry>)
    requires es != [] && StrictlyAscending(es)
    requires StrictlyAscending(tail)
    requires forall e :: e in tail ==> e in es[1..]
    ensures StrictlyAscending([es[0]] + tail)
  {
    var r := [es[0]] + tail;
    forall i, j | 0 <= i < j < |r| ensures r[i].day < r[j].day {
      assert r[j] == tail[j - 1];
      if i == 0 {
        assert r[j] in es[1..];
        var m :| 0 <= m < |es[1..]| && es[1..][m] == r[j];
        assert es[m + 1] == r[j];
      } else {
        assert r[i] == tail[i - 1];
      }
    }
  }

  /** The upcoming milestones of `plan` seen on day `currentDay`. */
  function Milestones(plan: Plan, currentDay: int): (r: seq<PlanEntry>)
    ensures StrictlyAscending(r)
    ensures forall e :: e in r ==> e.day > currentDay && e.day in plan && plan[e.day] == e.instruction
    ensures forall d :: d in plan && d > currentDay ==> PlanEntry(d, plan[d]) in r
  {
    Upcoming(Entries(plan), currentDay)
  }

  // ---------------------------------------------------------------------------
  // Today's instruction

  const FallbackSuffix: string := ": Continue following your recovery plan"

  /** `Day ${currentDay}: Continue following your recovery plan`: "Day ", the
      day as text that reads back as the day, then the fixed suffix. */
  function Fallback(currentDay: int): (r: string)
    ensures |r| > 4 + |FallbackSuffix| && r[..4] == "Day "
    ensures r[|r| - |FallbackSuffix|..] == FallbackSuffix
    ensures currentDay >= 0 ==> ParseInt(r[4..]) == Some(currentDay)
    ensures currentDay < 0 ==> r[4] == '-' && ParseInt(r[5..|r| - |FallbackSuffix|]) == Some(-currentDay)
  {
    ThreeParts("Day ", IntToString(currentDay), FallbackSuffix);
    SuffixedDayReadsBack(currentDay);
    "Day " + IntToString(currentDay) + FallbackSuffix
  }

  /** The suffix starts with ':', so it does not extend the day's digits. */
  lemma SuffixedDayReadsBack(currentDay: int)
    ensures currentDay >= 0 ==> ParseInt(IntToString(currentDay) + FallbackSuffix) == Some(currentDay)
  {
    if currentDay >= 0 {
      ParseIntOfNatToString(currentDay, FallbackSuffix);
    }
  }

  /** Where the three parts of `a + b + c` sit. */
  lemma ThreeParts(a: string, b: string, c: string)
    ensures var r := a + b + c;
      && r[..|a|] == a && r[|a|..] == b + c
      && r[|a|..|r| - |c|] == b && r[|r| - |c|..] == c
      && (|b| > 0 ==> r[|a|] == b[0] && r[|a| + 1..|r| - |c|] == b[1..])
  {
  }

  /** `plan[currentDay] || fallback`: the stored text unless it is missing or
      empty (the empty string is falsy). Negative days name no array index. */
  function TodayInstruction(plan: Plan, currentDay: int): (r: string)
    ensures currentDay >= 0 && currentDay in plan && plan[currentDay] != "" ==> r == plan[currentDay]
    ensures !(currentDay >= 0 && currentDay in plan && plan[currentDay] != "") ==> r == Fallback(currentDay)
  {
    if currentDay >= 0 && currentDay in plan && plan[currentDay] != "" then plan[currentDay]
    else Fallback(currentDay)
  }

  /** The component: a prompt when there is no surgery record, the plan otherwise. */
  function Render(surgery: Option<SurgeryForm.SurgeryRecord>, currentDay: int, plans: PlanTable): (v: View)
    ensures surgery.None? <==> v.EnterDetailsPrompt?
    ensures surgery.Some? ==>
      var plan := PlanFor(plans, surgery.value.surgeryType);
      v == PlanView(TodayInstruction(plan, currentDay), Milestones(plan, currentDay))
  {
    match surgery
    case None => EnterDetailsPrompt
    case Some(record) =>
      var plan := PlanFor(plans, record.surgeryType);
      PlanView(TodayInstruction(plan, currentDay), Milestones(plan, currentDay))
  }

  // ---------------------------------------------------------------------------
  // Properties

  /** Every instruction of a well-formed plan names its own day: "Day d:". */
  predicate WellFormedPlan(plan: Plan) {
    forall d :: d in plan ==> StartsWithDay(plan[d], d)
  }

  predicate StartsWithDay(text: string, d: nat) {
    "Day " + NatToString(d) + ":" <= text
  }

  /** Whichever branch is taken, a well-formed plan's instruction for a day
      that is not negative starts with "Day d:". */
  lemma TodayInstructionNamesDay(plan: Plan, currentDay: nat)
    requires WellFormedPlan(plan)
    ensures StartsWithDay(TodayInstruction(plan, currentDay), currentDay)
  {
    if !(currentDay in plan && plan[currentDay] != "") {
      var head := "Day " + NatToString(currentDay);
      assert IntToString(currentDay) == NatToString(currentDay);
      assert FallbackSuffix == ":" + FallbackSuffix[1..];
      assert Fallback(currentDay) == head + FallbackSuffix;
      assert head + FallbackSuffix == (head + ":") + FallbackSuffix[1..];
    }
  }

  /** Without a surgery record only the prompt is produced. */
  lemma NoRecordGivesPrompt(currentDay: int, plans: PlanTable)
    ensures Render(None, currentDay, plans) == EnterDetailsPrompt
  {
  }

  /** An unknown surgery type: generic instruction, no milestones. */
  lemma UnknownTypeView(record: SurgeryForm.SurgeryRecord, currentDay: int, plans: PlanTable)
    requires record.surgeryType !in plans
    ensures Render(Some(record), currentDay, plans) == PlanView(Fallback(currentDay), [])
  {
    EmptyPlanNoMilestones(currentDay);
  }

  lemma EmptyPlanNoMilestones(currentDay: int)
    ensures Milestones(map[], currentDay) == []
  {
  }

  /** At or past the plan's last day there is nothing left to look forward to. */
  lemma NoMilestonesAfterLastDay(plan: Plan, currentDay: int)
    requires forall d :: d in plan ==> d <= currentDay
    ensures Milestones(plan, currentDay) == []
  {
    HeadIn(Milestones(plan, currentDay));
  }

  /** Milestones are exactly the entries after today: a strictly ascending
      list is fixed by its set of entries, so these properties determine it. */
  lemma MilestonesUnique(plan: Plan, currentDay: int, r: seq<PlanEntry>)
    requires StrictlyAscending(r)
    requires forall e :: e in r ==> e.day > currentDay && e.day in plan && plan[e.day] == e.instruction
    requires forall d :: d in plan && d > currentDay ==> PlanEntry(d, plan[d]) in r
    ensures r == Milestones(plan, currentDay)
  {
    var m := Milestones(plan, currentDay);
    forall e | e in m ensures e in r {
      assert e == PlanEntry(e.day, plan[e.day]);
    }
    forall e | e in r ensures e in m {
      assert e == PlanEntry(e.day, plan[e.day]);
    }
    AscendingSameEntries(r, m);
  }

  lemma HeadIn(s: seq<PlanEntry>)
    ensures s != [] ==> s[0] in s
  {
  }

  lemma {:induction false} AscendingSameEntries(a: seq<PlanEntry>, b: seq<PlanEntry>)
    requires StrictlyAscending(a) && StrictlyAscending(b)
    requires forall e :: e in a <==> e in b
    ensures a == b
  {
    HeadIn(a);
    HeadIn(b);
    if a != [] && b != [] {
      assert a[0] == b[0] by {
        assert a[0] in b && b[0] in a;
        var j :| 0 <= j < |b| && b[j] == a[0];
        var i :| 0 <= i < |a| && a[i] == b[0];
        assert b[0].day <= b[j].day;
        assert a[0].day <= a[i].day;
      }
      forall e ensures e in a[1..] <==> e in b[1..] {
        if e in a[1..] {
          var k :| 1 <= k < |a| && a[k] == e;
          assert a[0].day < e.day;
          assert e in b;
          assert e != b[0];
        }
        if e in b[1..] {
          var k :| 1 <= k < |b| && b[k] == e;
          assert b[0].day < e.day;
          assert e in a;
          assert e != a[0];
        }
      }
      AscendingSameEntries(a[1..], b[1..]);
      assert a == [a[0]] + a[1..];
      assert b == [b[0]] + b[1..];
    }
  }
}
