/** What the weekly reminder email says (app/services/email_service.py):
    for every live plan its weekly target, the weeks elapsed, how far behind
    it is and by how much; across plans the largest number of weeks behind
    and the summed catch-up amount; and the motivational message and
    catch-up suggestion chosen from them. Message text, rounding and
    formatting are not modelled: messages are tags. */
module ReminderContent {
  import opened Basics
  import opened SavingsModels
  import opened SavingsSchemas

  /** One entry of `plan_summaries`. */
  datatype PlanSummary = PlanSummary(
    name: string,
    targetAmount: real,
    savedAmount: real,
    weeklyTarget: real,
    progressPercentage: real,
    remainingAmount: real,
    weeksBehind: int,
    behindAmount: real,
    onTrack: bool,
    weeksElapsed: int,
    expectedSaved: real)

  /** The motivational messages of _get_enhanced_motivation_message. */
  datatype Motivation =
    | FinalStretch      // on track, progress at least 80
    | PastHalfway       // on track, progress at least 50
    | StayingConsistent // on track, progress at least 25
    | PerfectStart      // on track, progress below 25
    | OneWeekBehind
    | CoupleOfWeeksBehind
    | NeverTooLate      // three or more weeks behind
    | KeepBuilding      // the final else branch

  /** The messages of the legacy _get_motivation_message. */
  datatype LegacyMotivation = CrushingGoals | GreatProgress | BuildingHabits | FirstStep

  /** The catch-up suggestions, with the amounts they quote. */
  datatype CatchUpSuggestion =
    | RegularSaving(amount: real)
    | HalfCatchUp(amount: real, extra: real)
    | GradualCatchUp(amount: real)
    | SmallSteps(amount: real)
    | SaveWhatYouCan(amount: real)

  datatype ReminderContext = ReminderContext(
    userName: string,
    totalPlans: nat,
    totalTargetThisWeek: real,
    totalSavedAmount: real,
    totalTargetAmount: real,
    overallProgress: real,
    planSummaries: seq<PlanSummary>,
    motivation: Motivation,
    catchUpSuggestion: CatchUpSuggestion,
    totalWeeksBehind: int,
    catchUpAmount: real,
    isBehindSchedule: bool)

  /** The statistics argument as it can arrive: a mapping, which the code
      reads with `.get(key, 0)`, or the SavingPlanStats record the service
      returns, which has no `.get`. */
  datatype StatsArg = StatsMapping(m: map<string, real>) | StatsRecord(s: SavingPlanStats)

  datatype ContextFault = StatsAttributeError  // `.get` called on a SavingPlanStats record

  /** `max` and `min` on the float amounts. `Basics.Max` and `Basics.Min`
      are on `int`, and Dafny has no ordering bound for a type parameter, so
      `real` needs its own pair. */
  function RealMax(x: real, y: real): real
  {
    if x < y then y else x
  }

  function RealMin(x: real, y: real): real
  {
    if x < y then x else y
  }

  /** The plan's amount spread evenly over its weeks, or 0 for no weeks. */
  function WeeklyTarget(p: SavingPlan): (r: real)
    ensures p.numberOfWeeks > 0 ==> r * p.numberOfWeeks as real == p.amount
    ensures p.numberOfWeeks <= 0 ==> r == 0.0
  {
    if p.numberOfWeeks > 0 then p.amount / p.numberOfWeeks as real else 0.0
  }

  /** _calculate_weeks_elapsed: 0 without a start date, otherwise the full
      weeks between the calendar days of `start` and `now`, but at least 1. */
  function EmailWeeksElapsed(start: Option<Instant>, now: Instant): (w: nat)
    ensures start.None? ==> w == 0
    ensures start.Some? ==> w >= 1
    ensures start.Some? && now / SecondsPerDay - start.value / SecondsPerDay >= 7 ==>
      var days := now / SecondsPerDay - start.value / SecondsPerDay;
      7 * w <= days < 7 * (w + 1)
    ensures start.Some? && now / SecondsPerDay - start.value / SecondsPerDay < 7 ==> w == 1
  {
    match start
    case None => 0
    case Some(t) => Max(1, (now / SecondsPerDay - t / SecondsPerDay) / 7)
  }

  /** The summary of one plan seen at `now`. */
  function PlanSummaryOf(p: SavingPlan, now: Instant): PlanSummary
  {
    var target := WeeklyTarget(p);
    var progress := if p.amount > 0.0 then p.totalSavedAmount / p.amount * 100.0 else 0.0;
    var elapsed := EmailWeeksElapsed(Some(p.dateCreated), now);
    var expected := target * elapsed as real;
    var behind := RealMax(0.0, expected - p.totalSavedAmount);
    var weeksBehind := if target > 0.0 then (behind / target).Floor else 0;
    PlanSummary(p.savingsName, p.amount, p.totalSavedAmount, target, progress, p.amount - p.totalSavedAmount,
                weeksBehind, behind, weeksBehind == 0, elapsed, expected)
  }

  lemma FloorBounds(x: real, y: real)
    requires x >= 0.0 && y > 0.0
    ensures (x / y).Floor >= 0
    ensures var f := (x / y).Floor as real; f * y <= x < (f + 1.0) * y
  {
    var q := x / y;
    assert q * y == x;
    var f := q.Floor as real;
    assert f <= q < f + 1.0;
    ScaleLe(f, q, y);
    ScaleLt(q, f + 1.0, y);
    assert x < (f + 1.0) * y;
    assert f == (x / y).Floor as real;
  }

  lemma ScaleLe(a: real, b: real, y: real)
    requires a <= b && y > 0.0
    ensures a * y <= b * y
  {
    assert b * y - a * y == (b - a) * y;
  }

  lemma ScaleLt(a: real, b: real, y: real)
    requires a < b && y > 0.0
    ensures a * y < b * y
  {
    assert b * y - a * y == (b - a) * y;
  }

  /** The lag of one plan: the amount behind is the shortfall against the
      expected savings, or 0 when there is none; the weeks behind are how
      many whole weekly targets fit into it; and the plan is on track
      exactly when that is 0, that is, when it is less than one weekly
      target behind. At least one week always counts as elapsed. */
  lemma PlanLag(p: SavingPlan, now: Instant)
    ensures var s := PlanSummaryOf(p, now);
      && s.weeksElapsed >= 1
      && s.expectedSaved == s.weeklyTarget * s.weeksElapsed as real
      && s.behindAmount >= 0.0
      && s.behindAmount >= s.expectedSaved - p.totalSavedAmount
      && (s.behindAmount == 0.0 || s.behindAmount == s.expectedSaved - p.totalSavedAmount)
      && s.weeksBehind >= 0
      && (s.weeklyTarget > 0.0 ==>
            s.weeksBehind as real * s.weeklyTarget <= s.behindAmount < (s.weeksBehind as real + 1.0) * s.weeklyTarget)
      && (s.weeklyTarget <= 0.0 ==> s.weeksBehind == 0)
      && (s.onTrack <==> s.weeksBehind == 0)
      && (s.weeklyTarget > 0.0 ==> (s.onTrack <==> s.behindAmount < s.weeklyTarget))
  {
    var s := PlanSummaryOf(p, now);
    if s.weeklyTarget > 0.0 {
      FloorBounds(s.behindAmount, s.weeklyTarget);
      WholeTargetsBehind(s.behindAmount, s.weeklyTarget, s.weeksBehind);
    }
  }

  /** `w` whole targets fit into `b` exactly; it is 0 exactly when `b` is
      less than one target. */
  lemma WholeTargetsBehind(b: real, t: real, w: int)
    requires t > 0.0 && w >= 0
    requires w as real * t <= b < (w as real + 1.0) * t
    ensures w == 0 <==> b < t
  {
    if w >= 1 {
      ScaleLe(1.0, w as real, t);
    }
  }

  /** A plan whose saved amount keeps pace with its weekly target is on
      track and owes nothing. */
  lemma SavedOnScheduleIsOnTrack(p: SavingPlan, now: Instant)
    requires PlanSummaryOf(p, now).expectedSaved <= p.totalSavedAmount
    ensures PlanSummaryOf(p, now).behindAmount == 0.0
    ensures PlanSummaryOf(p, now).onTrack
  {
    var s := PlanSummaryOf(p, now);
    if s.weeklyTarget > 0.0 {
      FloorBounds(s.behindAmount, s.weeklyTarget);
    }
  }

  predicate LivePlan(p: SavingPlan)
  {
    p.deletedAt.None?
  }

  function LivePlanQuery(): SavingPlan -> bool
  {
    (p: SavingPlan) => LivePlan(p)
  }

  /** The plans the context is built from. */
  function ActivePlans(plans: seq<SavingPlan>): seq<SavingPlan>
  {
    Filter(plans, LivePlanQuery())
  }

  function SummariesOf(ps: seq<SavingPlan>, now: Instant): (r: seq<PlanSummary>)
    ensures |r| == |ps|
    ensures forall k :: 0 <= k < |ps| ==> r[k] == PlanSummaryOf(ps[k], now)
  {
    seq(|ps|, k requires 0 <= k < |ps| => PlanSummaryOf(ps[k], now))
  }

  function TargetOf(): PlanSummary -> real
  {
    (s: PlanSummary) => s.weeklyTarget
  }

  function BehindOf(): PlanSummary -> real
  {
    (s: PlanSummary) => s.behindAmount
  }

  /** The running maximum of the weeks behind, starting from 0. */
  function MaxWeeksBehind(ss: seq<PlanSummary>): int
  {
    if ss == [] then 0 else Max(MaxWeeksBehind(ss[..|ss| - 1]), ss[|ss| - 1].weeksBehind)
  }

  /** `total_weeks_behind` is the largest weeks-behind of any plan, not
      their sum: it bounds every plan's value, and it is 0 or some plan's
      value. */
  lemma {:induction false} MaxWeeksBehindIsMaximum(ss: seq<PlanSummary>)
    ensures MaxWeeksBehind(ss) >= 0
    ensures forall k :: 0 <= k < |ss| ==> ss[k].weeksBehind <= MaxWeeksBehind(ss)
    ensures MaxWeeksBehind(ss) == 0 || exists k :: 0 <= k < |ss| && ss[k].weeksBehind == MaxWeeksBehind(ss)
  {
    if ss != [] {
      var t := ss[..|ss| - 1];
      MaxWeeksBehindIsMaximum(t);
      assert forall k :: 0 <= k < |t| ==> t[k] == ss[k];
      if MaxWeeksBehind(ss) != 0 && MaxWeeksBehind(ss) != ss[|ss| - 1].weeksBehind {
        var k :| 0 <= k < |t| && t[k].weeksBehind == MaxWeeksBehind(t);
        assert ss[k].weeksBehind == MaxWeeksBehind(ss);
      }
    }
  }

  /** The catch-up amount is the sum of the plans' behind amounts: never
      negative, at least any one plan's, and 0 exactly when no plan is
      behind by any amount. */
  lemma {:induction false} CatchUpIsSumOfShortfalls(ps: seq<SavingPlan>, now: Instant)
    ensures var ss := SummariesOf(ps, now);
      && SumOf(ss, BehindOf()) >= 0.0
      && (forall k :: 0 <= k < |ss| ==> ss[k].behindAmount <= SumOf(ss, BehindOf()))
      && (SumOf(ss, BehindOf()) == 0.0 <==> forall k :: 0 <= k < |ss| ==> ss[k].behindAmount == 0.0)
  {
    if ps != [] {
      var t := ps[..|ps| - 1];
      CatchUpIsSumOfShortfalls(t, now);
      var ss := SummariesOf(ps, now);
      assert ss[..|ss| - 1] == SummariesOf(t, now);
      PlanLag(ps[|ps| - 1], now);
      forall k | 0 <= k < |t| ensures ss[k].behindAmount >= 0.0 {
        PlanLag(ps[k], now);
      }
    }
  }

  /** _get_enhanced_motivation_message. */
  function EnhancedMotivation(progress: real, weeksBehind: int, totalPlans: int): Motivation
  {
    if weeksBehind == 0 then
      if progress >= 80.0 then FinalStretch
      else if progress >= 50.0 then PastHalfway
      else if progress >= 25.0 then StayingConsistent
      else PerfectStart
    else if weeksBehind == 1 then OneWeekBehind
    else if weeksBehind == 2 then CoupleOfWeeksBehind
    else if weeksBehind >= 3 then NeverTooLate
    else KeepBuilding
  }

  /** _get_motivation_message. */
  function LegacyMotivationOf(progress: real): LegacyMotivation
  {
    if progress >= 80.0 then CrushingGoals
    else if progress >= 50.0 then GreatProgress
    else if progress >= 25.0 then BuildingHabits
    else FirstStep
  }

  /** Which progress band of 80 / 50 / 25 a percentage falls in. */
  function ProgressTier(progress: real): (t: nat)
    ensures t <= 3
    ensures t == 3 <==> progress >= 80.0
    ensures t >= 2 <==> progress >= 50.0
    ensures t >= 1 <==> progress >= 25.0
  {
    if progress >= 80.0 then 3 else if progress >= 50.0 then 2 else if progress >= 25.0 then 1 else 0
  }

  /** The final else is unreachable for a non-negative count; when behind,
      the message depends on the weeks behind alone; on track, it depends
      on the progress band alone, the same bands the legacy message uses. */
  lemma MotivationTiers(progress: real, weeksBehind: int, totalPlans: int, otherProgress: real, otherPlans: int)
    ensures weeksBehind >= 0 ==> EnhancedMotivation(progress, weeksBehind, totalPlans) != KeepBuilding
    ensures weeksBehind != 0 ==>
      EnhancedMotivation(progress, weeksBehind, totalPlans) == EnhancedMotivation(otherProgress, weeksBehind, otherPlans)
    ensures weeksBehind == 0 ==>
      (EnhancedMotivation(progress, 0, totalPlans) == EnhancedMotivation(otherProgress, 0, otherPlans) <==>
       ProgressTier(progress) == ProgressTier(otherProgress))
    ensures LegacyMotivationOf(progress) == LegacyMotivationOf(otherProgress)
      <==> ProgressTier(progress) == ProgressTier(otherProgress)
  {
  }

  /** _get_catch_up_suggestion for the summed weekly target. */
  function CatchUpSuggestionOf(weeksBehind: int, catchUp: real, target: real): CatchUpSuggestion
  {
    if weeksBehind == 0 then RegularSaving(target)
    else if weeksBehind == 1 then HalfCatchUp(target + catchUp * 0.5, catchUp * 0.5)
    else if weeksBehind == 2 then GradualCatchUp(target + catchUp * 0.3)
    else if weeksBehind >= 3 then SmallSteps(target + RealMin(target * 0.5, catchUp * 0.2))
    else SaveWhatYouCan(target * 0.5)
  }

  /** The suggested amount, whatever the tier. */
  function SuggestedAmount(c: CatchUpSuggestion): real
  {
    c.amount
  }

  /** On track the suggestion is the plain target; one week behind adds
      half the catch-up, two weeks 30 percent of it; three or more add at
      most half the weekly target and at most a fifth of the catch-up. With
      non-negative inputs no suggestion is below the target. */
  lemma CatchUpTiers(weeksBehind: int, catchUp: real, target: real)
    ensures var c := CatchUpSuggestionOf(weeksBehind, catchUp, target);
      && (weeksBehind == 0 ==> SuggestedAmount(c) == target)
      && (weeksBehind == 1 ==> SuggestedAmount(c) - target == catchUp / 2.0 && c.extra == catchUp / 2.0)
      && (weeksBehind == 2 ==> SuggestedAmount(c) - target == catchUp * 3.0 / 10.0)
      && (weeksBehind >= 3 ==>
            && SuggestedAmount(c) - target <= target / 2.0
            && SuggestedAmount(c) - target <= catchUp / 5.0
            && (SuggestedAmount(c) - target == target / 2.0 || SuggestedAmount(c) - target == catchUp / 5.0))
      && (weeksBehind >= 0 && catchUp >= 0.0 && target >= 0.0 ==> SuggestedAmount(c) >= target)
      && (weeksBehind >= 0 ==> !c.SaveWhatYouCan?)
  {
  }

  /** The context built from the user's plans and the three statistics the
      template shows. */
  function ContextOf(firstName: string, plans: seq<SavingPlan>, now: Instant,
                     overallProgress: real, totalSaved: real, totalTarget: real): ReminderContext
  {
    var active := ActivePlans(plans);
    var ss := SummariesOf(active, now);
    var weeklyTotal := SumOf(ss, TargetOf());
    var maxBehind := MaxWeeksBehind(ss);
    var catchUp := SumOf(ss, BehindOf());
    ReminderContext(
      if firstName != "" then firstName else "Saver",
      |active|, weeklyTotal, totalSaved, totalTarget, overallProgress, ss,
      EnhancedMotivation(overallProgress, maxBehind, |active|),
      CatchUpSuggestionOf(maxBehind, catchUp, weeklyTotal),
      maxBehind, catchUp, maxBehind > 0)
  }

  /** The accumulator loop of _prepare_reminder_context over the live plans:
      the weekly targets are summed, the weeks behind maximised, the behind
      amounts summed and the summaries appended in plan order. */
  method SummarizePlans(plans: seq<SavingPlan>, now: Instant)
    returns (summaries: seq<PlanSummary>, totalTarget: real, totalWeeksBehind: int, catchUp: real)
    ensures summaries == SummariesOf(ActivePlans(plans), now)
    ensures totalTarget == SumOf(summaries, TargetOf())
    ensures totalWeeksBehind == MaxWeeksBehind(summaries)
    ensures catchUp == SumOf(summaries, BehindOf())
  {
    var active := ActivePlans(plans);
    summaries := [];
    totalTarget := 0.0;
    totalWeeksBehind := 0;
    catchUp := 0.0;
    var k := 0;
    while k < |active|
      invariant 0 <= k <= |active|
      invariant summaries == SummariesOf(active[..k], now)
      invariant totalTarget == SumOf(summaries, TargetOf())
      invariant totalWeeksBehind == MaxWeeksBehind(summaries)
      invariant catchUp == SumOf(summaries, BehindOf())
    {
      var s := PlanSummaryOf(active[k], now);
      totalTarget := totalTarget + s.weeklyTarget;
      totalWeeksBehind := Max(totalWeeksBehind, s.weeksBehind);
      catchUp := catchUp + s.behindAmount;
      SumOfAppend(summaries, s, TargetOf());
      SumOfAppend(summaries, s, BehindOf());
      assert (summaries + [s])[..|summaries|] == summaries;
      assert SummariesOf(active[..k + 1], now) == summaries + [s];
      summaries := summaries + [s];
      k := k + 1;
    }
    assert active[..k] == active;
  }

  /** _prepare_reminder_context as written: after the loop it reads the
      overall progress and totals with `.get`, which a SavingPlanStats
      record does not have. */
  function ReminderContextAsWritten(firstName: string, plans: seq<SavingPlan>, stats: StatsArg, now: Instant)
    : Result<ReminderContext, ContextFault>
  {
    match stats
    case StatsRecord(_) => Err(StatsAttributeError)
    case StatsMapping(m) =>
      Ok(ContextOf(firstName, plans, now, Get(m, "overall_progress_percentage"),
                   Get(m, "total_saved_amount"), Get(m, "total_target_amount")))
  }

  /** The same, as the loop the source runs. */
  method PrepareReminderContext(firstName: string, plans: seq<SavingPlan>, stats: StatsArg, now: Instant)
    returns (r: Result<ReminderContext, ContextFault>)
    ensures r == ReminderContextAsWritten(firstName, plans, stats, now)
  {
    var summaries, weeklyTotal, maxBehind, catchUp := SummarizePlans(plans, now);
    match stats
    case StatsRecord(_) =>
      r := Err(StatsAttributeError);
    case StatsMapping(m) =>
      var progress := Get(m, "overall_progress_percentage");
      var active := ActivePlans(plans);
      r := Ok(ReminderContext(
        if firstName != "" then firstName else "Saver",
        |active|, weeklyTotal, Get(m, "total_saved_amount"), Get(m, "total_target_amount"), progress,
        summaries,
        EnhancedMotivation(progress, maxBehind, |active|),
        CatchUpSuggestionOf(maxBehind, catchUp, weeklyTotal),
        maxBehind, catchUp, maxBehind > 0));
  }

  /** `mapping.get(key, 0)`. */
  function Get(m: map<string, real>, key: string): real
  {
    if key in m then m[key] else 0.0
  }

  /** The context the reminder evidently intends for the statistics record
      the service computes: its completion percentage and totals. */
  function ContextForStats(firstName: string, plans: seq<SavingPlan>, stats: SavingPlanStats, now: Instant)
    : ReminderContext
  {
    ContextOf(firstName, plans, now, stats.completionPercentage, stats.totalSavedAmount, stats.totalTargetAmount)
  }

  /** The context covers exactly the live plans, its weeks behind are the
      maximum over them, and the schedule flag is set exactly when some
      plan is a whole week or more behind. */
  lemma ContextCoversLivePlans(firstName: string, plans: seq<SavingPlan>, stats: SavingPlanStats, now: Instant)
    ensures var c := ContextForStats(firstName, plans, stats, now);
      && c.totalPlans == CountOf(plans, LivePlanQuery())
      && |c.planSummaries| == c.totalPlans
      && (forall k :: 0 <= k < |c.planSummaries| ==> c.planSummaries[k].weeksBehind <= c.totalWeeksBehind)
      && (c.isBehindSchedule <==> exists k :: 0 <= k < |c.planSummaries| && !c.planSummaries[k].onTrack)
  {
    var active := ActivePlans(plans);
    var ss := SummariesOf(active, now);
    MaxWeeksBehindIsMaximum(ss);
    BehindIffSomePlanOffTrack(active, now);
    var c := ContextForStats(firstName, plans, stats, now);
    assert c.planSummaries == ss && c.totalWeeksBehind == MaxWeeksBehind(ss);
  }

  /** The message is never the fallback, the catch-up amount is never
      negative, and the greeting always has a name. */
  lemma ContextMessages(firstName: string, plans: seq<SavingPlan>, stats: SavingPlanStats, now: Instant)
    ensures var c := ContextForStats(firstName, plans, stats, now);
      && c.motivation != KeepBuilding
      && !c.catchUpSuggestion.SaveWhatYouCan?
      && c.catchUpAmount >= 0.0
      && c.userName != ""
  {
    var active := ActivePlans(plans);
    var ss := SummariesOf(active, now);
    MaxWeeksBehindIsMaximum(ss);
    CatchUpIsSumOfShortfalls(active, now);
  }

  /** Some plan is off track exactly when the largest weeks-behind is
      positive. */
  lemma BehindIffSomePlanOffTrack(ps: seq<SavingPlan>, now: Instant)
    ensures var ss := SummariesOf(ps, now);
      MaxWeeksBehind(ss) > 0 <==> exists k :: 0 <= k < |ss| && !ss[k].onTrack
  {
    var ss := SummariesOf(ps, now);
    MaxWeeksBehindIsMaximum(ss);
    forall k | 0 <= k < |ss| ensures ss[k].weeksBehind >= 0 && (ss[k].onTrack <==> ss[k].weeksBehind == 0) {
      PlanLag(ps[k], now);
    }
    if MaxWeeksBehind(ss) > 0 {
      var k :| 0 <= k < |ss| && ss[k].weeksBehind == MaxWeeksBehind(ss);
      assert !ss[k].onTrack;
    }
  }

  /** The code as written never builds a context from the statistics record
      the reminder service passes, while a mapping carrying that record's
      percentage and totals under the keys it reads yields the intended
      context. */
  lemma RecordStatsAlwaysFail(firstName: string, plans: seq<SavingPlan>, stats: SavingPlanStats, now: Instant)
    ensures ReminderContextAsWritten(firstName, plans, StatsRecord(stats), now) == Err(StatsAttributeError)
    ensures ReminderContextAsWritten(firstName, plans, StatsMapping(map[
        "overall_progress_percentage" := stats.completionPercentage,
        "total_saved_amount" := stats.totalSavedAmount,
        "total_target_amount" := stats.totalTargetAmount]), now)
      == Ok(ContextForStats(firstName, plans, stats, now))
  {
  }

  /** Three plans seen on day 21: 500 over 10 weeks with 50 saved, created
      on day 7; 400 over 20 weeks with 20 saved, created on day 0; 300 over
      12 weeks with 25 saved, created on day 14. They are 1, 2 and 0 weeks
      behind, so the reminder reports 2 weeks behind and 90 to catch up. */
  lemma ReminderExample(firstName: string, stats: SavingPlanStats)
    ensures var c := ContextForStats(firstName, [
                       SavingPlan(1, "u", "a", 500.0, 10, 50.0, 7 * SecondsPerDay, None),
                       SavingPlan(2, "u", "b", 400.0, 20, 20.0, 0, None),
                       SavingPlan(3, "u", "c", 300.0, 12, 25.0, 14 * SecondsPerDay, None)],
                     stats, 21 * SecondsPerDay);
      && c.totalWeeksBehind == 2
      && c.catchUpAmount == 90.0
      && c.totalTargetThisWeek == 95.0
      && c.isBehindSchedule
      && c.catchUpSuggestion == GradualCatchUp(95.0 + 27.0)
  {
    var now := 21 * SecondsPerDay;
    var plans := [SavingPlan(1, "u", "a", 500.0, 10, 50.0, 7 * SecondsPerDay, None),
                  SavingPlan(2, "u", "b", 400.0, 20, 20.0, 0, None),
                  SavingPlan(3, "u", "c", 300.0, 12, 25.0, 14 * SecondsPerDay, None)];
    assert plans[..2][..1] == plans[..1];
    assert ActivePlans(plans[..1]) == plans[..1];
    assert ActivePlans(plans[..2]) == plans[..2];
    assert ActivePlans(plans) == plans;
    assert EmailWeeksElapsed(Some(7 * SecondsPerDay), now) == 2;
    assert EmailWeeksElapsed(Some(0), now) == 3;
    assert EmailWeeksElapsed(Some(14 * SecondsPerDay), now) == 1;
    var s1 := PlanSummaryOf(plans[0], now);
    var s2 := PlanSummaryOf(plans[1], now);
    var s3 := PlanSummaryOf(plans[2], now);
    assert s1.weeklyTarget == 50.0 && s1.weeksElapsed == 2 && s1.behindAmount == 50.0;
    assert (50.0 / 50.0).Floor == 1;
    assert s2.weeklyTarget == 20.0 && s2.weeksElapsed == 3 && s2.behindAmount == 40.0;
    assert (40.0 / 20.0).Floor == 2;
    assert s3.weeklyTarget == 25.0 && s3.weeksElapsed == 1 && s3.behindAmount == 0.0;
    assert (0.0 / 25.0).Floor == 0;
    var ss := SummariesOf(plans, now);
    assert ss == [s1, s2, s3];
    assert ss[..2][..1] == ss[..1] && ss[..1][..0] == [];
    assert MaxWeeksBehind(ss[..1]) == 1;
    assert MaxWeeksBehind(ss[..2]) == 2;
    assert MaxWeeksBehind(ss) == 2;
    assert SumOf(ss[..1], BehindOf()) == 50.0;
    assert SumOf(ss[..2], BehindOf()) == 90.0;
    assert SumOf(ss, BehindOf()) == 90.0;
    assert SumOf(ss[..1], TargetOf()) == 50.0;
    assert SumOf(ss[..2], TargetOf()) == 70.0;
    assert SumOf(ss, TargetOf()) == 95.0;
  }
}
