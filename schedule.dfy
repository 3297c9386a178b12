/** The weekly schedule evaluator, get_plan_schedule_status
    (app/services/savings_service.py): how many full weeks have passed since
    the plan was created, how many of them should have been paid, how many
    weeks are marked as saved, and the resulting state. */
module Schedule {
  import opened Basics
  import opened SavingsModels
  import opened SavingsSchemas
  import opened Ranking
  import opened Ledger

  /** Why the evaluator raises instead of answering. */
  datatype ScheduleFault = TimedeltaAttributeError  // `datetime.timedelta` looked up on the datetime class

  /** Whole days from `start` to `now`, rounded down as `timedelta.days` is. */
  function DaysBetween(start: Instant, now: Instant): (d: int)
    ensures d * SecondsPerDay <= now - start < (d + 1) * SecondsPerDay
  {
    (now - start) / SecondsPerDay
  }

  /** Midnight (UTC) of the day holding `t`. */
  function StartOfDay(t: Instant): (r: Instant)
    ensures r % SecondsPerDay == 0
    ensures r <= t < r + SecondsPerDay
  {
    t - t % SecondsPerDay
  }

  /** `max(0, days // 7)`: the number of full weeks in `days`. */
  function WeeksElapsed(days: int): (w: nat)
    ensures days >= 0 ==> 7 * w <= days < 7 * (w + 1)
    ensures days < 7 ==> w == 0
  {
    Max(0, days / 7)
  }

  /** The day on which week `paid + 1` falls due: the plan's first midnight
      plus `paid + 1` whole weeks. */
  function DueDate(start: Instant, paid: nat): (r: Instant)
    ensures r - StartOfDay(start) == (paid + 1) * 7 * SecondsPerDay
  {
    StartOfDay(start) + (paid + 1) * 7 * SecondsPerDay
  }

  /** The classification the evaluator intends, for a plan created at
      `start` of `numberOfWeeks` weeks with `paid` weeks marked as saved, seen
      `days` whole days after creation. */
  function Classify(days: int, numberOfWeeks: int, paid: nat, start: Instant): ScheduleStatus
  {
    var elapsed := WeeksElapsed(days);
    var required := Min(elapsed, numberOfWeeks);
    var due := if paid < numberOfWeeks then Some(DueDate(start, paid)) else None;
    if paid >= numberOfWeeks then
      ScheduleStatus(Completed, elapsed, required, paid, 0, 0, None)
    else if paid >= required then
      var ahead := paid - required;
      if ahead > 0 then ScheduleStatus(Ahead, elapsed, required, paid, 0, ahead, due)
      else ScheduleStatus(OnTrack, elapsed, required, paid, 0, 0, due)
    else
      ScheduleStatus(Behind, elapsed, required, paid, required - paid, 0, due)
  }

  /** The evaluator as written: the behind branch builds its due date with
      `datetime.timedelta`, where `datetime` is the class, not the module, so
      that branch raises before a status is returned. */
  function ClassifyAsWritten(days: int, numberOfWeeks: int, paid: nat, start: Instant)
    : Result<ScheduleStatus, ScheduleFault>
  {
    var elapsed := WeeksElapsed(days);
    var required := Min(elapsed, numberOfWeeks);
    var due := if paid < numberOfWeeks then Some(DueDate(start, paid)) else None;
    if paid >= numberOfWeeks then
      Ok(ScheduleStatus(Completed, elapsed, required, paid, 0, 0, None))
    else if paid >= required then
      var ahead := paid - required;
      if ahead > 0 then Ok(ScheduleStatus(Ahead, elapsed, required, paid, 0, ahead, due))
      else Ok(ScheduleStatus(OnTrack, elapsed, required, paid, 0, 0, due))
    else if paid < numberOfWeeks then
      Err(TimedeltaAttributeError)
    else
      Ok(ScheduleStatus(Behind, elapsed, required, paid, required - paid, 0, None))
  }

  /** The week counts: elapsed is the number of full weeks since creation,
      required is elapsed capped at the plan's duration, and paid is passed
      through. */
  lemma ClassifyCounts(days: int, numberOfWeeks: int, paid: nat, start: Instant)
    ensures var s := Classify(days, numberOfWeeks, paid, start);
      && (days >= 0 ==> 7 * s.weeksElapsed <= days < 7 * (s.weeksElapsed + 1))
      && (days < 7 ==> s.weeksElapsed == 0)
      && s.weeksRequired <= s.weeksElapsed && s.weeksRequired <= numberOfWeeks
      && (s.weeksRequired == s.weeksElapsed || s.weeksRequired == numberOfWeeks)
      && s.weeksPaid == paid
  {
  }

  /** Which state is reported, as a function of paid against duration and
      against the weeks required so far. */
  lemma ClassifyStates(days: int, numberOfWeeks: int, paid: nat, start: Instant)
    ensures var s := Classify(days, numberOfWeeks, paid, start);
      && (s.status == Completed <==> paid >= numberOfWeeks)
      && (s.status == Ahead <==> paid < numberOfWeeks && paid > s.weeksRequired)
      && (s.status == OnTrack <==> paid < numberOfWeeks && paid == s.weeksRequired)
      && (s.status == Behind <==> paid < s.weeksRequired)
      && StatusName(s.status) == (if paid >= numberOfWeeks then "completed"
                                  else if paid > s.weeksRequired then "ahead"
                                  else if paid == s.weeksRequired then "on-track"
                                  else "behind")
  {
  }

  /** A completed plan is neither behind nor ahead and has no due date; for
      any other plan the paid weeks, plus the weeks behind, minus the weeks
      ahead, are exactly the weeks required, at most one of the two is
      non-zero, and the next payment is due `paid + 1` weeks after the day of
      creation. */
  lemma ClassifyBalance(days: int, numberOfWeeks: int, paid: nat, start: Instant)
    ensures var s := Classify(days, numberOfWeeks, paid, start);
      && (s.status == Completed ==> s.weeksBehind == 0 && s.weeksAhead == 0 && s.nextDueDate.None?)
      && (s.status != Completed ==>
            && s.weeksPaid + s.weeksBehind - s.weeksAhead == s.weeksRequired
            && (s.weeksBehind == 0 || s.weeksAhead == 0)
            && s.nextDueDate == Some(StartOfDay(start) + (paid + 1) * 7 * SecondsPerDay))
  {
  }

  /** For a plan of non-negative duration every count the evaluator reports
      meets the bounds of the ScheduleStatus schema. */
  lemma ClassifyValid(days: int, numberOfWeeks: int, paid: nat, start: Instant)
    requires numberOfWeeks >= 0
    ensures ValidScheduleStatus(Classify(days, numberOfWeeks, paid, start))
  {
  }

  /** Orders the states from worst to best. */
  function StateRank(s: ScheduleState): (r: nat)
    ensures r <= 3
    ensures r == 3 <==> s == Completed
    ensures r == 0 <==> s == Behind
  {
    match s
    case Behind => 0
    case OnTrack => 1
    case Ahead => 2
    case Completed => 3
  }

  /** Marking one more week as saved never makes the state worse, and never
      adds a week behind. */
  lemma PayingMoreNeverHurts(days: int, numberOfWeeks: int, paid: nat, start: Instant)
    ensures var before := Classify(days, numberOfWeeks, paid, start);
      var after := Classify(days, numberOfWeeks, paid + 1, start);
      && StateRank(before.status) <= StateRank(after.status)
      && after.weeksBehind <= before.weeksBehind
  {
  }

  /** As days pass with nothing paid, the weeks elapsed grow and a plan that
      is not completed only falls further behind. */
  lemma WaitingNeverHelps(days: int, later: int, numberOfWeeks: int, paid: nat, start: Instant)
    requires days <= later
    ensures var before := Classify(days, numberOfWeeks, paid, start);
      var after := Classify(later, numberOfWeeks, paid, start);
      && before.weeksElapsed <= after.weeksElapsed
      && StateRank(after.status) <= StateRank(before.status)
      && before.weeksBehind <= after.weeksBehind
      && after.weeksAhead <= before.weeksAhead
  {
  }

  /** The code as written agrees with the intended classification exactly
      when the plan is not behind, and raises exactly when it is. */
  lemma AsWrittenRaisesIffBehind(days: int, numberOfWeeks: int, paid: nat, start: Instant)
    ensures var r := ClassifyAsWritten(days, numberOfWeeks, paid, start);
      && (r.Err? <==> Classify(days, numberOfWeeks, paid, start).status == Behind)
      && (r.Ok? ==> r.value == Classify(days, numberOfWeeks, paid, start))
  {
  }

  /** A ten-week plan seen 21 days after creation with one week paid is two
      weeks behind; the code as written raises on it. */
  lemma BehindPlanExample()
    ensures Classify(21, 10, 1, 0) == ScheduleStatus(Behind, 3, 3, 1, 2, 0, Some(2 * 7 * SecondsPerDay))
    ensures ClassifyAsWritten(21, 10, 1, 0) == Err(TimedeltaAttributeError)
  {
  }

  /** get_plan_schedule_status: None when the plan is not the user's live
      plan; otherwise the classification of its saved weeks at `now`. Every
      saved, live amount of the plan counts as a paid week. */
  function PlanScheduleStatus(plans: seq<SavingPlan>, a: seq<WeeklyAmount>, planId: int, userId: string, now: Instant)
    : Option<ScheduleStatus>
  {
    match FindActivePlan(plans, planId, userId)
    case None => None
    case Some(p) =>
      var plan := plans[p];
      Some(Classify(DaysBetween(plan.dateCreated, now), plan.numberOfWeeks, SavedCount(a, planId), plan.dateCreated))
  }

  /** The same operation as written: it raises for a plan that is behind. */
  function PlanScheduleStatusAsWritten(plans: seq<SavingPlan>, a: seq<WeeklyAmount>, planId: int, userId: string,
                                       now: Instant): Result<Option<ScheduleStatus>, ScheduleFault>
  {
    match FindActivePlan(plans, planId, userId)
    case None => Ok(None)
    case Some(p) =>
      var plan := plans[p];
      match ClassifyAsWritten(DaysBetween(plan.dateCreated, now), plan.numberOfWeeks, SavedCount(a, planId),
                              plan.dateCreated)
      case Ok(s) => Ok(Some(s))
      case Err(e) => Err(e)
  }

  /** The report exists exactly for the user's live plans; it counts the
      plan's saved weeks, its state is completed exactly when they reach the
      duration, and under the plan's constraints it meets the schema. */
  lemma PlanScheduleStatusFacts(plans: seq<SavingPlan>, a: seq<WeeklyAmount>, planId: int, userId: string, now: Instant)
    requires forall p :: 0 <= p < |plans| ==> PlanConstraints(plans[p])
    ensures var r := PlanScheduleStatus(plans, a, planId, userId, now);
      && (r.None? <==> FindActivePlan(plans, planId, userId).None?)
      && (r.Some? ==>
            var plan := plans[FindActivePlan(plans, planId, userId).value];
            && ValidScheduleStatus(r.value)
            && r.value.weeksPaid == SavedCount(a, planId)
            && (r.value.status == Completed <==> SavedCount(a, planId) >= plan.numberOfWeeks)
            && r.value.weeksRequired <= plan.numberOfWeeks)
  {
    match FindActivePlan(plans, planId, userId)
    case None =>
    case Some(p) =>
      var plan := plans[p];
      var days := DaysBetween(plan.dateCreated, now);
      ClassifyValid(days, plan.numberOfWeeks, SavedCount(a, planId), plan.dateCreated);
      ClassifyStates(days, plan.numberOfWeeks, SavedCount(a, planId), plan.dateCreated);
  }

  /** The code as written answers, and agrees with the intended report,
      exactly when the plan is missing or not behind. */
  lemma PlanScheduleAsWrittenRaisesIffBehind(plans: seq<SavingPlan>, a: seq<WeeklyAmount>, planId: int, userId: string,
                                             now: Instant)
    ensures var r := PlanScheduleStatusAsWritten(plans, a, planId, userId, now);
      var s := PlanScheduleStatus(plans, a, planId, userId, now);
      && (r.Err? <==> s.Some? && s.value.status == Behind)
      && (r.Ok? ==> r.value == s)
  {
    match FindActivePlan(plans, planId, userId)
    case None =>
    case Some(p) =>
      var plan := plans[p];
      AsWrittenRaisesIffBehind(DaysBetween(plan.dateCreated, now), plan.numberOfWeeks, SavedCount(a, planId),
                               plan.dateCreated);
  }
}
