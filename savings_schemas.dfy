/** The request and response shapes of the savings API
    (app/schemas/savings.py) and the field bounds their validation enforces.
    A request that fails validation is answered 422 before any service code
    runs, so the service models take validated requests. */
module SavingsSchemas {
  import opened Basics

  /** One weekly amount sent with a new plan; `selected` defaults to false. */
  datatype WeeklyAmountCreate = WeeklyAmountCreate(amount: real, weekIndex: Option<int>, selected: bool)

  /** A partial update of one weekly amount. `None` means the field was not
      sent (it is then excluded from the update). */
  datatype WeeklyAmountUpdate = WeeklyAmountUpdate(amount: Option<real>, selected: Option<bool>)

  datatype SavingPlanCreate = SavingPlanCreate(
    savingsName: string,
    amount: real,
    numberOfWeeks: int,
    weeklyAmounts: Option<seq<WeeklyAmountCreate>>)

  /** A partial update of a plan; `None` means the field was not sent. */
  datatype SavingPlanUpdate = SavingPlanUpdate(savingsName: Option<string>, amount: Option<real>, numberOfWeeks: Option<int>)

  datatype SavingPlanStats = SavingPlanStats(
    totalPlans: int,
    activePlans: int,
    completedPlans: int,
    totalTargetAmount: real,
    totalSavedAmount: real,
    completionPercentage: real)

  datatype ScheduleState = Completed | Ahead | OnTrack | Behind

  /** The schedule report; the human-readable message is not modelled. */
  datatype ScheduleStatus = ScheduleStatus(
    status: ScheduleState,
    weeksElapsed: int,
    weeksRequired: int,
    weeksPaid: int,
    weeksBehind: int,
    weeksAhead: int,
    nextDueDate: Option<Instant>)

  /** Builds a weekly amount from the fields a client sent, applying the
      schema's default for an omitted `selected`. */
  function WeeklyAmountCreateOf(amount: real, weekIndex: Option<int>, selected: Option<bool>): (w: WeeklyAmountCreate)
    ensures w.amount == amount && w.weekIndex == weekIndex
    ensures w.selected <==> selected == Some(true)
  {
    WeeklyAmountCreate(amount, weekIndex, if selected.Some? then selected.value else false)
  }

  predicate ValidWeeklyAmountCreate(w: WeeklyAmountCreate)
  {
    w.amount > 0.0 && (w.weekIndex.None? || 1 <= w.weekIndex.value <= 104)
  }

  predicate ValidWeeklyAmountUpdate(u: WeeklyAmountUpdate)
  {
    u.amount.None? || u.amount.value > 0.0
  }

  predicate ValidSavingPlanCreate(d: SavingPlanCreate)
  {
    && 1 <= |d.savingsName| <= 200
    && d.amount > 0.0
    && 1 <= d.numberOfWeeks <= 104
    && (d.weeklyAmounts.Some? ==>
          forall k :: 0 <= k < |d.weeklyAmounts.value| ==> ValidWeeklyAmountCreate(d.weeklyAmounts.value[k]))
  }

  predicate ValidSavingPlanUpdate(u: SavingPlanUpdate)
  {
    && (u.savingsName.None? || 1 <= |u.savingsName.value| <= 200)
    && (u.amount.None? || u.amount.value > 0.0)
    && (u.numberOfWeeks.None? || 1 <= u.numberOfWeeks.value <= 104)
  }

  /** The plan fields after the sent fields of `u` replace those of `d`. */
  function Patched(d: SavingPlanCreate, u: SavingPlanUpdate): (r: SavingPlanCreate)
    ensures r.weeklyAmounts == d.weeklyAmounts
    ensures r.savingsName == if u.savingsName.Some? then u.savingsName.value else d.savingsName
    ensures r.amount == if u.amount.Some? then u.amount.value else d.amount
    ensures r.numberOfWeeks == if u.numberOfWeeks.Some? then u.numberOfWeeks.value else d.numberOfWeeks
  {
    d.(savingsName := if u.savingsName.Some? then u.savingsName.value else d.savingsName,
       amount := if u.amount.Some? then u.amount.value else d.amount,
       numberOfWeeks := if u.numberOfWeeks.Some? then u.numberOfWeeks.value else d.numberOfWeeks)
  }

  /** The update schema puts the creation bounds on exactly the fields that
      are sent: applied to valid plan fields, an update gives valid fields
      exactly when it is valid itself. */
  lemma UpdateBoundsAreCreateBounds(d: SavingPlanCreate, u: SavingPlanUpdate)
    requires ValidSavingPlanCreate(d)
    ensures ValidSavingPlanCreate(Patched(d, u)) <==> ValidSavingPlanUpdate(u)
  {
  }

  predicate ValidSavingPlanStats(s: SavingPlanStats)
  {
    0.0 <= s.completionPercentage <= 100.0
  }

  predicate ValidScheduleStatus(s: ScheduleStatus)
  {
    && s.weeksElapsed >= 0
    && s.weeksRequired >= 0
    && s.weeksPaid >= 0
    && s.weeksBehind >= 0
    && s.weeksAhead >= 0
  }

  /** The wire name of a schedule state. */
  function StatusName(s: ScheduleState): (r: string)
    ensures r in ["completed", "ahead", "on-track", "behind"]
  {
    match s
    case Completed => "completed"
    case Ahead => "ahead"
    case OnTrack => "on-track"
    case Behind => "behind"
  }
}
