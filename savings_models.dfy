/** The two stored records of the savings ledger, a saving plan and one of
    its weekly amounts (app/models/savings.py): their columns, the derived
    properties the plan exposes, the check constraints and unique index the
    store enforces, and the record-level mutators. The store itself is a
    class holding the two tables. */
module SavingsModels {
  import opened Basics

  /** One row of `saving_plans`; `updated_at` is not modelled. */
  datatype SavingPlan = SavingPlan(
    id: int,
    userId: string,
    savingsName: string,
    amount: real,
    numberOfWeeks: int,
    totalSavedAmount: real,
    dateCreated: Instant,
    deletedAt: Option<Instant>)

  /** One row of `weekly_amounts`; `created_at` and `updated_at` are not
      modelled. */
  datatype WeeklyAmount = WeeklyAmount(
    id: int,
    savingPlanId: int,
    amount: real,
    selected: bool,
    weekIndex: Option<int>,
    dateSelected: Option<Instant>,
    deletedAt: Option<Instant>)

  predicate PlanIsDeleted(p: SavingPlan)
  {
    p.deletedAt.Some?
  }

  predicate AmountIsDeleted(w: WeeklyAmount)
  {
    w.deletedAt.Some?
  }

  /** Saved share of the target, in percent; 0 for a zero target. */
  function CompletionPercentage(p: SavingPlan): (r: real)
    ensures p.amount == 0.0 ==> r == 0.0
    ensures p.amount != 0.0 ==> r * p.amount == 100.0 * p.totalSavedAmount
  {
    if p.amount == 0.0 then 0.0 else p.totalSavedAmount / p.amount * 100.0
  }

  predicate IsCompleted(p: SavingPlan)
  {
    p.totalSavedAmount >= p.amount
  }

  /** What is still to be saved, never negative. */
  function RemainingAmount(p: SavingPlan): (r: real)
    ensures r >= 0.0 && r >= p.amount - p.totalSavedAmount
    ensures r == 0.0 || r == p.amount - p.totalSavedAmount
  {
    if p.amount - p.totalSavedAmount < 0.0 then 0.0 else p.amount - p.totalSavedAmount
  }

  /** The check constraints of `saving_plans`. */
  predicate PlanConstraints(p: SavingPlan)
  {
    && p.amount > 0.0
    && 0 < p.numberOfWeeks <= 104
    && 0.0 <= p.totalSavedAmount <= p.amount
  }

  /** The check constraints of `weekly_amounts`. */
  predicate AmountConstraints(w: WeeklyAmount)
  {
    w.amount > 0.0 && (w.weekIndex.None? || w.weekIndex.value > 0)
  }

  /** The partial unique index on (saving_plan_id, week_index): two rows of
      the same plan never share a week index that is not null. It covers
      soft-deleted rows too. */
  predicate WeekIndicesUnique(a: seq<WeeklyAmount>)
  {
    forall i, j :: 0 <= i < j < |a| && a[i].savingPlanId == a[j].savingPlanId && a[i].weekIndex.Some? ==>
      a[i].weekIndex != a[j].weekIndex
  }

  predicate PlanIdsUnique(plans: seq<SavingPlan>)
  {
    forall i, j :: 0 <= i < j < |plans| ==> plans[i].id != plans[j].id
  }

  predicate AmountIdsUnique(a: seq<WeeklyAmount>)
  {
    forall i, j :: 0 <= i < j < |a| ==> a[i].id != a[j].id
  }

  /** A plan is complete exactly when nothing remains to be saved. */
  lemma CompletedIffNothingRemains(p: SavingPlan)
    ensures IsCompleted(p) <==> RemainingAmount(p) == 0.0
  {
  }

  /** Under the table's constraints the completion percentage is a
      percentage, and it is 100 exactly for a completed plan. */
  lemma CompletionPercentageBounds(p: SavingPlan)
    requires PlanConstraints(p)
    ensures 0.0 <= CompletionPercentage(p) <= 100.0
    ensures CompletionPercentage(p) == 100.0 <==> IsCompleted(p)
  {
    var r := CompletionPercentage(p);
    assert r * p.amount == 100.0 * p.totalSavedAmount;
    assert r * p.amount - 100.0 * p.amount == 100.0 * (p.totalSavedAmount - p.amount);
    assert (r - 100.0) * p.amount == 100.0 * (p.totalSavedAmount - p.amount);
    assert r - 100.0 != 0.0 ==> (r - 100.0) * p.amount != 0.0;
    assert IsCompleted(p) ==> p.totalSavedAmount - p.amount == 0.0;
    assert r == 100.0 ==> (r - 100.0) * p.amount == 0.0;
  }

  /** The two tables of the store, updated in place by the service layer. */
  class SavingsDb {
    var plans: seq<SavingPlan>
    var amounts: seq<WeeklyAmount>

    /** Primary keys are unique in both tables. */
    ghost predicate Valid()
      reads this
    {
      PlanIdsUnique(plans) && AmountIdsUnique(amounts)
    }

    constructor ()
      ensures Valid() && plans == [] && amounts == []
    {
      plans := [];
      amounts := [];
    }

    /** SavingPlan.soft_delete on the plan at position `p`. */
    method SoftDeletePlan(p: nat, now: Instant)
      requires Valid() && p < |plans|
      modifies this
      ensures Valid() && amounts == old(amounts)
      ensures plans == old(plans)[p := old(plans)[p].(deletedAt := Some(now))]
      ensures PlanIsDeleted(plans[p])
    {
      plans := plans[p := plans[p].(deletedAt := Some(now))];
    }

    /** WeeklyAmount.mark_as_saved on the amount at position `i`: selected
        and stamped with the current time. */
    method MarkAsSaved(i: nat, now: Instant)
      requires Valid() && i < |amounts|
      modifies this
      ensures Valid() && plans == old(plans)
      ensures amounts == old(amounts)[i := old(amounts)[i].(selected := true, dateSelected := Some(now))]
      ensures amounts[i].selected && amounts[i].dateSelected.Some?
    {
      amounts := amounts[i := amounts[i].(selected := true, dateSelected := Some(now))];
    }

    /** WeeklyAmount.unmark_as_saved: unselected and the stamp cleared. */
    method UnmarkAsSaved(i: nat)
      requires Valid() && i < |amounts|
      modifies this
      ensures Valid() && plans == old(plans)
      ensures amounts == old(amounts)[i := old(amounts)[i].(selected := false, dateSelected := None)]
      ensures !amounts[i].selected && amounts[i].dateSelected.None?
    {
      amounts := amounts[i := amounts[i].(selected := false, dateSelected := None)];
    }

    /** WeeklyAmount.soft_delete on the amount at position `i`. */
    method SoftDeleteAmount(i: nat, now: Instant)
      requires Valid() && i < |amounts|
      modifies this
      ensures Valid() && plans == old(plans)
      ensures amounts == old(amounts)[i := old(amounts)[i].(deletedAt := Some(now))]
      ensures AmountIsDeleted(amounts[i])
    {
      amounts := amounts[i := amounts[i].(deletedAt := Some(now))];
    }
  }
}
