/** The state-changing operations of SavingsService
    (app/services/savings_service.py) on the store: renumbering a plan's
    weeks, refreshing its saved total, updating one weekly amount, creating
    a plan and deleting one. Each method's new state is given by a function
    of the old state; the lemmas state what the service promises about
    those functions, and where its behaviour differs from its own design. */
module Ledger {
  import opened Basics
  import opened SavingsModels
  import opened SavingsSchemas
  import opened Ranking

  /** Why a service call fails. */
  datatype ServiceError =
    | WeekIndexExceedsDuration(weekIndex: int, numberOfWeeks: int)  // ValueError, answered 400
    | IntegrityViolation                                           // a commit broke a table constraint; answered 500

  // ---------------------------------------------------------------- lookups

  /** The plan row the ownership queries accept. */
  predicate IsActivePlan(p: SavingPlan, planId: int, userId: string)
  {
    p.id == planId && p.userId == userId && p.deletedAt.None?
  }

  function ActivePlanQuery(planId: int, userId: string): SavingPlan -> bool
  {
    p => IsActivePlan(p, planId, userId)
  }

  /** get_saving_plan_by_id: the position of the plan with this id when it
      belongs to the user and is not deleted. */
  function FindActivePlan(plans: seq<SavingPlan>, planId: int, userId: string): (r: Option<nat>)
    ensures r.Some? ==> r.value < |plans| && IsActivePlan(plans[r.value], planId, userId)
    ensures r.None? <==> forall p :: 0 <= p < |plans| ==> !IsActivePlan(plans[p], planId, userId)
  {
    FirstIndex(plans, ActivePlanQuery(planId, userId))
  }

  /** With unique plan ids there is at most one active match, so the lookup
      finds the plan at any position holding it. */
  lemma FindActivePlanUnique(plans: seq<SavingPlan>, planId: int, userId: string, p: nat)
    requires PlanIdsUnique(plans)
    requires p < |plans| && IsActivePlan(plans[p], planId, userId)
    ensures FindActivePlan(plans, planId, userId) == Some(p)
  {
  }

  // ------------------------------------------------- recalculate_week_indices

  /** The table after recalculate_week_indices: renumbered when the plan
      belongs to the user and is live (both queries join on the plan),
      untouched otherwise. */
  function RecalculatedAmounts(plans: seq<SavingPlan>, a: seq<WeeklyAmount>, planId: int, userId: string): seq<WeeklyAmount>
  {
    if FindActivePlan(plans, planId, userId).Some? then Reranked(a, planId) else a
  }

  predicate DisplayLe(w1: WeeklyAmount, w2: WeeklyAmount)
  {
    if w1.weekIndex.Some? && w2.weekIndex.Some? then
      w1.weekIndex.value < w2.weekIndex.value
      || (w1.weekIndex.value == w2.weekIndex.value && w1.amount <= w2.amount)
    else if w1.weekIndex.Some? then true
    else if w2.weekIndex.Some? then false
    else w1.amount <= w2.amount
  }

  function LiveQuery(planId: int): WeeklyAmount -> bool
  {
    w => LiveIn(w, planId)
  }

  /** The list recalculate_week_indices returns: the plan's live amounts
      ordered by week index (nulls last), then by amount. */
  function DisplayOrder(a: seq<WeeklyAmount>, planId: int): seq<WeeklyAmount>
  {
    InsertionSort(Filter(a, LiveQuery(planId)), DisplayLe)
  }

  lemma DisplayLeTotalPreorder()
    ensures TotalPreorder(DisplayLe)
  {
  }

  /** The returned list holds each live amount of the plan as often as the
      table does, and is sorted by (week index nulls last, amount). */
  lemma DisplayOrderFacts(a: seq<WeeklyAmount>, planId: int)
    ensures multiset(DisplayOrder(a, planId)) == multiset(Filter(a, LiveQuery(planId)))
    ensures SortedBy(DisplayOrder(a, planId), DisplayLe)
    ensures forall k :: 0 <= k < |DisplayOrder(a, planId)| ==> LiveIn(DisplayOrder(a, planId)[k], planId)
  {
    DisplayLeTotalPreorder();
    InsertionSortSorted(Filter(a, LiveQuery(planId)), DisplayLe);
    var d := DisplayOrder(a, planId);
    var f := Filter(a, LiveQuery(planId));
    forall k | 0 <= k < |d| ensures LiveIn(d[k], planId) {
      assert d[k] in multiset(d);
      assert d[k] in f;
      var m :| 0 <= m < |f| && f[m] == d[k];
      assert LiveQuery(planId)(f[m]);
    }
  }

  /** recalculate_week_indices: the saved rows of an owned, live plan are
      numbered in selection order, the unselected rows lose their index,
      and the plan's live rows are returned in display order. */
  method RecalculateWeekIndices(db: SavingsDb, planId: int, userId: string) returns (all: seq<WeeklyAmount>)
    requires db.Valid()
    modifies db
    ensures db.Valid() && db.plans == old(db.plans)
    ensures db.amounts == RecalculatedAmounts(old(db.plans), old(db.amounts), planId, userId)
    ensures all == DisplayOrder(db.amounts, planId)
  {
    RecalculatedKeepsIds(db.plans, db.amounts, planId, userId);
    if FindActivePlan(db.plans, planId, userId).Some? {
      db.amounts := RenumberRows(db.amounts, planId);
    }
    all := DisplayOrder(db.amounts, planId);
  }

  /** The two loops of recalculate_week_indices on a copy of the table:
      the saved rows of the plan, ranked by selection time, get indices
      1, 2, ...; then every live unselected row of the plan loses its index. */
  method RenumberRows(a0: seq<WeeklyAmount>, planId: int) returns (cur: seq<WeeklyAmount>)
    ensures cur == Reranked(a0, planId)
  {
    var selectedAmounts := SelectionOrder(a0, planId);
    SelectionOrderFacts(a0, planId);
    SelectionOrderMembers(a0, planId);
    cur := a0;
    var k := 0;
    while k < |selectedAmounts|
      invariant 0 <= k <= |selectedAmounts|
      invariant NumberedUpTo(a0, cur, selectedAmounts, k)
    {
      NumberStep(a0, cur, selectedAmounts, k);
      var i := selectedAmounts[k];
      cur := cur[i := cur[i].(weekIndex := Some(k + 1))];
      k := k + 1;
    }
    var a1 := cur;
    var unselectedAmounts := Positions(UnsavedFlags(a1, planId));
    var m := 0;
    while m < |unselectedAmounts|
      invariant 0 <= m <= |unselectedAmounts|
      invariant ClearedUpTo(a1, cur, unselectedAmounts, m)
    {
      ClearStep(a1, cur, unselectedAmounts, m);
      var i := unselectedAmounts[m];
      cur := cur[i := cur[i].(weekIndex := None)];
      m := m + 1;
    }
    assert unselectedAmounts[..m] == unselectedAmounts;
    assert selectedAmounts[..k] == selectedAmounts;
    RenumberingLoopsRerank(a0, a1, cur, planId, selectedAmounts);
  }

  /** Recalculation only touches week indices, so primary keys stay unique. */
  lemma RecalculatedKeepsIds(plans: seq<SavingPlan>, a: seq<WeeklyAmount>, planId: int, userId: string)
    requires AmountIdsUnique(a)
    ensures AmountIdsUnique(RecalculatedAmounts(plans, a, planId, userId))
  {
    var r := RecalculatedAmounts(plans, a, planId, userId);
    forall i, j | 0 <= i < j < |r| ensures r[i].id != r[j].id {
      assert r[i].id == a[i].id && r[j].id == a[j].id;
    }
  }

  /** After `k` steps of the numbering loop, the first `k` rows of `order`
      carry their rank and every other row is untouched. */
  ghost predicate NumberedUpTo(a0: seq<WeeklyAmount>, cur: seq<WeeklyAmount>, order: seq<nat>, k: nat)
  {
    && k <= |order|
    && |cur| == |a0|
    && (forall m :: 0 <= m < |order| ==> order[m] < |a0|)
    && Distinct(order)
    && (forall m :: 0 <= m < k ==> cur[order[m]] == a0[order[m]].(weekIndex := Some(m + 1)))
    && (forall i :: 0 <= i < |a0| && i !in order[..k] ==> cur[i] == a0[i])
  }

  lemma NumberStep(a0: seq<WeeklyAmount>, cur: seq<WeeklyAmount>, order: seq<nat>, k: nat)
    requires k < |order| && NumberedUpTo(a0, cur, order, k)
    ensures NumberedUpTo(a0, cur[order[k] := cur[order[k]].(weekIndex := Some(k + 1))], order, k + 1)
  {
    var i := order[k];
    assert forall m :: 0 <= m < k ==> order[m] != i;
    assert order[..k + 1] == order[..k] + [i];
  }

  /** After `m` steps of the clearing loop, the first `m` listed rows have
      lost their index and every other row is untouched. */
  ghost predicate ClearedUpTo(a1: seq<WeeklyAmount>, cur: seq<WeeklyAmount>, rows: seq<nat>, m: nat)
  {
    && m <= |rows|
    && |cur| == |a1|
    && (forall n :: 0 <= n < |rows| ==> rows[n] < |a1|)
    && (forall i :: 0 <= i < |a1| ==>
          cur[i] == if i in rows[..m] then a1[i].(weekIndex := None) else a1[i])
  }

  lemma ClearStep(a1: seq<WeeklyAmount>, cur: seq<WeeklyAmount>, rows: seq<nat>, m: nat)
    requires m < |rows| && ClearedUpTo(a1, cur, rows, m)
    ensures ClearedUpTo(a1, cur[rows[m] := cur[rows[m]].(weekIndex := None)], rows, m + 1)
  {
    assert rows[..m + 1] == rows[..m] + [rows[m]];
  }

  /** What the two loops of the recalculation leave behind is `Reranked`:
      the first gives the m-th row of selection order the index m + 1, the
      second clears the index of every live unselected row. */
  lemma RenumberingLoopsRerank(a0: seq<WeeklyAmount>, a1: seq<WeeklyAmount>, a2: seq<WeeklyAmount>, planId: int,
                                order: seq<nat>)
    requires |a1| == |a0| && |a2| == |a0|
    requires order == SelectionOrder(a0, planId)
    requires forall m :: 0 <= m < |order| ==> order[m] < |a0|
    requires forall m :: 0 <= m < |order| ==> a1[order[m]] == a0[order[m]].(weekIndex := Some(m + 1))
    requires forall i :: 0 <= i < |a0| && i !in order ==> a1[i] == a0[i]
    requires forall i :: 0 <= i < |a1| ==>
      a2[i] == if i in Positions(UnsavedFlags(a1, planId)) then a1[i].(weekIndex := None) else a1[i]
    ensures a2 == Reranked(a0, planId)
  {
    forall i | 0 <= i < |a0| ensures a2[i] == Reranked(a0, planId)[i] {
      RenumberedRow(a0, a1, a2, planId, order, i);
    }
  }

  lemma RenumberedRow(a0: seq<WeeklyAmount>, a1: seq<WeeklyAmount>, a2: seq<WeeklyAmount>, planId: int,
                      order: seq<nat>, i: nat)
    requires |a1| == |a0| && |a2| == |a0| && i < |a0|
    requires order == SelectionOrder(a0, planId)
    requires forall m :: 0 <= m < |order| ==> order[m] < |a0|
    requires forall m :: 0 <= m < |order| ==> a1[order[m]] == a0[order[m]].(weekIndex := Some(m + 1))
    requires forall i :: 0 <= i < |a0| && i !in order ==> a1[i] == a0[i]
    requires forall i :: 0 <= i < |a1| ==>
      a2[i] == if i in Positions(UnsavedFlags(a1, planId)) then a1[i].(weekIndex := None) else a1[i]
    ensures a2[i] == Reranked(a0, planId)[i]
  {
    var unselected := Positions(UnsavedFlags(a1, planId));
    SelectionOrderMembers(a0, planId);
    if SavedIn(a0[i], planId) {
      var n := IndexOf(order, i);
      assert a1[i] == a0[i].(weekIndex := Some(n + 1));
      assert !UnsavedFlags(a1, planId)[i];
      assert i !in unselected;
      assert Reranked(a0, planId)[i] == a0[i].(weekIndex := Some(n + 1));
    } else {
      assert i !in order;
      assert a1[i] == a0[i];
      assert UnsavedFlags(a1, planId)[i] == LiveIn(a0[i], planId);
    }
  }

  // ------------------------------------------------- update_plan_total_saved

  /** COALESCE(SUM(amount), 0) over the plan's selected, non-deleted rows. */
  function SavedTotal(a: seq<WeeklyAmount>, planId: int): real
  {
    if a == [] then 0.0
    else SavedTotal(a[..|a| - 1], planId) + (if SavedIn(a[|a| - 1], planId) then a[|a| - 1].amount else 0.0)
  }

  /** The total depends only on which rows are saved and on their amounts. */
  lemma {:induction false} SavedTotalDependsOnSavedRows(a: seq<WeeklyAmount>, b: seq<WeeklyAmount>, planId: int)
    requires |a| == |b|
    requires forall i :: 0 <= i < |a| ==> SavedIn(a[i], planId) == SavedIn(b[i], planId)
    requires forall i :: 0 <= i < |a| && SavedIn(a[i], planId) ==> a[i].amount == b[i].amount
    ensures SavedTotal(a, planId) == SavedTotal(b, planId)
  {
    if a != [] {
      SavedTotalDependsOnSavedRows(a[..|a| - 1], b[..|b| - 1], planId);
    }
  }

  /** With positive amounts the total is positive exactly when some row is
      saved, and it is at least each saved row's amount. */
  lemma {:induction false} SavedTotalBounds(a: seq<WeeklyAmount>, planId: int)
    requires forall i :: 0 <= i < |a| ==> AmountConstraints(a[i])
    ensures SavedTotal(a, planId) >= 0.0
    ensures SavedTotal(a, planId) == 0.0 <==> SavedCount(a, planId) == 0
    ensures forall i :: 0 <= i < |a| && SavedIn(a[i], planId) ==> a[i].amount <= SavedTotal(a, planId)
  {
    if a != [] {
      var n := |a| - 1;
      SavedTotalBounds(a[..n], planId);
      assert forall i :: 0 <= i < n ==> a[..n][i] == a[i];
    }
  }

  /** Replacing one row changes the total by the difference of the two
      rows' contributions. */
  lemma {:induction false} SavedTotalUpdate(a: seq<WeeklyAmount>, planId: int, i: nat, w: WeeklyAmount)
    requires i < |a|
    ensures SavedTotal(a[i := w], planId) ==
      SavedTotal(a, planId) - (if SavedIn(a[i], planId) then a[i].amount else 0.0)
                            + (if SavedIn(w, planId) then w.amount else 0.0)
  {
    var n := |a| - 1;
    if i < n {
      assert a[i := w][..n] == a[..n][i := w];
      SavedTotalUpdate(a[..n], planId, i, w);
    } else {
      assert a[i := w][..n] == a[..n];
    }
  }

  /** Renumbering does not change any plan's total. */
  lemma RerankedKeepsSavedTotal(a: seq<WeeklyAmount>, planId: int, otherPlan: int)
    ensures SavedTotal(Reranked(a, planId), otherPlan) == SavedTotal(a, otherPlan)
  {
    SavedTotalDependsOnSavedRows(Reranked(a, planId), a, otherPlan);
  }

  /** The plans table after update_plan_total_saved and the error its
      commit raises: an owned, live plan gets the saved total of its rows,
      unless that breaks a check constraint (the total exceeds the target),
      in which case the change is rolled back. */
  function TotalSavedWrite(plans: seq<SavingPlan>, a: seq<WeeklyAmount>, planId: int, userId: string)
    : (seq<SavingPlan>, Option<ServiceError>)
  {
    match FindActivePlan(plans, planId, userId)
    case None => (plans, None)
    case Some(p) =>
      var updated := plans[p].(totalSavedAmount := SavedTotal(a, planId));
      if PlanConstraints(updated) then (plans[p := updated], None) else (plans, Some(IntegrityViolation))
  }

  /** In a store whose rows meet their constraints the write fails exactly
      when the saved total exceeds the plan's target; when it succeeds the
      plan holds the saved total, still meets its constraints, and no other
      plan changes. */
  lemma TotalSavedWriteFacts(plans: seq<SavingPlan>, a: seq<WeeklyAmount>, planId: int, userId: string)
    requires forall p :: 0 <= p < |plans| ==> PlanConstraints(plans[p])
    requires forall i :: 0 <= i < |a| ==> AmountConstraints(a[i])
    ensures var (plans', failure) := TotalSavedWrite(plans, a, planId, userId);
      && |plans'| == |plans|
      && (failure.Some? <==>
            FindActivePlan(plans, planId, userId).Some?
            && SavedTotal(a, planId) > plans[FindActivePlan(plans, planId, userId).value].amount)
      && (forall p :: 0 <= p < |plans| ==> PlanConstraints(plans'[p]))
      && (forall p :: 0 <= p < |plans| && Some(p) != FindActivePlan(plans, planId, userId) ==> plans'[p] == plans[p])
      && (failure.None? && FindActivePlan(plans, planId, userId).Some? ==>
            plans'[FindActivePlan(plans, planId, userId).value].totalSavedAmount == SavedTotal(a, planId))
  {
    SavedTotalBounds(a, planId);
  }

  /** update_plan_total_saved. */
  method UpdatePlanTotalSaved(db: SavingsDb, planId: int, userId: string) returns (failure: Option<ServiceError>)
    requires db.Valid()
    modifies db
    ensures db.Valid() && db.amounts == old(db.amounts)
    ensures (db.plans, failure) == TotalSavedWrite(old(db.plans), old(db.amounts), planId, userId)
  {
    failure := None;
    var found := FindActivePlan(db.plans, planId, userId);
    if found.None? {
      return;
    }
    var p := found.value;
    var total := SavedTotal(db.amounts, planId);
    var updated := db.plans[p].(totalSavedAmount := total);
    if !PlanConstraints(updated) {
      failure := Some(IntegrityViolation);
      return;
    }
    db.plans := db.plans[p := updated];
  }

  // ---------------------------------------------------- update_weekly_amount

  /** The weekly-amount row the update's ownership join accepts. */
  predicate IsOwnedLiveAmount(plans: seq<SavingPlan>, w: WeeklyAmount, id: int, userId: string)
  {
    w.id == id && w.deletedAt.None? && FindActivePlan(plans, w.savingPlanId, userId).Some?
  }

  function OwnedAmountQuery(plans: seq<SavingPlan>, id: int, userId: string): WeeklyAmount -> bool
  {
    w => IsOwnedLiveAmount(plans, w, id, userId)
  }

  function FindOwnedAmount(plans: seq<SavingPlan>, a: seq<WeeklyAmount>, id: int, userId: string): (r: Option<nat>)
    ensures r.Some? ==> r.value < |a| && IsOwnedLiveAmount(plans, a[r.value], id, userId)
    ensures r.None? <==> forall i :: 0 <= i < |a| ==> !IsOwnedLiveAmount(plans, a[i], id, userId)
  {
    FirstIndex(a, OwnedAmountQuery(plans, id, userId))
  }

  /** The fields update_weekly_amount sets on the row: every field that was
      sent, and the selection stamp whenever `selected` was sent, even when
      its value does not change. */
  function ApplyUpdate(w: WeeklyAmount, upd: WeeklyAmountUpdate, now: Instant): (r: WeeklyAmount)
    ensures r.amount == if upd.amount.Some? then upd.amount.value else w.amount
    ensures r.selected == if upd.selected.Some? then upd.selected.value else w.selected
    ensures upd.selected.Some? ==> r.dateSelected == if r.selected then Some(now) else None
    ensures upd.selected.None? ==> r.dateSelected == w.dateSelected
    ensures r.(amount := w.amount, selected := w.selected, dateSelected := w.dateSelected) == w
  {
    var w1 := if upd.amount.Some? then w.(amount := upd.amount.value) else w;
    if upd.selected.Some? then
      w1.(selected := upd.selected.value, dateSelected := if upd.selected.value then Some(now) else None)
    else w1
  }

  /** The store and the answer after update_weekly_amount. */
  datatype StoreOutcome<R> = StoreOutcome(plans: seq<SavingPlan>, amounts: seq<WeeklyAmount>, result: Result<R, ServiceError>)

  function WeeklyAmountUpdated(plans: seq<SavingPlan>, a: seq<WeeklyAmount>, id: int, userId: string,
                               upd: WeeklyAmountUpdate, now: Instant): StoreOutcome<Option<WeeklyAmount>>
  {
    match FindOwnedAmount(plans, a, id, userId)
    case None => StoreOutcome(plans, a, Ok(None))
    case Some(i) =>
      if upd.amount.None? && upd.selected.None? then StoreOutcome(plans, a, Ok(Some(a[i])))
      else
        var a1 := a[i := ApplyUpdate(a[i], upd, now)];
        if upd.selected.None? then StoreOutcome(plans, a1, Ok(Some(a1[i])))
        else
          var planId := a[i].savingPlanId;
          var a2 := RecalculatedAmounts(plans, a1, planId, userId);
          var (plans2, failure) := TotalSavedWrite(plans, a2, planId, userId);
          if failure.Some? then StoreOutcome(plans, a2, Err(failure.value))
          else StoreOutcome(plans2, a2, Ok(Some(a2[i])))
  }

  /** update_weekly_amount: the row is looked up through its plan's owner;
      sent fields are set and committed; a sent `selected` then renumbers
      the plan and refreshes its total, each committed on its own. */
  method UpdateWeeklyAmount(db: SavingsDb, id: int, userId: string, upd: WeeklyAmountUpdate, now: Instant)
    returns (result: Result<Option<WeeklyAmount>, ServiceError>)
    requires db.Valid()
    modifies db
    ensures db.Valid()
    ensures StoreOutcome(db.plans, db.amounts, result) == WeeklyAmountUpdated(old(db.plans), old(db.amounts), id, userId, upd, now)
  {
    var found := FindOwnedAmount(db.plans, db.amounts, id, userId);
    if found.None? {
      return Ok(None);
    }
    var i := found.value;
    if upd.amount.None? && upd.selected.None? {
      return Ok(Some(db.amounts[i]));
    }
    var w := ApplyUpdate(db.amounts[i], upd, now);
    db.amounts := db.amounts[i := w];
    if upd.selected.Some? {
      var _ := RecalculateWeekIndices(db, w.savingPlanId, userId);
      var failure := UpdatePlanTotalSaved(db, w.savingPlanId, userId);
      if failure.Some? {
        return Err(failure.value);
      }
    }
    result := Ok(Some(db.amounts[i]));
  }

  /** An update answers None, and changes nothing, exactly when no live row
      with this id belongs to a live plan of the user. */
  lemma UpdateNotFound(plans: seq<SavingPlan>, a: seq<WeeklyAmount>, id: int, userId: string,
                       upd: WeeklyAmountUpdate, now: Instant)
    ensures var out := WeeklyAmountUpdated(plans, a, id, userId, upd, now);
      (out.result == Ok(None)) <==> forall i :: 0 <= i < |a| ==> !IsOwnedLiveAmount(plans, a[i], id, userId)
    ensures var out := WeeklyAmountUpdated(plans, a, id, userId, upd, now);
      out.result == Ok(None) ==> out.plans == plans && out.amounts == a
  {
  }

  /** Sending `selected` sets the flag and its stamp, renumbers the plan
      (so the returned row carries its new rank) and, unless the commit is
      refused, stores the plan's new saved total. */
  lemma UpdateSelection(plans: seq<SavingPlan>, a: seq<WeeklyAmount>, id: int, userId: string,
                        upd: WeeklyAmountUpdate, now: Instant, i: nat)
    requires FindOwnedAmount(plans, a, id, userId) == Some(i)
    requires upd.selected.Some?
    ensures var out := WeeklyAmountUpdated(plans, a, id, userId, upd, now);
      var planId := a[i].savingPlanId;
      && out.amounts == Reranked(a[i := ApplyUpdate(a[i], upd, now)], planId)
      && out.amounts[i].selected == upd.selected.value
      && (out.amounts[i].dateSelected.Some? <==> upd.selected.value)
      && (upd.selected.value ==> out.amounts[i].weekIndex.Some? && out.amounts[i].weekIndex.value >= 1)
      && (!upd.selected.value ==> out.amounts[i].weekIndex.None?)
      && (out.result.Ok? ==>
            && out.result.value == Some(out.amounts[i])
            && out.plans[FindActivePlan(plans, planId, userId).value].totalSavedAmount == SavedTotal(out.amounts, planId))
  {
    var planId := a[i].savingPlanId;
    var a1 := a[i := ApplyUpdate(a[i], upd, now)];
    if upd.selected.value {
      RerankedIndexInRange(a1, planId, i);
    }
  }

  /** The commits are not atomic: when the refreshed total breaks the
      plan's constraints the call fails, yet the new selection and the
      renumbering stay committed and the plan keeps its old total. */
  lemma UpdateFailureKeepsSelection(plans: seq<SavingPlan>, a: seq<WeeklyAmount>, id: int, userId: string,
                                    upd: WeeklyAmountUpdate, now: Instant)
    ensures var out := WeeklyAmountUpdated(plans, a, id, userId, upd, now);
      out.result.Err? ==>
        && out.result.error == IntegrityViolation
        && out.plans == plans
        && FindOwnedAmount(plans, a, id, userId).Some?
        && var i := FindOwnedAmount(plans, a, id, userId).value;
           out.amounts == Reranked(a[i := ApplyUpdate(a[i], upd, now)], a[i].savingPlanId)
  {
  }

  /** Re-sending `selected = true` for a row that is already saved
      restamps it with the current time although nothing about it changed,
      so the renumbering (which `SelectionUpdateRerank` shows the update
      performs) moves it to the last rank of its plan. */
  lemma ReselectMovesToLastRank(a: seq<WeeklyAmount>, planId: int, i: nat, now: Instant)
    requires i < |a| && SavedIn(a[i], planId)
    requires forall j :: 0 <= j < |a| && j != i && SavedIn(a[j], planId) ==>
      a[j].dateSelected.Some? && a[j].dateSelected.value < now
    ensures ApplyUpdate(a[i], WeeklyAmountUpdate(None, Some(true)), now) == a[i].(dateSelected := Some(now))
    ensures Reranked(a[i := ApplyUpdate(a[i], WeeklyAmountUpdate(None, Some(true)), now)], planId)[i].weekIndex
      == Some(SavedCount(a, planId))
  {
    var a1 := a[i := a[i].(dateSelected := Some(now))];
    SavedCountOfSameFlags(a1, a, planId);
    forall j | 0 <= j < |a1| && j != i && SavedIn(a1[j], planId) ensures RankedBefore(SelectionKeys(a1), j, i) {
      assert a1[j] == a[j];
    }
    RankedLastGetsLastIndex(a1, planId, i);
  }

  /** With `selected` sent, the update's table is the renumbering of the
      table with the one row changed. */
  lemma SelectionUpdateRerank(plans: seq<SavingPlan>, a: seq<WeeklyAmount>, id: int, userId: string,
                              upd: WeeklyAmountUpdate, now: Instant, i: nat)
    requires FindOwnedAmount(plans, a, id, userId) == Some(i)
    requires upd.selected.Some?
    ensures WeeklyAmountUpdated(plans, a, id, userId, upd, now).amounts
      == Reranked(a[i := ApplyUpdate(a[i], upd, now)], a[i].savingPlanId)
  {
  }

  /** Changing only the amount of a saved row commits the new amount but
      neither renumbers nor refreshes the plan's total, which then no
      longer equals the sum of its saved rows. */
  lemma AmountOnlyUpdateLeavesTotalStale(plans: seq<SavingPlan>, a: seq<WeeklyAmount>, id: int, userId: string,
                                         x: real, now: Instant, i: nat, p: nat)
    requires FindOwnedAmount(plans, a, id, userId) == Some(i)
    requires SavedIn(a[i], a[i].savingPlanId) && x != a[i].amount
    requires p < |plans| && plans[p].id == a[i].savingPlanId
    requires plans[p].totalSavedAmount == SavedTotal(a, a[i].savingPlanId)
    ensures var out := WeeklyAmountUpdated(plans, a, id, userId, WeeklyAmountUpdate(Some(x), None), now);
      && out.plans == plans
      && out.amounts == a[i := a[i].(amount := x)]
      && out.plans[p].totalSavedAmount != SavedTotal(out.amounts, a[i].savingPlanId)
  {
    var upd := WeeklyAmountUpdate(Some(x), None);
    assert ApplyUpdate(a[i], upd, now) == a[i].(amount := x);
    SavedTotalUpdate(a, a[i].savingPlanId, i, a[i].(amount := x));
  }

  // ------------------------------------------------------ create_saving_plan

  function MaxPlanId(plans: seq<SavingPlan>): (m: int)
    ensures m >= 0
    ensures forall p :: 0 <= p < |plans| ==> plans[p].id <= m
  {
    if plans == [] then 0
    else
      var m := MaxPlanId(plans[..|plans| - 1]);
      assert forall p :: 0 <= p < |plans| - 1 ==> plans[..|plans| - 1][p] == plans[p];
      Max(m, plans[|plans| - 1].id)
  }

  function MaxAmountId(a: seq<WeeklyAmount>): (m: int)
    ensures m >= 0
    ensures forall i :: 0 <= i < |a| ==> a[i].id <= m
  {
    if a == [] then 0
    else
      var m := MaxAmountId(a[..|a| - 1]);
      assert forall i :: 0 <= i < |a| - 1 ==> a[..|a| - 1][i] == a[i];
      Max(m, a[|a| - 1].id)
  }

  predicate ExceedsDuration(w: WeeklyAmountCreate, numberOfWeeks: int)
  {
    w.weekIndex.Some? && w.weekIndex.value > numberOfWeeks
  }

  function ExceedsQuery(numberOfWeeks: int): WeeklyAmountCreate -> bool
  {
    w => ExceedsDuration(w, numberOfWeeks)
  }

  /** No two amounts of the request name the same week. */
  predicate RequestWeeksUnique(ws: seq<WeeklyAmountCreate>)
  {
    forall k, m :: 0 <= k < m < |ws| && ws[k].weekIndex.Some? ==> ws[k].weekIndex != ws[m].weekIndex
  }

  /** The row stored for one requested weekly amount. */
  function NewAmountRow(w: WeeklyAmountCreate, planId: int, id: int, now: Instant): WeeklyAmount
  {
    WeeklyAmount(id, planId, w.amount, w.selected, w.weekIndex, if w.selected then Some(now) else None, None)
  }

  function NewAmountRows(ws: seq<WeeklyAmountCreate>, planId: int, firstId: int, now: Instant): (r: seq<WeeklyAmount>)
    ensures |r| == |ws|
    ensures forall k :: 0 <= k < |ws| ==> r[k] == NewAmountRow(ws[k], planId, firstId + k, now)
  {
    seq(|ws|, k requires 0 <= k < |ws| => NewAmountRow(ws[k], planId, firstId + k, now))
  }

  function RequestedAmounts(d: SavingPlanCreate): seq<WeeklyAmountCreate>
  {
    if d.weeklyAmounts.Some? then d.weeklyAmounts.value else []
  }

  /** The id the store gives the new plan (any unused id would do). */
  function NewPlanId(plans: seq<SavingPlan>): int
  {
    MaxPlanId(plans) + 1
  }

  /** The store and the answer after create_saving_plan. The plan starts
      with nothing saved. A requested week beyond the plan's duration is a
      ValueError; two requested amounts with the same week break the unique
      index. Either error rolls everything back. */
  function PlanCreated(plans: seq<SavingPlan>, a: seq<WeeklyAmount>, userId: string, d: SavingPlanCreate, now: Instant)
    : StoreOutcome<SavingPlan>
  {
    var ws := RequestedAmounts(d);
    var planId := NewPlanId(plans);
    match FirstIndex(ws, ExceedsQuery(d.numberOfWeeks))
    case Some(k) => StoreOutcome(plans, a, Err(WeekIndexExceedsDuration(ws[k].weekIndex.value, d.numberOfWeeks)))
    case None =>
      if !RequestWeeksUnique(ws) then StoreOutcome(plans, a, Err(IntegrityViolation))
      else
        var plan := SavingPlan(planId, userId, d.savingsName, d.amount, d.numberOfWeeks, 0.0, now, None);
        StoreOutcome(plans + [plan], a + NewAmountRows(ws, planId, MaxAmountId(a) + 1, now), Ok(plan))
  }

  /** create_saving_plan. */
  method CreateSavingPlan(db: SavingsDb, userId: string, d: SavingPlanCreate, now: Instant)
    returns (result: Result<SavingPlan, ServiceError>)
    requires db.Valid()
    modifies db
    ensures db.Valid()
    ensures StoreOutcome(db.plans, db.amounts, result) == PlanCreated(old(db.plans), old(db.amounts), userId, d, now)
  {
    var planId := NewPlanId(db.plans);
    var plan := SavingPlan(planId, userId, d.savingsName, d.amount, d.numberOfWeeks, 0.0, now, None);
    var ws := RequestedAmounts(d);
    var firstId := MaxAmountId(db.amounts) + 1;
    var rows: seq<WeeklyAmount> := [];
    var k := 0;
    while k < |ws|
      invariant 0 <= k <= |ws|
      invariant rows == NewAmountRows(ws[..k], planId, firstId, now)
      invariant forall m :: 0 <= m < k ==> !ExceedsDuration(ws[m], d.numberOfWeeks)
    {
      var w := ws[k];
      if w.weekIndex.Some? && w.weekIndex.value > d.numberOfWeeks {
        assert FirstIndex(ws, ExceedsQuery(d.numberOfWeeks)) == Some(k);
        return Err(WeekIndexExceedsDuration(w.weekIndex.value, d.numberOfWeeks));
      }
      rows := rows + [NewAmountRow(w, planId, firstId + k, now)];
      k := k + 1;
    }
    assert ws[..k] == ws;
    if !RequestWeeksUnique(ws) {
      return Err(IntegrityViolation);
    }
    db.plans := db.plans + [plan];
    db.amounts := db.amounts + rows;
    result := Ok(plan);
  }

  /** Creation fails with ValueError exactly when some requested amount names
      a week beyond the plan's duration; the reported week is the first such
      one, and nothing is stored. */
  lemma CreateRejectsWeekBeyondDuration(plans: seq<SavingPlan>, a: seq<WeeklyAmount>, userId: string,
                                        d: SavingPlanCreate, now: Instant)
    ensures var out := PlanCreated(plans, a, userId, d, now);
      && (out.result.Err? && out.result.error.WeekIndexExceedsDuration? <==>
            exists k :: 0 <= k < |RequestedAmounts(d)| && ExceedsDuration(RequestedAmounts(d)[k], d.numberOfWeeks))
      && (out.result.Err? ==> out.plans == plans && out.amounts == a)
      && (out.result.Err? && out.result.error.WeekIndexExceedsDuration? ==>
            out.result.error.weekIndex > d.numberOfWeeks && out.result.error.numberOfWeeks == d.numberOfWeeks)
  {
    var ws := RequestedAmounts(d);
    var r := FirstIndex(ws, ExceedsQuery(d.numberOfWeeks));
    if r.Some? {
      assert ExceedsQuery(d.numberOfWeeks)(ws[r.value]);
    }
  }

  /** On success the store gains one live plan of the user with nothing
      saved, findable by its id, and one row per requested amount, all of
      that plan, stamped exactly when selected, with weeks inside the
      plan's duration; for a validated request every new row meets the
      tables' constraints. */
  lemma CreatedPlanFacts(plans: seq<SavingPlan>, a: seq<WeeklyAmount>, userId: string, d: SavingPlanCreate, now: Instant)
    requires PlanIdsUnique(plans)
    ensures var out := PlanCreated(plans, a, userId, d, now);
      out.result.Ok? ==>
        var plan := out.result.value;
        && out.plans == plans + [plan]
        && plan.userId == userId && plan.totalSavedAmount == 0.0 && plan.deletedAt.None?
        && plan.amount == d.amount && plan.numberOfWeeks == d.numberOfWeeks
        && FindActivePlan(out.plans, plan.id, userId) == Some(|plans|)
        && |out.amounts| == |a| + |RequestedAmounts(d)|
        && out.amounts[..|a|] == a
        && (forall k :: |a| <= k < |out.amounts| ==>
              var w := out.amounts[k];
              && w.savingPlanId == plan.id && w.deletedAt.None?
              && (w.dateSelected.Some? <==> w.selected)
              && (w.weekIndex.Some? ==> w.weekIndex.value <= d.numberOfWeeks))
        && (ValidSavingPlanCreate(d) ==>
              PlanConstraints(plan) && forall k :: |a| <= k < |out.amounts| ==> AmountConstraints(out.amounts[k]))
  {
    var ws := RequestedAmounts(d);
    var out := PlanCreated(plans, a, userId, d, now);
    if out.result.Ok? {
      var plan := out.result.value;
      assert PlanIdsUnique(out.plans);
      FindActivePlanUnique(out.plans, plan.id, userId, |plans|);
      forall k | |a| <= k < |out.amounts|
        ensures out.amounts[k].weekIndex.Some? ==> out.amounts[k].weekIndex.value <= d.numberOfWeeks
      {
        assert out.amounts[k] == NewAmountRow(ws[k - |a|], plan.id, MaxAmountId(a) + 1 + (k - |a|), now);
        assert !ExceedsQuery(d.numberOfWeeks)(ws[k - |a|]);
      }
    }
  }

  /** The new plan's total starts at 0 even when amounts are created
      already selected, so it disagrees with the sum of its saved rows until
      the next selection change refreshes it. */
  lemma CreatedTotalIgnoresSelectedAmounts(plans: seq<SavingPlan>, a: seq<WeeklyAmount>, userId: string,
                                           d: SavingPlanCreate, now: Instant, k: nat)
    requires forall i :: 0 <= i < |a| ==> AmountConstraints(a[i])
    requires ValidSavingPlanCreate(d)
    requires k < |RequestedAmounts(d)| && RequestedAmounts(d)[k].selected
    requires PlanCreated(plans, a, userId, d, now).result.Ok?
    ensures var out := PlanCreated(plans, a, userId, d, now);
      out.result.value.totalSavedAmount == 0.0 && SavedTotal(out.amounts, out.result.value.id) > 0.0
  {
    var out := PlanCreated(plans, a, userId, d, now);
    var planId := out.result.value.id;
    var ws := RequestedAmounts(d);
    var rows := NewAmountRows(ws, planId, MaxAmountId(a) + 1, now);
    assert out.amounts == a + rows;
    assert forall m :: 0 <= m < |rows| ==> AmountConstraints(rows[m]) by {
      forall m | 0 <= m < |rows| ensures AmountConstraints(rows[m]) {
        assert ValidWeeklyAmountCreate(ws[m]);
      }
    }
    assert out.amounts[|a| + k] == rows[k];
    assert SavedIn(rows[k], planId);
    SavedTotalBounds(out.amounts, planId);
  }

  // ------------------------------------------------------ delete_saving_plan

  /** The bulk UPDATE of delete_saving_plan: every row of the plan, deleted
      or not, is stamped as deleted. */
  function CascadeDeleted(a: seq<WeeklyAmount>, planId: int, now: Instant): (r: seq<WeeklyAmount>)
    ensures |r| == |a|
    ensures forall i :: 0 <= i < |a| ==> r[i] == if a[i].savingPlanId == planId then a[i].(deletedAt := Some(now)) else a[i]
  {
    seq(|a|, i requires 0 <= i < |a| => if a[i].savingPlanId == planId then a[i].(deletedAt := Some(now)) else a[i])
  }

  /** The store and the answer after delete_saving_plan. */
  function PlanDeleted(plans: seq<SavingPlan>, a: seq<WeeklyAmount>, planId: int, userId: string, now: Instant)
    : StoreOutcome<bool>
  {
    match FindActivePlan(plans, planId, userId)
    case None => StoreOutcome(plans, a, Ok(false))
    case Some(p) => StoreOutcome(plans[p := plans[p].(deletedAt := Some(now))], CascadeDeleted(a, planId, now), Ok(true))
  }

  /** delete_saving_plan. */
  method DeleteSavingPlan(db: SavingsDb, planId: int, userId: string, now: Instant) returns (deleted: bool)
    requires db.Valid()
    modifies db
    ensures db.Valid()
    ensures StoreOutcome(db.plans, db.amounts, Ok(deleted)) == PlanDeleted(old(db.plans), old(db.amounts), planId, userId, now)
  {
    var found := FindActivePlan(db.plans, planId, userId);
    if found.None? {
      return false;
    }
    db.SoftDeletePlan(found.value, now);
    db.amounts := CascadeDeleted(db.amounts, planId, now);
    deleted := true;
  }

  /** Deletion reports true exactly when the user owns the live plan; after
      it the plan is no longer found, none of its rows is live (so its
      saved total is 0 and a renumbering touches nothing), other plans'
      rows are unchanged, and deleting again reports false. */
  lemma DeletedPlanIsGone(plans: seq<SavingPlan>, a: seq<WeeklyAmount>, planId: int, userId: string, now: Instant)
    requires PlanIdsUnique(plans)
    ensures var out := PlanDeleted(plans, a, planId, userId, now);
      && (out.result == Ok(true) <==> FindActivePlan(plans, planId, userId).Some?)
      && (out.result == Ok(false) ==> out.plans == plans && out.amounts == a)
      && FindActivePlan(out.plans, planId, userId).None?
      && PlanDeleted(out.plans, out.amounts, planId, userId, now).result == Ok(false)
      && (out.result == Ok(true) ==>
            && (forall i :: 0 <= i < |a| ==> !LiveIn(out.amounts[i], planId))
            && (forall i :: 0 <= i < |a| && a[i].savingPlanId != planId ==> out.amounts[i] == a[i])
            && SavedTotal(out.amounts, planId) == 0.0)
  {
    var out := PlanDeleted(plans, a, planId, userId, now);
    match FindActivePlan(plans, planId, userId)
    case None =>
    case Some(p) =>
      forall q | 0 <= q < |plans| ensures !IsActivePlan(out.plans[q], planId, userId) {
        if q != p {
          assert plans[q].id != plans[p].id;
        }
      }
      NoLiveRowsNoTotal(out.amounts, planId);
  }

  lemma {:induction false} NoLiveRowsNoTotal(a: seq<WeeklyAmount>, planId: int)
    ensures (forall i :: 0 <= i < |a| ==> !LiveIn(a[i], planId)) ==> SavedTotal(a, planId) == 0.0
  {
    if a != [] {
      var n := |a| - 1;
      NoLiveRowsNoTotal(a[..n], planId);
      assert forall i :: 0 <= i < n ==> a[..n][i] == a[i];
    }
  }
}
