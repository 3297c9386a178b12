/** The read queries over a user's plans in SavingsService
    (app/services/savings_service.py): the statistics rollup and the
    paginated plan list. */
module Stats {
  import opened Basics
  import opened SavingsModels
  import opened SavingsSchemas

  /** The plans the statistics query aggregates: the user's, not deleted. */
  predicate CountedPlan(p: SavingPlan, userId: string)
  {
    p.userId == userId && p.deletedAt.None?
  }

  function CountedQuery(userId: string): SavingPlan -> bool
  {
    p => CountedPlan(p, userId)
  }

  function CompletedQuery(): SavingPlan -> bool
  {
    (p: SavingPlan) => IsCompleted(p)
  }

  function PlanTarget(): SavingPlan -> real
  {
    (p: SavingPlan) => p.amount
  }

  function PlanSaved(): SavingPlan -> real
  {
    (p: SavingPlan) => p.totalSavedAmount
  }

  /** `saved / target * 100`, or 0 when the target is not positive. The
      rounding to two places is not modelled. */
  function OverallPercentage(saved: real, target: real): (r: real)
    ensures target > 0.0 ==> r * target == 100.0 * saved
    ensures target <= 0.0 ==> r == 0.0
  {
    if target > 0.0 then saved / target * 100.0 else 0.0
  }

  /** get_user_savings_stats: counts and sums over the user's live plans;
      an empty aggregate (SQL NULL) reads as 0. */
  function UserSavingsStats(plans: seq<SavingPlan>, userId: string): SavingPlanStats
  {
    var counted := Filter(plans, CountedQuery(userId));
    var total := |counted|;
    var completed := CountOf(counted, CompletedQuery());
    var target := SumOf(counted, PlanTarget());
    var saved := SumOf(counted, PlanSaved());
    SavingPlanStats(total, total - completed, completed, target, saved, OverallPercentage(saved, target))
  }

  /** The counts partition the user's live plans into active and completed
      ones; the sums are taken over exactly those plans. */
  lemma StatsCounts(plans: seq<SavingPlan>, userId: string)
    ensures var s := UserSavingsStats(plans, userId);
      && s.totalPlans == CountOf(plans, CountedQuery(userId))
      && s.activePlans + s.completedPlans == s.totalPlans
      && 0 <= s.completedPlans <= s.totalPlans
      && 0 <= s.activePlans
  {
  }

  /** Plans of other users and deleted plans do not change the statistics. */
  lemma StatsIgnoreUncountedPlan(plans: seq<SavingPlan>, userId: string, p: SavingPlan)
    requires !CountedPlan(p, userId)
    ensures UserSavingsStats(plans + [p], userId) == UserSavingsStats(plans, userId)
  {
    FilterAppend(plans, p, CountedQuery(userId));
  }

  /** Under the plan table's constraints, every plan's saved amount lies
      between 0 and its target, and so do the sums; the saved sum reaches
      the target sum only when every plan is completed. */
  lemma {:induction false} SumsBounded(s: seq<SavingPlan>)
    requires forall k :: 0 <= k < |s| ==> PlanConstraints(s[k])
    ensures 0.0 <= SumOf(s, PlanSaved()) <= SumOf(s, PlanTarget())
    ensures s != [] ==> SumOf(s, PlanTarget()) > 0.0
    ensures SumOf(s, PlanSaved()) == SumOf(s, PlanTarget()) <==> CountOf(s, CompletedQuery()) == |s|
  {
    if s != [] {
      var t := s[..|s| - 1];
      SumsBounded(t);
    }
  }

  /** Under the constraints the percentage is within the schema's bounds,
      it is 0 with no live plans, and it is 100 exactly when the user has
      live plans and all of them are completed. */
  lemma StatsPercentage(plans: seq<SavingPlan>, userId: string)
    requires forall k :: 0 <= k < |plans| ==> PlanConstraints(plans[k])
    ensures var s := UserSavingsStats(plans, userId);
      && ValidSavingPlanStats(s)
      && (s.totalPlans == 0 ==> s.completionPercentage == 0.0)
      && (s.completionPercentage == 100.0 <==> s.totalPlans > 0 && s.activePlans == 0)
  {
    var counted := Filter(plans, CountedQuery(userId));
    SumsBounded(counted);
    var target := SumOf(counted, PlanTarget());
    var saved := SumOf(counted, PlanSaved());
    var r := OverallPercentage(saved, target);
    if counted != [] {
      assert r * target == 100.0 * saved;
      assert (r - 100.0) * target == 100.0 * (saved - target);
      assert r - 100.0 != 0.0 ==> (r - 100.0) * target != 0.0;
      SignOfFactor(r, target);
      SignOfFactor(r - 100.0, target);
    }
  }

  lemma SignOfFactor(x: real, y: real)
    requires y > 0.0
    ensures x * y >= 0.0 ==> x >= 0.0
    ensures x * y <= 0.0 ==> x <= 0.0
  {
  }

  /** Three fresh plans of one user (500 with 50 saved, 400 with 20 saved,
      300 with 25 saved): none is completed and 95 of 1200 are saved. */
  lemma StatsExample()
    ensures var plans := [SavingPlan(1, "u", "a", 500.0, 10, 50.0, 0, None),
                          SavingPlan(2, "u", "b", 400.0, 20, 20.0, 0, None),
                          SavingPlan(3, "u", "c", 300.0, 12, 25.0, 0, None)];
      UserSavingsStats(plans, "u") == SavingPlanStats(3, 3, 0, 1200.0, 95.0, 95.0 / 12.0)
  {
    var plans := [SavingPlan(1, "u", "a", 500.0, 10, 50.0, 0, None),
                  SavingPlan(2, "u", "b", 400.0, 20, 20.0, 0, None),
                  SavingPlan(3, "u", "c", 300.0, 12, 25.0, 0, None)];
    assert plans[..2][..1] == plans[..1];
    assert Filter(plans[..1], CountedQuery("u")) == plans[..1];
    assert Filter(plans[..2], CountedQuery("u")) == plans[..2];
    assert Filter(plans, CountedQuery("u")) == plans;
    assert CountOf(plans, CompletedQuery()) == 0;
    assert plans[..1][..0] == [];
    assert SumOf(plans[..1], PlanTarget()) == 500.0;
    assert SumOf(plans[..2], PlanTarget()) == 900.0;
    assert SumOf(plans, PlanTarget()) == 1200.0;
    assert SumOf(plans[..1], PlanSaved()) == 50.0;
    assert SumOf(plans[..2], PlanSaved()) == 70.0;
    assert SumOf(plans, PlanSaved()) == 95.0;
  }

  // ------------------------------------------------- get_user_saving_plans

  /** The plans the list query selects. */
  predicate ListedPlan(p: SavingPlan, userId: string, includeDeleted: bool)
  {
    p.userId == userId && (includeDeleted || p.deletedAt.None?)
  }

  function ListedQuery(userId: string, includeDeleted: bool): SavingPlan -> bool
  {
    p => ListedPlan(p, userId, includeDeleted)
  }

  /** ORDER BY date_created DESC; plans created at the same instant keep
      their table order. */
  function NewestFirst(): (SavingPlan, SavingPlan) -> bool
  {
    (p: SavingPlan, q: SavingPlan) => p.dateCreated >= q.dateCreated
  }

  lemma NewestFirstTotalPreorder()
    ensures TotalPreorder(NewestFirst())
  {
  }

  /** OFFSET skip LIMIT limit. */
  function Window<T>(s: seq<T>, skip: nat, limit: nat): (r: seq<T>)
    ensures |r| == if skip >= |s| then 0 else Min(limit, |s| - skip)
    ensures forall k :: 0 <= k < |r| ==> r[k] == s[skip + k]
  {
    if skip >= |s| then [] else s[skip..Min(skip + limit, |s|)]
  }

  /** The plans the list query selects, in the order of the query:
      ORDER BY date_created DESC. */
  function ListedNewestFirst(plans: seq<SavingPlan>, userId: string, includeDeleted: bool): seq<SavingPlan>
  {
    InsertionSort(Filter(plans, ListedQuery(userId, includeDeleted)), NewestFirst())
  }

  /** The ordered listing is a rearrangement of exactly the selected plans,
      newest first. */
  lemma ListedNewestFirstFacts(plans: seq<SavingPlan>, userId: string, includeDeleted: bool)
    ensures var listed := ListedNewestFirst(plans, userId, includeDeleted);
      && multiset(listed) == multiset(Filter(plans, ListedQuery(userId, includeDeleted)))
      && |listed| == CountOf(plans, ListedQuery(userId, includeDeleted))
      && (forall k :: 0 <= k < |listed| ==> listed[k] in plans && ListedPlan(listed[k], userId, includeDeleted))
      && (forall k, m :: 0 <= k < m < |listed| ==> listed[k].dateCreated >= listed[m].dateCreated)
  {
    var f := Filter(plans, ListedQuery(userId, includeDeleted));
    var listed := InsertionSort(f, NewestFirst());
    NewestFirstTotalPreorder();
    InsertionSortSorted(f, NewestFirst());
    forall k | 0 <= k < |listed| ensures listed[k] in plans && ListedPlan(listed[k], userId, includeDeleted) {
      assert listed[k] in multiset(f);
    }
  }

  /** get_user_saving_plans: one page of the user's plans, newest first,
      and the number of plans the filter selects. */
  function UserSavingPlans(plans: seq<SavingPlan>, userId: string, skip: nat, limit: nat, includeDeleted: bool)
    : (seq<SavingPlan>, nat)
  {
    var listed := ListedNewestFirst(plans, userId, includeDeleted);
    (Window(listed, skip, limit), |listed|)
  }

  /** The total counts exactly the plans the filter selects; the page is the
      run of at most `limit` of them that starts at position `skip` of the
      newest-first listing, so each is the user's, live unless deleted plans
      were asked for, and the page is newest first. */
  lemma UserSavingPlansFacts(plans: seq<SavingPlan>, userId: string, skip: nat, limit: nat, includeDeleted: bool)
    ensures var (page, total) := UserSavingPlans(plans, userId, skip, limit, includeDeleted);
      && total == CountOf(plans, ListedQuery(userId, includeDeleted))
      && |page| == (if skip >= total then 0 else Min(limit, total - skip))
      && (forall k :: 0 <= k < |page| ==> page[k] == ListedNewestFirst(plans, userId, includeDeleted)[skip + k])
      && (forall k :: 0 <= k < |page| ==> page[k] in plans && ListedPlan(page[k], userId, includeDeleted))
      && (forall k, m :: 0 <= k < m < |page| ==> page[k].dateCreated >= page[m].dateCreated)
  {
    ListedNewestFirstFacts(plans, userId, includeDeleted);
  }

  /** The first page holds the newest plans: every selected plan left off
      it is no newer than any plan on it. */
  lemma FirstPageIsNewest(plans: seq<SavingPlan>, userId: string, limit: nat, includeDeleted: bool, p: SavingPlan)
    requires p in plans && ListedPlan(p, userId, includeDeleted)
    requires p !in UserSavingPlans(plans, userId, 0, limit, includeDeleted).0
    ensures var page := UserSavingPlans(plans, userId, 0, limit, includeDeleted).0;
      forall k :: 0 <= k < |page| ==> page[k].dateCreated >= p.dateCreated
  {
    var listed := ListedNewestFirst(plans, userId, includeDeleted);
    var page := UserSavingPlans(plans, userId, 0, limit, includeDeleted).0;
    ListedNewestFirstFacts(plans, userId, includeDeleted);
    UserSavingPlansFacts(plans, userId, 0, limit, includeDeleted);
    assert ListedQuery(userId, includeDeleted)(p);
    assert p in multiset(listed);
    assert page == listed[..|page|];
    var j := OutsidePrefix(listed, |page|, p);
    forall k | 0 <= k < |page| ensures page[k].dateCreated >= p.dateCreated {
      assert page[k] == listed[k];
    }
  }

  /** An element of `s` missing from its first `n` elements sits at or
      after position `n`. */
  lemma OutsidePrefix<T>(s: seq<T>, n: nat, x: T) returns (j: nat)
    requires n <= |s| && x in s && x !in s[..n]
    ensures n <= j < |s| && s[j] == x
  {
    assert s == s[..n] + s[n..];
    assert x in s[n..];
    var i :| 0 <= i < |s| - n && s[n..][i] == x;
    j := n + i;
  }

  /** The first page is the head of the newest-first listing, and no
      selected plan left off it is newer than a plan on it. */
  lemma FirstPageIsHead(plans: seq<SavingPlan>, userId: string, limit: nat, includeDeleted: bool)
    ensures var page := UserSavingPlans(plans, userId, 0, limit, includeDeleted).0;
      && (forall k :: 0 <= k < |page| ==> page[k] == ListedNewestFirst(plans, userId, includeDeleted)[k])
      && (forall p :: p in plans && ListedPlan(p, userId, includeDeleted) && p !in page ==>
            forall k :: 0 <= k < |page| ==> page[k].dateCreated >= p.dateCreated)
  {
    UserSavingPlansFacts(plans, userId, 0, limit, includeDeleted);
    var page := UserSavingPlans(plans, userId, 0, limit, includeDeleted).0;
    forall p | p in plans && ListedPlan(p, userId, includeDeleted) && p !in page
      ensures forall k :: 0 <= k < |page| ==> page[k].dateCreated >= p.dateCreated
    {
      FirstPageIsNewest(plans, userId, limit, includeDeleted, p);
    }
  }

  /** Every plan the filter selects appears on the page that starts at its
      place in the newest-first order, so walking the pages misses none. */
  lemma EveryListedPlanHasAPage(plans: seq<SavingPlan>, userId: string, includeDeleted: bool, i: nat, limit: nat)
    requires i < |plans| && ListedPlan(plans[i], userId, includeDeleted) && limit >= 1
    ensures exists skip: nat ::
      && skip < CountOf(plans, ListedQuery(userId, includeDeleted))
      && plans[i] in UserSavingPlans(plans, userId, skip, limit, includeDeleted).0
  {
    var f := Filter(plans, ListedQuery(userId, includeDeleted));
    var listed := ListedNewestFirst(plans, userId, includeDeleted);
    assert ListedQuery(userId, includeDeleted)(plans[i]);
    assert plans[i] in f;
    assert plans[i] in multiset(listed);
    var j :| 0 <= j < |listed| && listed[j] == plans[i];
    var page := Window(listed, j, limit);
    assert page[0] == plans[i];
    assert UserSavingPlans(plans, userId, j, limit, includeDeleted).0 == page;
  }
}
