/** The savings routes (app/api/routes/savings.py): paging metadata of the
    plan list and the HTTP status each service outcome is answered with.
    Request bodies and query parameters that fail validation are answered
    422 before a handler runs. */
module Routes {
  import opened Basics
  import opened SavingsModels
  import opened SavingsSchemas
  import opened Ledger
  import opened Stats
  import opened Schedule

  /** An HTTP answer: the status and, on success, the body. */
  datatype Reply<T> = Reply(status: int, body: Option<T>)

  const Unprocessable := 422

  // ------------------------------------------------------------- the list

  /** The bounds of `skip` and `limit` on the list route. */
  predicate ValidPaging(skip: int, limit: int)
  {
    skip >= 0 && 1 <= limit <= 100
  }

  /** SavingPlanListResponse. */
  datatype PlanList = PlanList(plans: seq<SavingPlan>, total: nat, page: int, size: int, hasNext: bool, hasPrev: bool)

  /** get_saving_plans: one page of the user's plans with its metadata. */
  function GetSavingPlans(plans: seq<SavingPlan>, userId: string, skip: int, limit: int, includeDeleted: bool)
    : Reply<PlanList>
  {
    if !ValidPaging(skip, limit) then Reply(Unprocessable, None)
    else
      var (page, total) := UserSavingPlans(plans, userId, skip, limit, includeDeleted);
      Reply(200, Some(PlanList(page, total, skip / limit + 1, limit, skip + limit < total, skip > 0)))
  }

  /** Paging outside the bounds is refused; inside them the page number is
      the 1-based number of the `limit`-sized page holding row `skip`, the
      size is the limit, there is a next page exactly when rows remain after
      this one (and then this page is full), a page without a next one runs
      to the last row, and there is a previous page exactly when rows were
      skipped. */
  lemma PagingMetadata(plans: seq<SavingPlan>, userId: string, skip: int, limit: int, includeDeleted: bool)
    ensures var r := GetSavingPlans(plans, userId, skip, limit, includeDeleted);
      && (r.status == Unprocessable <==> !ValidPaging(skip, limit))
      && (r.status == Unprocessable ==> r.body.None?)
      && (ValidPaging(skip, limit) ==>
            var l := r.body.value;
            && r.status == 200
            && l.total == CountOf(plans, ListedQuery(userId, includeDeleted))
            && l.page >= 1 && (l.page - 1) * limit <= skip < l.page * limit
            && l.size == limit
            && (l.hasNext <==> skip + limit < l.total)
            && (l.hasNext ==> |l.plans| == limit)
            && (!l.hasNext && skip < l.total ==> skip + |l.plans| == l.total)
            && (l.hasPrev <==> skip > 0))
  {
    if ValidPaging(skip, limit) {
      UserSavingPlansFacts(plans, userId, skip, limit, includeDeleted);
      DivBounds(skip, limit);
    }
  }

  /** The query defaults of the list route: skip 0, limit 10, live plans only. */
  const DefaultSkip := 0
  const DefaultLimit := 10

  /** The list route called with every query parameter left out. */
  function GetSavingPlansByDefault(plans: seq<SavingPlan>, userId: string): Reply<PlanList>
  {
    GetSavingPlans(plans, userId, DefaultSkip, DefaultLimit, false)
  }

  /** With the defaults the route answers the first page of the user's ten
      newest live plans: page 1 of size 10, no previous page, a next page
      exactly when the user has more than ten live plans; the plans are the
      head of the newest-first listing, and every live plan left off is no
      newer than any plan shown. */
  lemma DefaultPaging(plans: seq<SavingPlan>, userId: string)
    ensures var r := GetSavingPlansByDefault(plans, userId);
      && r.status == 200 && r.body.Some?
      && var l := r.body.value;
      && l.page == 1 && l.size == 10 && !l.hasPrev
      && l.total == CountOf(plans, ListedQuery(userId, false))
      && |l.plans| == Min(10, l.total)
      && (l.hasNext <==> l.total > 10)
      && (forall k :: 0 <= k < |l.plans| ==>
            l.plans[k] in plans && l.plans[k].userId == userId && l.plans[k].deletedAt.None?)
      && (forall k :: 0 <= k < |l.plans| ==> l.plans[k] == ListedNewestFirst(plans, userId, false)[k])
      && (forall p :: p in plans && ListedPlan(p, userId, false) && p !in l.plans ==>
            forall k :: 0 <= k < |l.plans| ==> l.plans[k].dateCreated >= p.dateCreated)
  {
    UserSavingPlansFacts(plans, userId, DefaultSkip, DefaultLimit, false);
    FirstPageIsHead(plans, userId, DefaultLimit, false);
  }

  lemma DivBounds(x: int, y: int)
    requires x >= 0 && y >= 1
    ensures (x / y) * y <= x < (x / y + 1) * y
  {
  }

  /** Stepping `skip` by `limit` from an aligned start walks the pages in
      order: skipping `n` whole pages lands on page `n + 1`. */
  lemma AlignedPages(plans: seq<SavingPlan>, userId: string, n: nat, limit: int, includeDeleted: bool)
    requires 1 <= limit <= 100
    ensures GetSavingPlans(plans, userId, n * limit, limit, includeDeleted).body.value.page == n + 1
  {
    DivUnique(n * limit, limit, n);
  }

  /** The quotient is the one whole multiple that brackets the dividend. */
  lemma DivUnique(x: int, y: int, q: int)
    requires x >= 0 && y >= 1 && q * y <= x < (q + 1) * y
    ensures x / y == q
  {
    var d := x / y;
    DivBounds(x, y);
    if d < q {
      MulMono(d + 1, q, y);
    } else if d > q {
      MulMono(q + 1, d, y);
    }
  }

  lemma MulMono(a: int, b: int, y: int)
    requires a <= b && y >= 0
    ensures a * y <= b * y
  {
    assert b * y - a * y == (b - a) * y;
  }

  // ------------------------------------------------------ service outcomes

  /** create_saving_plan: 201 with the plan; a ValueError is a bad request
      and any other failure an internal error. */
  function CreatePlanReply(r: Result<SavingPlan, ServiceError>): Reply<SavingPlan>
  {
    match r
    case Ok(plan) => Reply(201, Some(plan))
    case Err(WeekIndexExceedsDuration(_, _)) => Reply(400, None)
    case Err(IntegrityViolation) => Reply(500, None)
  }

  /** The creation route: a body outside the schema is refused before the
      service runs; otherwise the service outcome, answered as above. */
  method CreateSavingPlanRoute(db: SavingsDb, userId: string, d: SavingPlanCreate, now: Instant)
    returns (reply: Reply<SavingPlan>)
    requires db.Valid()
    modifies db
    ensures db.Valid()
    ensures !ValidSavingPlanCreate(d) ==>
      reply == Reply(Unprocessable, None) && db.plans == old(db.plans) && db.amounts == old(db.amounts)
    ensures ValidSavingPlanCreate(d) ==>
      var out := PlanCreated(old(db.plans), old(db.amounts), userId, d, now);
      db.plans == out.plans && db.amounts == out.amounts && reply == CreatePlanReply(out.result)
  {
    if !ValidSavingPlanCreate(d) {
      return Reply(Unprocessable, None);
    }
    var result := CreateSavingPlan(db, userId, d, now);
    reply := CreatePlanReply(result);
  }

  /** A valid creation request is answered 400 exactly when one of its
      amounts names a week beyond the duration, and 201 or 500 otherwise. */
  lemma CreateReplyStatus(plans: seq<SavingPlan>, a: seq<WeeklyAmount>, userId: string, d: SavingPlanCreate,
                          now: Instant)
    ensures var reply := CreatePlanReply(PlanCreated(plans, a, userId, d, now).result);
      && (reply.status == 400 <==>
            exists k :: 0 <= k < |RequestedAmounts(d)| && ExceedsDuration(RequestedAmounts(d)[k], d.numberOfWeeks))
      && reply.status in {201, 400, 500}
      && (reply.status == 201 <==> reply.body.Some?)
  {
    CreateRejectsWeekBeyondDuration(plans, a, userId, d, now);
  }

  /** A lookup route: a missing result is not found. */
  function FoundReply<T>(r: Option<T>): Reply<T>
  {
    if r.Some? then Reply(200, r) else Reply(404, None)
  }

  /** A weekly-amount route: a failure is an internal error, a missing row
      not found. */
  function AmountReply(r: Result<Option<WeeklyAmount>, ServiceError>): Reply<WeeklyAmount>
  {
    match r
    case Err(_) => Reply(500, None)
    case Ok(found) => FoundReply(found)
  }

  /** The delete route: no content, or not found. */
  function DeleteReply(deleted: bool): Reply<bool>
  {
    if deleted then Reply(204, None) else Reply(404, None)
  }

  /** The schedule route as written: the raising behind branch surfaces as
      an internal error. */
  function ScheduleReplyAsWritten(r: Result<Option<ScheduleStatus>, ScheduleFault>): Reply<ScheduleStatus>
  {
    match r
    case Err(_) => Reply(500, None)
    case Ok(found) => FoundReply(found)
  }

  /** The schedule route answers 404 exactly for a plan that is not the
      user's live plan; as written it answers 500 exactly for a plan that is
      behind and otherwise what the intended evaluator gives. */
  lemma ScheduleRouteStatus(plans: seq<SavingPlan>, a: seq<WeeklyAmount>, planId: int, userId: string, now: Instant)
    ensures var intended := FoundReply(PlanScheduleStatus(plans, a, planId, userId, now));
      var written := ScheduleReplyAsWritten(PlanScheduleStatusAsWritten(plans, a, planId, userId, now));
      && (intended.status == 404 <==> FindActivePlan(plans, planId, userId).None?)
      && (intended.status == 200 <==> FindActivePlan(plans, planId, userId).Some?)
      && (written.status == 500 <==>
            PlanScheduleStatus(plans, a, planId, userId, now).Some? &&
            PlanScheduleStatus(plans, a, planId, userId, now).value.status == Behind)
      && (written.status != 500 ==> written == intended)
  {
    PlanScheduleAsWrittenRaisesIffBehind(plans, a, planId, userId, now);
  }

  /** The delete route answers 204 exactly when the user's live plan was
      there to delete. */
  lemma DeleteRouteStatus(plans: seq<SavingPlan>, a: seq<WeeklyAmount>, planId: int, userId: string, now: Instant)
    ensures var out := PlanDeleted(plans, a, planId, userId, now);
      && out.result.Ok?
      && (DeleteReply(out.result.value).status == 204 <==> FindActivePlan(plans, planId, userId).Some?)
      && (DeleteReply(out.result.value).status == 404 ==> out.plans == plans && out.amounts == a)
  {
  }

  /** The update route: a body outside the schema is refused, otherwise
      the service's outcome is answered by AmountReply. */
  method UpdateWeeklyAmountRoute(db: SavingsDb, id: int, userId: string, upd: WeeklyAmountUpdate, now: Instant)
    returns (reply: Reply<WeeklyAmount>)
    requires db.Valid()
    modifies db
    ensures db.Valid()
    ensures !ValidWeeklyAmountUpdate(upd) ==>
      reply == Reply(Unprocessable, None) && db.plans == old(db.plans) && db.amounts == old(db.amounts)
    ensures ValidWeeklyAmountUpdate(upd) ==>
      var out := WeeklyAmountUpdated(old(db.plans), old(db.amounts), id, userId, upd, now);
      db.plans == out.plans && db.amounts == out.amounts && reply == AmountReply(out.result)
  {
    if !ValidWeeklyAmountUpdate(upd) {
      return Reply(Unprocessable, None);
    }
    var result := UpdateWeeklyAmount(db, id, userId, upd, now);
    reply := AmountReply(result);
  }

  /** The select route: exactly the update that sends only `selected`. */
  method SelectWeeklyAmount(db: SavingsDb, id: int, userId: string, selected: bool, now: Instant)
    returns (reply: Reply<WeeklyAmount>)
    requires db.Valid()
    modifies db
    ensures db.Valid()
    ensures var out := WeeklyAmountUpdated(old(db.plans), old(db.amounts), id, userId,
                                           WeeklyAmountUpdate(None, Some(selected)), now);
      db.plans == out.plans && db.amounts == out.amounts && reply == AmountReply(out.result)
  {
    var result := UpdateWeeklyAmount(db, id, userId, WeeklyAmountUpdate(None, Some(selected)), now);
    reply := AmountReply(result);
  }

  /** Selecting answers 404 exactly when the user owns no live row with this
      id; a 200 carries the row with the requested flag and its new rank
      (none when deselected), and every answer is 200, 404 or 500. */
  lemma SelectRouteStatus(plans: seq<SavingPlan>, a: seq<WeeklyAmount>, id: int, userId: string, selected: bool,
                          now: Instant)
    ensures var out := WeeklyAmountUpdated(plans, a, id, userId, WeeklyAmountUpdate(None, Some(selected)), now);
      var reply := AmountReply(out.result);
      && reply.status in {200, 404, 500}
      && (reply.status == 404 <==> FindOwnedAmount(plans, a, id, userId).None?)
      && (reply.status == 200 ==>
            && reply.body.Some?
            && reply.body.value.selected == selected
            && (reply.body.value.weekIndex.Some? <==> selected))
  {
    var upd := WeeklyAmountUpdate(None, Some(selected));
    UpdateNotFound(plans, a, id, userId, upd, now);
    match FindOwnedAmount(plans, a, id, userId)
    case None =>
    case Some(i) =>
      UpdateSelection(plans, a, id, userId, upd, now, i);
  }
}
