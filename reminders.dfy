/** The weekly reminder batch (app/services/reminder_service.py): which
    users are eligible, the loop that counts sent and failed reminders
    without stopping at a failing user, and the per-user send with its
    failure paths. Email delivery itself is a parameter: whether email is
    enabled in the settings and whether the mail transport delivers. */
module Reminders {
  import opened Basics
  import opened SavingsModels
  import opened SavingsSchemas
  import opened Stats
  import opened ReminderContent
  import opened Users

  // ------------------------------------------------------------ eligibility

  /** The conditions of the user query. `email IS NOT NULL` always holds:
      the column is not nullable. */
  predicate QueryMatches(u: User)
    reads u
  {
    u.isActive && u.deletedAt.None? && u.emailNotifications
  }

  /** The user owns a plan that is not deleted (`user.saving_plans` are the
      plans carrying the user's id). */
  predicate HasLivePlan(plans: seq<SavingPlan>, userId: string)
  {
    exists k :: 0 <= k < |plans| && plans[k].userId == userId && plans[k].deletedAt.None?
  }

  predicate Eligible(u: User, plans: seq<SavingPlan>)
    reads u
  {
    QueryMatches(u) && HasLivePlan(plans, u.id)
  }

  /** The rows the user query returns, in table order. */
  function QueriedUsers(users: seq<User>): (r: seq<User>)
    reads users
    ensures |r| <= |users|
    ensures forall k :: 0 <= k < |r| ==> r[k] in users && QueryMatches(r[k])
    ensures forall i :: 0 <= i < |users| && QueryMatches(users[i]) ==> users[i] in r
  {
    if users == [] then []
    else
      var last := users[|users| - 1];
      var front := users[..|users| - 1];
      assert forall i :: 0 <= i < |front| ==> front[i] == users[i];
      QueriedUsers(front) + if QueryMatches(last) then [last] else []
  }

  /** The queried users that own a live plan, in order. */
  function WithLivePlan(users: seq<User>, plans: seq<SavingPlan>): (r: seq<User>)
    reads users
    ensures |r| <= |users|
    ensures forall k :: 0 <= k < |r| ==> r[k] in users && HasLivePlan(plans, r[k].id)
    ensures forall i :: 0 <= i < |users| && HasLivePlan(plans, users[i].id) ==> users[i] in r
  {
    if users == [] then []
    else
      var last := users[|users| - 1];
      var front := users[..|users| - 1];
      assert forall i :: 0 <= i < |front| ==> front[i] == users[i];
      WithLivePlan(front, plans) + if HasLivePlan(plans, last.id) then [last] else []
  }

  function EligibleUsers(users: seq<User>, plans: seq<SavingPlan>): seq<User>
    reads users
  {
    WithLivePlan(QueriedUsers(users), plans)
  }

  /** A user is in the batch exactly when the user is active, not deleted,
      wants notifications and owns a live plan. */
  lemma EligibleUsersIff(users: seq<User>, plans: seq<SavingPlan>, u: User)
    ensures u in EligibleUsers(users, plans) <==> u in users && Eligible(u, plans)
    ensures |EligibleUsers(users, plans)| <= |users|
  {
  }

  /** _get_eligible_users: the query, then the loop keeping the users with
      a live plan. */
  method GetEligibleUsers(users: seq<User>, plans: seq<SavingPlan>) returns (eligible: seq<User>)
    ensures eligible == EligibleUsers(users, plans)
  {
    var all := QueriedUsers(users);
    eligible := [];
    var k := 0;
    while k < |all|
      invariant 0 <= k <= |all|
      invariant eligible == WithLivePlan(all[..k], plans)
    {
      assert all[..k + 1][..k] == all[..k];
      var user := all[k];
      var hasLive := exists m :: 0 <= m < |plans| && plans[m].userId == user.id && plans[m].deletedAt.None?;
      if hasLive {
        eligible := eligible + [user];
      }
      k := k + 1;
    }
    assert all[..k] == all;
  }

  // --------------------------------------------------------------- the loop

  /** How the attempt for one user ends: the send reported success, it
      reported failure, or it raised. */
  datatype SendOutcome = Sent | NotSent | Raised

  function SentQuery(): SendOutcome -> bool
  {
    (o: SendOutcome) => o.Sent?
  }

  /** The outcome of a send that returns without raising. */
  function OutcomeOf(success: bool): SendOutcome
  {
    if success then Sent else NotSent
  }

  /** The counting loop of send_weekly_reminders over the outcome of each
      eligible user's attempt, in order: every user is counted exactly once,
      as a success when the send succeeded and as an error otherwise, and a
      raising user does not stop the loop. */
  method SendWeeklyReminders(outcomes: seq<SendOutcome>) returns (successCount: nat, errorCount: nat)
    ensures successCount == CountOf(outcomes, SentQuery())
    ensures successCount + errorCount == |outcomes|
  {
    successCount, errorCount := 0, 0;
    var k := 0;
    while k < |outcomes|
      invariant 0 <= k <= |outcomes|
      invariant successCount == CountOf(outcomes[..k], SentQuery())
      invariant successCount + errorCount == k
    {
      assert outcomes[..k + 1] == outcomes[..k] + [outcomes[k]];
      CountOfAppend(outcomes[..k], outcomes[k], SentQuery());
      match outcomes[k] {
        case Sent =>
          successCount := successCount + 1;
        case NotSent =>
          errorCount := errorCount + 1;
        case Raised =>
          errorCount := errorCount + 1;
      }
      k := k + 1;
    }
    assert outcomes[..k] == outcomes;
  }

  /** A batch where every send fails reports no success and one error per
      user; one where every send succeeds reports no error. */
  lemma {:induction false} UniformBatch(outcomes: seq<SendOutcome>)
    ensures (forall k :: 0 <= k < |outcomes| ==> !outcomes[k].Sent?) ==> CountOf(outcomes, SentQuery()) == 0
    ensures (forall k :: 0 <= k < |outcomes| ==> outcomes[k].Sent?) ==> CountOf(outcomes, SentQuery()) == |outcomes|
  {
    if outcomes != [] {
      var front := outcomes[..|outcomes| - 1];
      UniformBatch(front);
      assert forall k :: 0 <= k < |front| ==> front[k] == outcomes[k];
    }
  }

  // ---------------------------------------------------------- sending one

  /** Why the per-user send raises. */
  datatype SendFault = TupleAttributeError  // `.get` called on the (plans, total) tuple

  /** `savings_plans.get('plans', [])` on what get_user_saving_plans returns:
      a tuple, which has no `get`. */
  function ListingPlans(listing: (seq<SavingPlan>, nat)): Result<seq<SavingPlan>, SendFault>
  {
    Err(TupleAttributeError)
  }

  /** send_weekly_reminder: false when email is disabled or the context
      cannot be built, otherwise what the transport reports. */
  function SendWeeklyReminder(emailEnabled: bool, delivered: bool, context: Result<ReminderContext, ContextFault>)
    : bool
  {
    emailEnabled && context.Ok? && delivered
  }

  /** _send_user_reminder as written: any exception becomes false. */
  function SendUserReminderAsWritten(firstName: string, userId: string, plans: seq<SavingPlan>, now: Instant,
                                     emailEnabled: bool, delivered: bool): bool
  {
    match ListingPlans(UserSavingPlans(plans, userId, 0, 100, false))
    case Err(_) => false
    case Ok(page) =>
      SendWeeklyReminder(emailEnabled, delivered,
                         ReminderContextAsWritten(firstName, page, StatsRecord(UserSavingsStats(plans, userId)), now))
  }

  /** The send as evidently intended: the first page of up to 100 live
      plans, newest first, and the user's statistics feed the context. */
  function SendUserReminder(firstName: string, userId: string, plans: seq<SavingPlan>, now: Instant,
                            emailEnabled: bool, delivered: bool): bool
  {
    var page := UserSavingPlans(plans, userId, 0, 100, false).0;
    SendWeeklyReminder(emailEnabled, delivered,
                       Ok(ContextForStats(firstName, page, UserSavingsStats(plans, userId), now)))
  }

  /** As written no reminder is ever sent: the tuple lookup raises, and even
      with the plans taken from the tuple the statistics record raises in
      the context builder. The intended send succeeds exactly when email is
      enabled and the transport delivers. */
  lemma ReminderAsWrittenNeverSends(firstName: string, userId: string, plans: seq<SavingPlan>, now: Instant,
                                    emailEnabled: bool, delivered: bool)
    ensures !SendUserReminderAsWritten(firstName, userId, plans, now, emailEnabled, delivered)
    ensures var page := UserSavingPlans(plans, userId, 0, 100, false).0;
      !SendWeeklyReminder(emailEnabled, delivered,
                          ReminderContextAsWritten(firstName, page, StatsRecord(UserSavingsStats(plans, userId)), now))
    ensures SendUserReminder(firstName, userId, plans, now, emailEnabled, delivered) <==> emailEnabled && delivered
  {
    RecordStatsAlwaysFail(firstName, UserSavingPlans(plans, userId, 0, 100, false).0,
                          UserSavingsStats(plans, userId), now);
  }

  /** The intended reminder speaks of the user's 100 newest live plans (all
      of them when there are no more than 100): the head of the newest-first
      listing, with every live plan left off no newer than any included. */
  lemma SendUserReminderContext(firstName: string, userId: string, plans: seq<SavingPlan>, now: Instant)
    ensures var (page, total) := UserSavingPlans(plans, userId, 0, 100, false);
      && |page| == Min(100, total)
      && total == CountOf(plans, ListedQuery(userId, false))
      && (forall k :: 0 <= k < |page| ==> page[k] in plans && page[k].userId == userId && page[k].deletedAt.None?)
      && (forall k :: 0 <= k < |page| ==> page[k] == ListedNewestFirst(plans, userId, false)[k])
      && (forall p :: p in plans && ListedPlan(p, userId, false) && p !in page ==>
            forall k :: 0 <= k < |page| ==> page[k].dateCreated >= p.dateCreated)
      && ContextForStats(firstName, page, UserSavingsStats(plans, userId), now).totalPlans == |page|
  {
    UserSavingPlansFacts(plans, userId, 0, 100, false);
    FirstPageIsHead(plans, userId, 100, false);
    var page := UserSavingPlans(plans, userId, 0, 100, false).0;
    ContextCoversLivePlans(firstName, page, UserSavingsStats(plans, userId), now);
    LiveCountOfLivePage(page);
  }

  /** A page of live plans is all live. */
  lemma {:induction false} LiveCountOfLivePage(page: seq<SavingPlan>)
    requires forall k :: 0 <= k < |page| ==> page[k].deletedAt.None?
    ensures CountOf(page, LivePlanQuery()) == |page|
  {
    if page != [] {
      var front := page[..|page| - 1];
      assert forall k :: 0 <= k < |front| ==> front[k] == page[k];
      LiveCountOfLivePage(front);
    }
  }

  /** The batch as written: every eligible user's attempt ends in a failed
      send, so the run reports no success and one error per user. */
  lemma AsWrittenBatchSendsNothing(users: seq<User>, plans: seq<SavingPlan>, now: Instant,
                                   emailEnabled: bool, delivered: bool, outcomes: seq<SendOutcome>)
    requires |outcomes| == |users|
    requires forall k :: 0 <= k < |users| ==>
      outcomes[k] == OutcomeOf(SendUserReminderAsWritten(users[k].firstName, users[k].id, plans, now,
                                                         emailEnabled, delivered))
    ensures CountOf(outcomes, SentQuery()) == 0
  {
    forall k | 0 <= k < |outcomes| ensures !outcomes[k].Sent? {
      ReminderAsWrittenNeverSends(users[k].firstName, users[k].id, plans, now, emailEnabled, delivered);
    }
    UniformBatch(outcomes);
  }

  /** The outcome of one eligible user's attempt, as written or as
      intended; `delivered` says, per user id, whether the transport
      delivers. */
  function UserOutcome(u: User, plans: seq<SavingPlan>, now: Instant, emailEnabled: bool,
                       delivered: string -> bool, asWritten: bool): SendOutcome
    reads u
  {
    OutcomeOf(
      if asWritten then SendUserReminderAsWritten(u.firstName, u.id, plans, now, emailEnabled, delivered(u.id))
      else SendUserReminder(u.firstName, u.id, plans, now, emailEnabled, delivered(u.id)))
  }

  /** The outcomes of the users' attempts, in order. */
  function BatchOutcomes(us: seq<User>, plans: seq<SavingPlan>, now: Instant, emailEnabled: bool,
                         delivered: string -> bool, asWritten: bool): (r: seq<SendOutcome>)
    reads us
    ensures |r| == |us|
    ensures forall k :: 0 <= k < |us| ==> r[k] == UserOutcome(us[k], plans, now, emailEnabled, delivered, asWritten)
  {
    seq(|us|, k reads us requires 0 <= k < |us| => UserOutcome(us[k], plans, now, emailEnabled, delivered, asWritten))
  }

  /** send_weekly_reminders: the eligible users are fetched, each one's
      reminder is attempted, and the loop counts every eligible user once,
      as a success exactly when the attempt sent. `BatchCounts` says what
      these counts are as written and as intended. */
  method RunWeeklyReminders(users: seq<User>, plans: seq<SavingPlan>, now: Instant, emailEnabled: bool,
                            delivered: string -> bool, asWritten: bool)
    returns (successCount: nat, errorCount: nat)
    ensures successCount + errorCount == |EligibleUsers(users, plans)|
    ensures successCount ==
      CountOf(BatchOutcomes(EligibleUsers(users, plans), plans, now, emailEnabled, delivered, asWritten), SentQuery())
  {
    var eligible := GetEligibleUsers(users, plans);
    var outcomes := BatchOutcomes(eligible, plans, now, emailEnabled, delivered, asWritten);
    successCount, errorCount := SendWeeklyReminders(outcomes);
    assert eligible == EligibleUsers(users, plans);
    assert outcomes == BatchOutcomes(eligible, plans, now, emailEnabled, delivered, asWritten);
  }

  /** The counts of a run over `us`: none sent as written or with email
      disabled, none failed as intended when every transport delivers. */
  lemma BatchCounts(us: seq<User>, plans: seq<SavingPlan>, now: Instant, emailEnabled: bool,
                    delivered: string -> bool, asWritten: bool, successCount: nat, errorCount: nat)
    requires successCount + errorCount == |us|
    requires successCount == CountOf(BatchOutcomes(us, plans, now, emailEnabled, delivered, asWritten), SentQuery())
    ensures asWritten || !emailEnabled ==> successCount == 0
    ensures !asWritten && emailEnabled && (forall k :: 0 <= k < |us| ==> delivered(us[k].id)) ==> errorCount == 0
  {
    BatchOutcomesFacts(us, plans, now, emailEnabled, delivered, asWritten);
  }

  /** One attempt sends exactly when it is the intended send, email is
      enabled and the transport delivers. */
  lemma UserOutcomeSent(u: User, plans: seq<SavingPlan>, now: Instant, emailEnabled: bool,
                        delivered: string -> bool, asWritten: bool)
    ensures UserOutcome(u, plans, now, emailEnabled, delivered, asWritten).Sent?
      <==> !asWritten && emailEnabled && delivered(u.id)
  {
    ReminderAsWrittenNeverSends(u.firstName, u.id, plans, now, emailEnabled, delivered(u.id));
  }

  /** A batch sends nothing as written or with email disabled, and
      everything as intended when every transport delivers. */
  lemma BatchOutcomesFacts(us: seq<User>, plans: seq<SavingPlan>, now: Instant, emailEnabled: bool,
                           delivered: string -> bool, asWritten: bool)
    ensures var o := BatchOutcomes(us, plans, now, emailEnabled, delivered, asWritten);
      && (asWritten || !emailEnabled ==> CountOf(o, SentQuery()) == 0)
      && (!asWritten && emailEnabled && (forall k :: 0 <= k < |us| ==> delivered(us[k].id))
          ==> CountOf(o, SentQuery()) == |o|)
  {
    var o := BatchOutcomes(us, plans, now, emailEnabled, delivered, asWritten);
    forall k | 0 <= k < |o|
      ensures o[k].Sent? <==> !asWritten && emailEnabled && delivered(us[k].id)
    {
      UserOutcomeSent(us[k], plans, now, emailEnabled, delivered, asWritten);
    }
    UniformBatch(o);
  }

  // -------------------------------------------------------- test reminder

  /** The position of the user with id `userId`, deleted or not. */
  function UserIndex(users: seq<User>, userId: string): (r: Option<nat>)
    reads users
    ensures r.Some? ==> r.value < |users| && users[r.value].id == userId
    ensures r.None? ==> forall k :: 0 <= k < |users| ==> users[k].id != userId
  {
    if users == [] then None
    else if users[0].id == userId then Some(0)
    else match UserIndex(users[1..], userId)
      case None => None
      case Some(i) => Some(i + 1)
  }

  /** send_test_reminder: false for an unknown id, otherwise the per-user
      send, as written or as intended. */
  function SendTestReminder(users: seq<User>, userId: string, plans: seq<SavingPlan>, now: Instant,
                            emailEnabled: bool, delivered: bool, asWritten: bool): bool
    reads users
  {
    match UserIndex(users, userId)
    case None => false
    case Some(i) =>
      if asWritten then SendUserReminderAsWritten(users[i].firstName, userId, plans, now, emailEnabled, delivered)
      else SendUserReminder(users[i].firstName, userId, plans, now, emailEnabled, delivered)
  }

  /** An unknown id sends nothing; a known one sends, as intended, exactly
      when email is enabled and the transport delivers, and as written
      never. */
  lemma SendTestReminderFacts(users: seq<User>, userId: string, plans: seq<SavingPlan>, now: Instant,
                              emailEnabled: bool, delivered: bool)
    ensures UserIndex(users, userId).None? ==>
      !SendTestReminder(users, userId, plans, now, emailEnabled, delivered, false)
    ensures !SendTestReminder(users, userId, plans, now, emailEnabled, delivered, true)
    ensures SendTestReminder(users, userId, plans, now, emailEnabled, delivered, false) <==>
      (exists k :: 0 <= k < |users| && users[k].id == userId) && emailEnabled && delivered
  {
    match UserIndex(users, userId)
    case None =>
    case Some(i) =>
      ReminderAsWrittenNeverSends(users[i].firstName, userId, plans, now, emailEnabled, delivered);
  }
}
