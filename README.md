# money-saver: a verified model of the savings ledger and progress engine

This project models the core of a personal-savings service. A user owns
saving plans: a target amount over a number of weeks. Each plan is broken
into weekly amounts that the user marks as saved.

The model covers:

- **Weekly-amount ledger.** The service keeps the selected weekly amounts
  numbered 1, 2, ... in the order they were selected. It keeps each plan's
  saved total in step with those amounts. Creating a plan checks its weeks
  against the duration, and deleting a plan cascades a soft delete to its
  amounts.
- **Schedule evaluator.** It classifies a plan as completed, ahead,
  on-track or behind, with the week counts and the next due date.
- **Statistics and paging.** The per-user statistics rollup and the paging
  metadata of the plan list.
- **Reminder content.** The weekly reminder e-mail's content: per-plan lag,
  the cross-plan maximum and catch-up amount, and the tiered motivation and
  catch-up suggestion. Also the reminder batch, which filters eligible users
  and counts successes and errors.
- **Validators and small string logic.** The request-schema and table-column
  bounds, the `Bearer <token>` header parsing, and the authentication
  fallback. Also how a user's name is derived from the identity provider's
  metadata, and the user record's derived properties.

The files, by what they model:

| file | module | models |
|---|---|---|
| `basics.dfy` | `Basics` | Option/Result, and sums, counts, filters and an insertion sort over sequences, with their lemmas |
| `savings_models.dfy` | `SavingsModels` | the `saving_plans` and `weekly_amounts` rows, their derived properties and constraints, and the store class `SavingsDb` |
| `savings_schemas.dfy` | `SavingsSchemas` | request and response schemas, as validity predicates |
| `ranking.dfy` | `Ranking` | the week-index renumbering as a function of the table |
| `ledger.dfy` | `Ledger` | the savings service's state-changing operations, as methods on `SavingsDb` proved against pure functions of the old state |
| `schedule.dfy` | `Schedule` | the schedule-status evaluator |
| `stats.dfy` | `Stats` | the statistics rollup and the plan list's filter, order and slice |
| `reminder_content.dfy` | `ReminderContent` | the reminder e-mail's context builder |
| `reminders.dfy` | `Reminders` | the reminder service |
| `users.dfy` | `Users` | the user record (a class) and the user sync |
| `auth.dfy` | `Auth` | the authentication dependencies |
| `routes.dfy` | `Routes` | the savings routes' paging metadata, and the HTTP status given for each service outcome |

How the source's state and types appear in the model:

- **Store.** The two database tables are the `seq` fields of
  `SavingsDb`. A service call that changes them is a `method` with
  `modifies db`. Its `ensures` equates the new tables, and the result, with
  a pure function of the old tables. The lemmas state the service's promises
  about that function.
- **Loops.** Loops in the source that update records in place or accumulate
  values are `while` loops with invariants. These are the renumbering, the
  reminder-context accumulator, the eligibility filter, the batch counter and
  the required-field check.
- **Users.** A user row is a `class`, since the sync updates its fields in
  place.
- **Time.** Times are whole seconds since the epoch (`Instant`), passed in as
  parameters.
- **Numbers.** Money and percentages are `real`.

One place where the code contradicts its own evident intent:

- **The behind branch.** In `get_plan_schedule_status`, the ahead and
  on-track branches (app/services/savings_service.py:482-504) build a
  `ScheduleStatus` with a `next_due_date` from `timedelta(...)`, and the
  behind branch (508-518) is written the same way. But line 517 calls
  `datetime.timedelta`, and line 6 imports the class `datetime`, which has no
  attribute `timedelta`. So the behind branch raises `AttributeError` instead
  of answering. `Schedule` models both (see Findings).

## Model

| member | source | states |
|---|---|---|
| SavingsModels.CompletionPercentage | app/models/savings.py:116-120 | a plan with a zero target is 0 % complete; otherwise the percentage times the target is 100 times the saved total |
| SavingsModels.RemainingAmount | app/models/savings.py:128-130 | the remaining amount is never negative and is either 0 or target minus saved |
| SavingsModels.IsCompleted | app/models/savings.py:123-125 | a plan is completed once its saved total reaches the target; `CompletedIffNothingRemains` ties it to the remaining amount |
| SavingsModels.PlanIsDeleted | app/models/savings.py:110-113 | a plan is deleted exactly when it has a deletion time; `SavingsModels.SavingsDb.SoftDeletePlan` makes it so |
| SavingsModels.AmountIsDeleted | app/models/savings.py:228-231 | an amount is deleted exactly when it has a deletion time; `SavingsModels.SavingsDb.SoftDeleteAmount` makes it so |
| SavingsModels.PlanConstraints | app/models/savings.py:93-97 | the plan table's check constraints: a positive target, 1 to 104 weeks, a saved total from 0 up to the target |
| SavingsModels.AmountConstraints | app/models/savings.py:211-212 | the amount table's check constraints: a positive amount, and a week index that is null or positive |
| SavingsModels.WeekIndicesUnique | app/models/savings.py:222 | the partial unique index: no two rows of one plan share a non-null week index; `Ranking.RerankedKeepsWeekIndicesUnique` shows renumbering keeps it |
| SavingsModels.CompletedIffNothingRemains | app/models/savings.py:123-130 | a plan is completed exactly when nothing remains to save |
| SavingsModels.CompletionPercentageBounds | app/models/savings.py:94-120 | under the table's check constraints the completion percentage lies in 0..100 and is 100 exactly when the plan is completed |
| SavingsModels.SavingsDb.SoftDeletePlan | app/models/savings.py:132-134 | the plan row gets `deleted_at = now` and nothing else in either table changes |
| SavingsModels.SavingsDb.MarkAsSaved | app/models/savings.py:233-236 | the amount becomes selected and stamped with now; nothing else changes |
| SavingsModels.SavingsDb.UnmarkAsSaved | app/models/savings.py:238-241 | the amount becomes unselected with no stamp; nothing else changes |
| SavingsModels.SavingsDb.SoftDeleteAmount | app/models/savings.py:243-244 | the amount gets `deleted_at = now` and nothing else changes |
| SavingsSchemas.WeeklyAmountCreateOf | app/schemas/savings.py:14-16 | an absent `selected` defaults to false; amount and week index are taken as given |
| SavingsSchemas.UpdateBoundsAreCreateBounds | app/schemas/savings.py:43-60 | a plan update keeps a valid plan valid exactly when every field it sends meets the create bounds |
| SavingsSchemas.StatusName | app/schemas/savings.py:103-108 | the status is one of the four strings |
| SavingsSchemas.ValidWeeklyAmountCreate | app/schemas/savings.py:12-21 | a weekly amount in a creation request has a positive amount and a week index that is absent or in 1..104; through `ValidSavingPlanCreate`, `Ledger.CreatedPlanFacts` shows a valid request stores amount rows that meet the table constraints |
| SavingsSchemas.ValidWeeklyAmountUpdate | app/schemas/savings.py:24-27 | an amount update is valid when the amount it sends is positive; `Routes.UpdateWeeklyAmountRoute` answers 422 exactly when it is not |
| SavingsSchemas.ValidSavingPlanCreate | app/schemas/savings.py:41-53 | a name of 1 to 200 characters, a positive target, 1 to 104 weeks, and valid weekly amounts; `Routes.CreateSavingPlanRoute` answers 422 exactly when it is not met |
| SavingsSchemas.ValidSavingPlanUpdate | app/schemas/savings.py:56-60 | each field sent meets the creation bound; `SavingsSchemas.UpdateBoundsAreCreateBounds` states it |
| SavingsSchemas.ValidSavingPlanStats | app/schemas/savings.py:91-98 | the completion percentage lies in 0..100; `Stats.StatsPercentage` shows the statistics meet it |
| SavingsSchemas.ValidScheduleStatus | app/schemas/savings.py:101-110 | the five week counts are non-negative; `Schedule.ClassifyValid` shows every classification meets it |
| Ranking.SelectionOrderFacts | app/services/savings_service.py:279-287 | the selected-amounts query returns every saved row of the plan exactly once, sorted by selection date (missing dates last, ties in table order) |
| Ranking.SavedCount | app/services/savings_service.py:459 | the number of the plan's live selected amounts, at most the table's length; `Ranking.SelectionOrderFacts` shows the query returns that many rows |
| Ranking.SelectionOrder | app/services/savings_service.py:279-290 | the positions of the plan's saved rows in query order; `Ranking.SelectionOrderFacts` states it |
| Ranking.Reranked | app/services/savings_service.py:279-314 | renumbering changes only week indices; rows outside the plan and deleted rows are untouched; live unselected rows lose their index |
| Ranking.RerankedIndexInRange | app/services/savings_service.py:279-295 | every saved row gets an index from 1 to the number of saved rows |
| Ranking.RerankedIndicesDistinct | app/services/savings_service.py:279-295 | no two saved rows of the plan share an index |
| Ranking.RerankedIndicesCover | app/services/savings_service.py:279-295 | every index 1..k (k saved rows) is given to some saved row, so the indices are exactly 1..k |
| Ranking.RerankedFollowsSelectionOrder | app/services/savings_service.py:279-295 | a row ahead in the query order gets the smaller index |
| Ranking.RerankedEarlierSelectionFirst | app/services/savings_service.py:279-295 | a strictly earlier selection date gives a strictly smaller index |
| Ranking.RerankedIdempotent | app/services/savings_service.py:271-316 | renumbering a renumbered table changes nothing |
| Ranking.RankedLastGetsLastIndex | app/services/savings_service.py:279-295 | the row ranked after every other saved row gets index k |
| Ranking.RerankedKeepsWeekIndicesUnique | app/models/savings.py:222 | renumbering keeps the unique index on (plan, week index) satisfied when no deleted row of the plan holds an index |
| Ledger.FindActivePlan | app/services/savings_service.py:117-138 | finds a row that is the user's live plan with that id, and finds nothing exactly when there is none |
| Ledger.FindActivePlanUnique | app/services/savings_service.py:117-138 | with unique plan ids the lookup returns that one row |
| Ledger.RequestedAmounts | app/services/savings_service.py:50-52 | the weekly amounts the request sends, none when the list is absent; `Ledger.CreatedPlanFacts` shows one row is stored per item |
| Ledger.ExceedsDuration | app/services/savings_service.py:53-55 | a requested week index that is set and larger than the duration; `Ledger.CreateRejectsWeekBeyondDuration` shows creation fails exactly when one item has it |
| Ledger.IsOwnedLiveAmount | app/services/savings_service.py:215-228 | a live amount with the id whose plan is the user's live plan; `Ledger.FindOwnedAmount` and `Ledger.UpdateNotFound` use it |
| Ledger.SavedTotal | app/services/savings_service.py:413-424 | the sum of the plan's live selected amounts, 0 when there are none; `Ledger.SavedTotalBounds` states it |
| Ledger.DisplayOrder | app/services/savings_service.py:319-331 | the plan's live amounts ordered by week index (nulls last), then amount; `Ledger.DisplayOrderFacts` states it |
| Ledger.RecalculatedAmounts | app/services/savings_service.py:271-316 | the amounts table renumbered for the user's live plan and unchanged otherwise; `Ranking.RerankedIndicesCover` and its neighbours give the numbering |
| Ledger.TotalSavedWrite | app/services/savings_service.py:390-437 | the plans table and commit error after writing the saved sum; `Ledger.TotalSavedWriteFacts` states them |
| Ledger.WeeklyAmountUpdated | app/services/savings_service.py:206-268 | the tables and result after an amount update; `Ledger.UpdateNotFound`, `Ledger.UpdateSelection` and `Ledger.UpdateFailureKeepsSelection` state them |
| Ledger.PlanCreated | app/services/savings_service.py:31-76 | the tables and result after creating a plan; `Ledger.CreatedPlanFacts` and `Ledger.CreateRejectsWeekBeyondDuration` state them |
| Ledger.PlanDeleted | app/services/savings_service.py:172-203 | the tables and result after deleting a plan; `Ledger.DeletedPlanIsGone` states them |
| Ledger.DisplayOrderFacts | app/services/savings_service.py:319-331 | the returned list is a permutation of the plan's live amounts, sorted by week index (nulls last) then amount |
| Ledger.RecalculateWeekIndices | app/services/savings_service.py:271-336 | the amounts table becomes the renumbered one when the plan is the user's live plan, and stays unchanged otherwise; plans are unchanged; the result is the display order of the new table |
| Ledger.RenumberRows | app/services/savings_service.py:279-314 | the two in-place loops (number the selected, clear the unselected) compute exactly `Reranked` |
| Ledger.SavedTotalBounds | app/services/savings_service.py:413-427 | the saved sum is non-negative, is 0 exactly when no amount is saved, and is at least each saved amount |
| Ledger.RerankedKeepsSavedTotal | app/services/savings_service.py:247-258 | renumbering any plan leaves every plan's saved sum unchanged |
| Ledger.TotalSavedWriteFacts | app/services/savings_service.py:390-437 | only the user's live plan changes; its total becomes the saved sum, and the commit fails exactly when that sum exceeds the target; a missing, deleted or foreign plan is a no-op |
| Ledger.UpdatePlanTotalSaved | app/services/savings_service.py:390-437 | the new plans table and the failure are those `TotalSavedWrite` gives; amounts are unchanged |
| Ledger.FindOwnedAmount | app/services/savings_service.py:215-228 | finds a live amount with that id whose plan is the user's live plan, and nothing exactly when there is none |
| Ledger.ApplyUpdate | app/services/savings_service.py:231-241 | only the fields sent change; sending `selected` stamps now when true and clears the stamp when false |
| Ledger.UpdateWeeklyAmount | app/services/savings_service.py:206-268 | the new tables and the result are those `WeeklyAmountUpdated` gives |
| Ledger.UpdateNotFound | app/services/savings_service.py:215-228 | the result is "not found" exactly when no owned live amount has the id, and then nothing changes |
| Ledger.UpdateSelection | app/services/savings_service.py:231-258 | with `selected` sent, the row takes the flag, is stamped iff selected, and then has a rank ≥ 1 or no index; the table is renumbered and on success the plan total equals the new saved sum |
| Ledger.UpdateFailureKeepsSelection | app/services/savings_service.py:247-258 | the only failure is the total's commit; the renumbered amounts then stay written while the plans are unchanged |
| Ledger.ReselectMovesToLastRank | app/services/savings_service.py:240-241 | re-sending `selected = true` for an already saved amount restamps it and moves it to the last rank |
| Ledger.SelectionUpdateRerank | app/services/savings_service.py:247-258 | an update with `selected` leaves the table renumbered after the field change |
| Ledger.AmountOnlyUpdateLeavesTotalStale | app/services/savings_service.py:247 | changing only the amount of a saved row leaves the plan total unequal to the new saved sum |
| Ledger.CreateSavingPlan | app/services/savings_service.py:31-76 | the new tables and the result are those `PlanCreated` gives |
| Ledger.CreateRejectsWeekBeyondDuration | app/services/savings_service.py:51-55 | creation fails with the week error exactly when some requested week index exceeds the duration; any failure stores nothing |
| Ledger.CreatedPlanFacts | app/services/savings_service.py:39-64 | a created plan is appended with total 0 and findable by its id; its amounts are appended with week indices as given and a stamp iff selected; valid input gives rows that meet the constraints |
| Ledger.CreatedTotalIgnoresSelectedAmounts | app/services/savings_service.py:44 | a plan created with a selected amount has total 0 while its saved sum is positive |
| Ledger.CascadeDeleted | app/services/savings_service.py:190-194 | every amount of the plan gets `deleted_at = now` and the others are untouched |
| Ledger.DeleteSavingPlan | app/services/savings_service.py:172-203 | the new tables and the result are those `PlanDeleted` gives |
| Ledger.DeletedPlanIsGone | app/services/savings_service.py:172-203 | deletion succeeds exactly for the user's live plan; afterwards it cannot be found or deleted again, none of its amounts is live and its saved sum is 0; an unknown plan changes nothing |
| Schedule.DaysBetween | app/services/savings_service.py:456 | the whole days elapsed, rounded down as `timedelta.days` does |
| Schedule.StartOfDay | app/services/savings_service.py:490-491 | the midnight at or before the instant, a whole number of days since the epoch (the same `replace(hour=0, ...)` as at lines 502 and 516) |
| Schedule.WeeksElapsed | app/services/savings_service.py:456 | whole weeks in the days, 0 for a negative count |
| Schedule.DueDate | app/services/savings_service.py:505-518 | the due date is (paid + 1) weeks after the creation day |
| Schedule.Classify | app/services/savings_service.py:456-518 | the intended status of a plan from its age in days, duration and paid weeks; `Schedule.ClassifyStates` and `Schedule.ClassifyBalance` state it |
| Schedule.ClassifyAsWritten | app/services/savings_service.py:465-518 | the status as written, an error on the behind branch; `Schedule.AsWrittenRaisesIffBehind` states it |
| Schedule.PlanScheduleStatus | app/services/savings_service.py:440-521 | nothing for a plan that is not the user's live plan, otherwise the classification of its saved weeks; `Schedule.PlanScheduleStatusFacts` states it |
| Schedule.PlanScheduleStatusAsWritten | app/services/savings_service.py:440-521 | the same service as written; `Schedule.PlanScheduleAsWrittenRaisesIffBehind` states it |
| Schedule.ClassifyCounts | app/services/savings_service.py:456-462 | elapsed weeks are the whole weeks since creation; required weeks are the smaller of elapsed and duration; paid weeks are the saved count |
| Schedule.ClassifyStates | app/services/savings_service.py:465-518 | completed iff paid ≥ duration, ahead iff not completed and paid > required, on-track iff not completed and paid = required, behind iff paid < required; the wire name is "completed", "ahead", "on-track" or "behind" by the same tests, in the source's order |
| Schedule.ClassifyBalance | app/services/savings_service.py:465-518 | completed has no lag, no lead and no due date; otherwise paid + behind − ahead = required, at most one of them is non-zero, and the due date is (paid + 1) weeks after the creation day |
| Schedule.ClassifyValid | app/schemas/savings.py:103-108 | every classification meets the response schema |
| Schedule.PayingMoreNeverHurts | app/services/savings_service.py:465-518 | one more paid week never worsens the status or increases the weeks behind |
| Schedule.WaitingNeverHelps | app/services/savings_service.py:456-518 | later evaluation never improves the status, never decreases the weeks behind and never increases the weeks ahead |
| Schedule.AsWrittenRaisesIffBehind | app/services/savings_service.py:505-518 | the code as written raises exactly when the intended status is behind, and otherwise agrees with it |
| Schedule.BehindPlanExample | app/services/savings_service.py:517 | 21 days into a 10-week plan with 1 payment: intended behind by 2, as written an error |
| Schedule.PlanScheduleStatusFacts | app/services/savings_service.py:440-521 | no status exactly for a plan that is not the user's live plan; otherwise a schema-valid status with the plan's saved count, completed iff that count reaches the duration |
| Schedule.PlanScheduleAsWrittenRaisesIffBehind | app/services/savings_service.py:440-521 | the service as written fails exactly for a found plan that is behind, and otherwise agrees with the intended one |
| Stats.OverallPercentage | app/services/savings_service.py:366-374 | the percentage times the target is 100 times saved; 0 for a zero target |
| Stats.CountedPlan | app/services/savings_service.py:346-361 | a plan counts in the statistics when it is the user's and not deleted; `Stats.StatsCounts` and `Stats.StatsIgnoreUncountedPlan` state it |
| Stats.ListedPlan | app/services/savings_service.py:88-92 | a plan is listed when it is the user's, and not deleted unless deleted plans are asked for; `Stats.ListedNewestFirstFacts` states it |
| Stats.NewestFirst | app/services/savings_service.py:106 | the `date_created DESC` order; `Stats.ListedNewestFirstFacts` shows the listing is sorted by it |
| Stats.Window | app/services/savings_service.py:106 | `offset(skip).limit(limit)`: min(`limit`, length − `skip`) items, none past the end, the k-th being item `skip + k` |
| Stats.UserSavingsStats | app/services/savings_service.py:339-387 | the counts and sums over the user's live plans; `Stats.StatsCounts`, `Stats.SumsBounded` and `Stats.StatsPercentage` state them |
| Stats.ListedNewestFirst | app/services/savings_service.py:88-105 | the plans the list query selects, ordered by creation date, newest first; `Stats.ListedNewestFirstFacts` states it |
| Stats.ListedNewestFirstFacts | app/services/savings_service.py:88-105 | the listing is a permutation of exactly the user's selected plans (live only unless deleted ones are asked for), sorted newest first, as long as their count |
| Stats.UserSavingPlans | app/services/savings_service.py:78-115 | the page of the newest-first listing starting at `skip`, and the listing's length; `Stats.UserSavingPlansFacts` states it |
| Stats.StatsCounts | app/services/savings_service.py:346-361 | the plan count is the number of the user's live plans; active + completed = total |
| Stats.StatsIgnoreUncountedPlan | app/services/savings_service.py:346-361 | adding a deleted or foreign plan changes no statistic |
| Stats.SumsBounded | app/services/savings_service.py:346-374 | under the constraints saved ≤ target, the target sum is positive once there is a plan, and the sums are equal exactly when every plan is completed |
| Stats.StatsPercentage | app/services/savings_service.py:366-374 | the statistics meet the response schema, 0 % with no plans, and 100 % exactly when every counted plan is completed |
| Stats.StatsExample | app/services/savings_service.py:339-387 | three plans of 500/400/300 with 50/20/25 saved give 3 active plans, 1200 target, 95 saved |
| Stats.UserSavingPlansFacts | app/services/savings_service.py:78-115 | total counts the listed plans; the page's k-th plan is the listing's plan at position `skip + k`, and the page holds min(`limit`, total − `skip`) of them (none past the end), all the user's, newest first |
| Stats.FirstPageIsNewest | app/services/savings_service.py:105-107 | a selected plan left off the first page is no newer than any plan on it |
| Stats.FirstPageIsHead | app/services/savings_service.py:105-107 | the first page is the head of the newest-first listing, and no selected plan left off it is newer than a plan on it |
| Stats.EveryListedPlanHasAPage | app/services/savings_service.py:78-115 | every listed plan appears on some page |
| ReminderContent.WeeklyTarget | app/services/email_service.py:109 | target times weeks is the amount; 0 when there are no weeks |
| ReminderContent.ActivePlans | app/services/email_service.py:100 | the plans that are not deleted, in order; `ReminderContent.ContextCoversLivePlans` states it |
| ReminderContent.MaxWeeksBehind | app/services/email_service.py:126 | the running maximum of the weeks behind, 0 for no plans; `ReminderContent.MaxWeeksBehindIsMaximum` states it |
| ReminderContent.Get | app/services/email_service.py:144-158 | `dict.get(key, 0)`: the value under the key, or 0; `ReminderContent.RecordStatsAlwaysFail` uses it for the mapping case |
| ReminderContent.PlanSummaryOf | app/services/email_service.py:108-141 | one plan's summary: weekly target, elapsed weeks, expected and behind amounts, weeks behind, on track; `ReminderContent.PlanLag` states it |
| ReminderContent.EmailWeeksElapsed | app/services/email_service.py:170-185 | 0 without a start date; 1 within the first seven days; otherwise the whole weeks elapsed |
| ReminderContent.PlanLag | app/services/email_service.py:118-138 | behind amount is max(0, expected − saved); weeks behind is the floor of behind/target (0 with no target); on track iff 0 weeks behind iff less than one target behind |
| ReminderContent.SavedOnScheduleIsOnTrack | app/services/email_service.py:118-138 | a plan with at least the expected saved is on track with nothing behind |
| ReminderContent.MaxWeeksBehindIsMaximum | app/services/email_service.py:126 | the cross-plan weeks behind is the maximum of the per-plan values, and is attained or 0 |
| ReminderContent.CatchUpIsSumOfShortfalls | app/services/email_service.py:127 | the catch-up amount is the sum of the behind amounts: non-negative, at least each one, 0 exactly when none is behind |
| ReminderContent.ProgressTier | app/services/email_service.py:187-225 | the progress tiers are ≥ 80, ≥ 50, ≥ 25 and the rest |
| ReminderContent.EnhancedMotivation | app/services/email_service.py:198-225 | the message chosen from the lag, then the progress tier; `ReminderContent.MotivationTiers` states it |
| ReminderContent.LegacyMotivationOf | app/services/email_service.py:187-196 | the message chosen from the progress tier alone; `ReminderContent.MotivationTiers` states it |
| ReminderContent.CatchUpSuggestionOf | app/services/email_service.py:227-247 | the suggested weekly amount from the lag; `ReminderContent.CatchUpTiers` states it |
| ReminderContent.MotivationTiers | app/services/email_service.py:187-225 | at 0 weeks behind the message depends only on the progress tier; at any other lag only on the lag; the final fallback is unreachable for a non-negative lag; the legacy message depends only on the tier |
| ReminderContent.CatchUpTiers | app/services/email_service.py:227-247 | the suggestion is the target at 0, + ½ catch-up at 1, + 0.3 catch-up at 2, + min(½ target, 0.2 catch-up) from 3; never below the target; the fallback is unreachable |
| ReminderContent.SummarizePlans | app/services/email_service.py:100-141 | the accumulator loop yields the summaries of the live plans, the summed target, the maximum weeks behind and the summed behind amounts |
| ReminderContent.ContextOf | app/services/email_service.py:100-168 | the reminder context from the live plans and the three statistics; `ReminderContent.ContextCoversLivePlans` and `ReminderContent.ContextMessages` state it |
| ReminderContent.ReminderContextAsWritten | app/services/email_service.py:90-168 | the context as written, an error for a statistics object; `ReminderContent.RecordStatsAlwaysFail` states it |
| ReminderContent.ContextForStats | app/services/email_service.py:90-168 | the intended context, reading the statistics' attributes; `ReminderContent.RecordStatsAlwaysFail` ties it to the mapping case |
| ReminderContent.PrepareReminderContext | app/services/email_service.py:90-168 | the method computes the context of the code as written |
| ReminderContent.ContextCoversLivePlans | app/services/email_service.py:90-168 | the context counts and summarises exactly the live plans; its weeks behind bounds each plan's; behind schedule iff some plan is off track |
| ReminderContent.ContextMessages | app/services/email_service.py:143-165 | the fallback messages are never chosen, the catch-up amount is non-negative and the user name is never empty |
| ReminderContent.BehindIffSomePlanOffTrack | app/services/email_service.py:163-165 | the maximum weeks behind is positive exactly when some plan is off track |
| ReminderContent.RecordStatsAlwaysFail | app/services/email_service.py:144 | as written, a statistics object always fails; passed as a mapping it gives the intended context |
| ReminderContent.ReminderExample | send_enhanced_test_email.py:44-52 | the three-plan scenario is 2 weeks behind with a 90 catch-up and a 95 weekly target |
| Reminders.QueriedUsers | app/services/reminder_service.py:57-68 | keeps exactly the active, undeleted users with notifications on |
| Reminders.QueryMatches | app/services/reminder_service.py:57-66 | the user query's conditions: active, not deleted, notifications on; `Reminders.EligibleUsersIff` states it |
| Reminders.HasLivePlan | app/services/reminder_service.py:73-81 | the user owns a plan that is not deleted; `Reminders.EligibleUsersIff` states it |
| Reminders.WithLivePlan | app/services/reminder_service.py:74-81 | keeps exactly the users that own a live plan |
| Reminders.EligibleUsers | app/services/reminder_service.py:52-83 | the queried users that own a live plan; `Reminders.EligibleUsersIff` states it |
| Reminders.EligibleUsersIff | app/services/reminder_service.py:52-83 | a user is eligible exactly when active, not deleted, notified and owning a live plan |
| Reminders.GetEligibleUsers | app/services/reminder_service.py:52-83 | the query and filter loop returns the eligible users |
| Reminders.SendWeeklyReminders | app/services/reminder_service.py:29-42 | successes count the reminders sent; every user is counted once, as a success or an error, whatever fails |
| Reminders.UniformBatch | app/services/reminder_service.py:29-42 | a batch where nothing is sent counts no success; one where everything is sent counts only successes |
| Reminders.SendWeeklyReminder | app/services/email_service.py:50-88 | false with e-mail disabled or no context, otherwise the transport's answer; `Reminders.ReminderAsWrittenNeverSends` states the result per user |
| Reminders.SendUserReminder | app/services/reminder_service.py:85-118 | the intended per-user send; `Reminders.ReminderAsWrittenNeverSends` and `Reminders.SendUserReminderContext` state it |
| Reminders.SendUserReminderAsWritten | app/services/reminder_service.py:85-118 | the per-user send as written; `Reminders.ReminderAsWrittenNeverSends` states it |
| Reminders.ListingPlans | app/services/reminder_service.py:105 | `.get('plans', [])` on the listing tuple always raises; `Reminders.ReminderAsWrittenNeverSends` states the consequence |
| Reminders.BatchOutcomes | app/services/reminder_service.py:29-42 | the outcome of each eligible user's attempt, in order, one per user |
| Reminders.UserOutcomeSent | app/services/reminder_service.py:29-42 | an attempt sends exactly when it is the intended send, e-mail is enabled and the transport delivers |
| Reminders.BatchOutcomesFacts | app/services/reminder_service.py:29-42 | a batch sends nothing as written or with e-mail disabled, and everything as intended when every transport delivers |
| Reminders.RunWeeklyReminders | app/services/reminder_service.py:19-50 | every eligible user is counted once, as a success exactly when the attempt sent |
| Reminders.BatchCounts | app/services/reminder_service.py:19-50 | the run counts no success as written or with e-mail disabled, and no error as intended when every transport delivers |
| Reminders.ReminderAsWrittenNeverSends | app/services/reminder_service.py:85-118 | as written no reminder is ever sent; the intended path sends exactly when e-mail is enabled and delivery succeeds |
| Reminders.SendUserReminderContext | app/services/reminder_service.py:89-100 | the intended path takes min(100, total) of the user's live plans, the head of the newest-first listing, so every live plan left off is no newer than any taken, and summarises all of them |
| Reminders.AsWrittenBatchSendsNothing | app/services/reminder_service.py:19-50 | as written a weekly batch counts no success |
| Reminders.UserIndex | app/services/reminder_service.py:127-129 | finds the user with the id, or none exists |
| Reminders.SendTestReminder | app/services/reminder_service.py:120-139 | false for an unknown id, otherwise the per-user send; `Reminders.SendTestReminderFacts` states it |
| Reminders.SendTestReminderFacts | app/services/reminder_service.py:120-139 | an unknown user gives false; as written every test reminder fails; intended, it succeeds iff the user exists, e-mail is enabled and delivery succeeds |
| Users.StripFacts | app/models/user.py:100-102 | stripping removes a whitespace-only prefix and suffix |
| Users.StripEnds | app/models/user.py:100-102 | a stripped string neither starts nor ends with whitespace |
| Users.Strip | app/models/user.py:100-102 | `str.strip()` on the ASCII whitespace; `Users.StripFacts` and `Users.StripEnds` state it |
| Users.User.IsDeleted | app/models/user.py:105-107 | a user is deleted exactly when it has a deletion time |
| Users.SplitOnceRoundTrip | app/services/supabase_service.py:96-99 | splitting `a + c + b` once at `c` gives back `a` and `b` when `a` holds no `c` |
| Users.User.constructor | app/services/supabase_service.py:111-122 | a new user is active with empty names, notifications on, provider defaulted to "email", never reminded, not deleted |
| Users.User.FullName | app/models/user.py:100-102 | the full name has no surrounding whitespace and is no longer than "first last" |
| Users.User.SoftDelete | app/models/user.py:109-112 | sets the deletion time and deactivates; every other field is unchanged |
| Users.User.UpdateNames | app/services/supabase_service.py:85-103 | the names become those derived from the metadata; every other field is unchanged |
| Users.ProviderOrDefault | app/services/supabase_service.py:54-56 | a missing provider is "email" |
| Users.NamesAfterUpdate | app/services/supabase_service.py:85-103 | the names after the update from the metadata, the full name and the e-mail; `Users.NameDerivation` states them |
| Users.NameDerivation | app/services/supabase_service.py:85-103 | metadata names are copied; a still-empty first name is split from the full name and then taken from the e-mail's local part; the first name ends empty only when all three are empty |
| Users.FullNameSplits | app/services/supabase_service.py:96-99 | "a b" as full name gives first name a and last name b |
| Users.FullNameJoins | app/models/user.py:100-102 | trimmed names join to "first last", or to the one that is present |
| Users.FirstMissingField | app/services/supabase_service.py:40-43 | no field is missing exactly when user id and e-mail are both present and non-empty; otherwise the first missing one is named |
| Users.FieldMissing | app/services/supabase_service.py:40-43 | a required field is missing when it is absent or empty, as `not user_info.get(field)`; `Users.FirstMissingField` states it |
| Users.CheckRequiredFields | app/services/supabase_service.py:40-43 | the loop over the required fields reports the first missing one |
| Users.SyncUserToDb | app/services/supabase_service.py:35-83 | a missing field fails with nothing changed; an existing user gets the e-mail, provider, activation and derived names and keeps its notification flag and last reminder; otherwise a fresh user is created with the defaults and derived names |
| Users.SyncRequiresIdAndEmail | app/services/supabase_service.py:40-43 | sync proceeds exactly when neither required field is missing; an empty user id is reported |
| Auth.StatusOf | app/api/dependencies.py:13-23 | header failures are 401; a verifier refusal keeps the verifier's status |
| Auth.AuthorizationToken | app/api/dependencies.py:11-25 | the token after a "Bearer " prefix, or the header failure; `Auth.AuthorizationTokenFacts` states it |
| Auth.CurrentUser | app/api/dependencies.py:35-65 | the header or verifier failure, otherwise the local, synced or minimal user for the token, the minimal one copying a null id or e-mail as it is; `Auth.DatabaseNeverBlocksVerifiedUser` states it |
| Auth.OptionalCurrentUser | app/api/dependencies.py:68-90 | the stored user or nothing; `Auth.OptionalAgreesWithCurrent` ties it to `Auth.CurrentUser` |
| Auth.AuthorizationTokenFacts | app/api/dependencies.py:11-25 | missing/empty header iff "required"; other non-"Bearer " headers iff malformed; an accepted token is space-free, follows the prefix and ends the header or precedes a space |
| Auth.BearerRoundTrip | app/api/dependencies.py:25 | "Bearer t" and "Bearer t rest" both give back token t |
| Auth.BearerExamples | app/api/dependencies.py:11-25 | "Bearer a b" gives "a"; "bearer a" and "Bearer" are malformed; "" is missing |
| Auth.DatabaseNeverBlocksVerifiedUser | app/api/dependencies.py:35-65 | once the verifier answers, the request always runs as the token's user id, null id or e-mail included: as the stored user exactly when it is found, and as a minimal user with the token's e-mail and provider exactly when it is neither found nor synced |
| Auth.RefusedHeader | app/api/dependencies.py:11-23 | a refused header gives 401, and the optional variant gives nothing |
| Auth.OptionalAgreesWithCurrent | app/api/dependencies.py:68-90 | the optional variant answers exactly when the required one resolves to a stored user, with the same user |
| Routes.PagingMetadata | app/api/routes/savings.py:71-101 | out-of-bounds paging is 422; otherwise page is the 1-based page holding `skip`, has-next iff rows remain (then the page is full), has-prev iff `skip` > 0 |
| Routes.ValidPaging | app/api/routes/savings.py:72-73 | the query bounds: `skip` ≥ 0 and `limit` in 1..100; `Routes.PagingMetadata` shows a 422 exactly when they fail |
| Routes.AlignedPages | app/api/routes/savings.py:91 | skipping n whole pages lands on page n + 1 |
| Routes.GetSavingPlans | app/api/routes/savings.py:71-101 | 422 for paging out of bounds, otherwise the page and its metadata; `Routes.PagingMetadata` states it |
| Routes.GetSavingPlansByDefault | app/api/routes/savings.py:72-74 | the list route with the query defaults skip 0, limit 10 and live plans only |
| Routes.DefaultPaging | app/api/routes/savings.py:72-101 | with the defaults: status 200, page 1, size 10, no previous page, the first min(10, total) plans of the newest-first listing of the user's live plans (every live plan left off is no newer than any shown), and a next page exactly when there are more than 10 |
| Routes.CreateSavingPlanRoute | app/api/routes/savings.py:39-62 | an invalid body is 422 with nothing stored; otherwise the service outcome, answered 201/400/500 |
| Routes.CreateReplyStatus | app/api/routes/savings.py:52-62 | 400 exactly when a requested week exceeds the duration; 201 exactly when a plan is returned; otherwise 500 |
| Routes.CreatePlanReply | app/api/routes/savings.py:52-62 | 201 with the plan, 400 for a week beyond the duration, 500 otherwise; `Routes.CreateReplyStatus` states it |
| Routes.FoundReply | app/api/routes/savings.py:123-129 | 200 with the row, or 404 when there is none |
| Routes.DeleteReply | app/api/routes/savings.py:191-203 | 204 when deleted, 404 otherwise; `Routes.DeleteRouteStatus` states it |
| Routes.AmountReply | app/api/routes/savings.py:228-249 | 500 for a failure, then 200 or 404 as the row is found |
| Routes.ScheduleRouteStatus | app/api/routes/savings.py:322-349 | 404 exactly for a plan that is not the user's live plan; as written 500 exactly for a behind plan, otherwise the intended answer |
| Routes.ScheduleReplyAsWritten | app/api/routes/savings.py:335-349 | an exception becomes 500, no status 404, a status 200; `Routes.ScheduleRouteStatus` states it |
| Routes.DeleteRouteStatus | app/api/routes/savings.py:184-211 | 204 exactly when the user's live plan existed; a 404 changes nothing |
| Routes.UpdateWeeklyAmountRoute | app/api/routes/savings.py:220-249 | an invalid body is 422 with nothing changed; otherwise the service outcome, 200/404/500 |
| Routes.SelectWeeklyAmount | app/api/routes/savings.py:258-288 | exactly the update that sends only `selected` |
| Routes.SelectRouteStatus | app/api/routes/savings.py:258-288 | 404 exactly when the user owns no live amount with the id; a 200 carries the requested flag, with a rank iff selected |

## Left out

- **Persistence.** SQLAlchemy sessions, flush, refresh, rollback and eager loading are not modelled; the tables are in-memory sequences. Separate commits are sequential steps. A failure rolls back only the step that failed, as `UpdateFailureKeepsSelection` shows.
- **Commit-time conflicts.** A commit fails in the model only in two places. One is the total's check constraint in `update_plan_total_saved`. The other is a request that repeats a week index at creation, which the unique index refuses. Other database errors are not modelled.
- **Mid-renumbering conflicts.** A unique-index conflict that row-by-row flushing could raise while two rows swap ranks is not modelled.
- **Deleted rows and the unique index.** Deleted rows of a live plan that still hold an index could collide with a new rank. No service path produces one: amounts are deleted only with their plan. `Ranking.RerankedKeepsWeekIndicesUnique` therefore assumes there are none.
- **Query ties.** Ties in SQL `ORDER BY` follow table order. PostgreSQL leaves them unspecified.
- **Updating a plan.** `update_saving_plan` (app/services/savings_service.py:140-170) is modelled only through its schema bounds (`SavingsSchemas.UpdateBoundsAreCreateBounds`). Its field writes are not modelled.
- **Fetching one plan.** `get_saving_plan_by_id` is modelled as the lookup `Ledger.FindActivePlan`. Eager loading of its amounts is not modelled.
- **Clock and time zones.** `datetime.utcnow()`, time zones and `.date()` are replaced by an `Instant` parameter and whole-day arithmetic.
- **Timestamps.** The `created_at` and `updated_at` columns are not modelled.
- **Rounding and messages.** Rounding (`round(..., 1|2)`), float conversion and `:.0f` formatting are not modelled. Message texts, the e-mail subject and emoji are enum tags.
- **E-mail transport and templates.** fastapi-mail and Jinja2 are left out. Whether e-mail is enabled and whether delivery succeeded are boolean parameters.
- **The unsubscribe token.** The token and its URL (app/services/token_service.py) are JWT calls and are left out.
- **Supabase and the token verifier.** These are parameters: the verifier's answer, whether the local user exists, and whether the database fails.
- **The minimal fallback user.** `Auth.MinimalUser` holds only the id, e-mail and provider, each as the verifier returned it. The verifier's answer always carries the id and e-mail keys (app/core/supabase.py:41-46), so the `KeyError` that indexing an absent key would raise is not modelled. The transient `User`'s other attributes are unset in the source and are not modelled.
- **The scheduler.** APScheduler and its thread pool are left out.
- **Routes and wiring.** The other routes, the configuration and the app wiring are left out.
- **Failed list and stats queries.** The 500 answers of the list and stats routes come from database failures, which are not modelled.
- **E-mail uniqueness.** The unique e-mail column (app/models/user.py:21-26) is not modelled. A sync that collides with another user's e-mail is a database failure, covered by the `dbFails` parameter.
- **Same-id conflicts.** A soft-deleted user with the same id is not found by the lookup. Re-creating it would hit the primary key. This is also only a database failure.
- **The null-e-mail filter.** The `email IS NOT NULL` eligibility filter is vacuous, because the column is not nullable.
- **Explicit JSON nulls.** An explicit JSON `null` for `selected`, or for an optional update field, is treated as not sent.
- Users.Strip: strips only ASCII whitespace: space, tab, newline, carriage return, vertical tab, form feed and the separators U+001C to U+001F. Python's `str.strip` also strips non-ASCII whitespace such as U+0085 and U+00A0.

## Findings

| source | as written | input that shows it | evidently intended | confidence | as-written member | corrected member |
|---|---|---|---|---|---|---|
| app/services/savings_service.py:517 | the behind branch calls `datetime.timedelta`, but `datetime` is the class imported at line 6, so the branch raises `AttributeError` and the route answers 500 | plan created 21 days ago, 10 weeks, 1 saved amount | status "behind", weeks behind 2, next due date two weeks after the creation day | high, not executed | Schedule.ClassifyAsWritten, Schedule.BehindPlanExample | Schedule.Classify, Schedule.ClassifyStates |
| app/services/reminder_service.py:105 | `.get('plans', [])` is called on the tuple that `get_user_saving_plans` returns, so every reminder fails and counts as an error | any eligible user with a live plan | pass the first element of the tuple, the page of plans | high, not executed | Reminders.SendUserReminderAsWritten, Reminders.ReminderAsWrittenNeverSends | Reminders.SendUserReminder, Reminders.SendUserReminderContext |
| app/services/email_service.py:144 | `user_stats.get(...)` is called on a `SavingPlanStats` model, which has no `get`, so the context builder raises and `send_weekly_reminder` returns false | any statistics object | read the statistics' attributes | high, not executed | ReminderContent.ReminderContextAsWritten, ReminderContent.RecordStatsAlwaysFail | ReminderContent.ContextForStats, ReminderContent.ContextCoversLivePlans |
