# Weather agent: a verified model

This project models the parts of the weather agent whose correctness is not visible from one
function body, and proves what they keep.

1. **Notification delivery.** The table of notification events with its partial unique index, the
   row lease, and any number of workers whose calls interleave (`NotificationEvents`,
   `DeliveryProtocol`, `DeliverySafety`, `DeliveryOnce`); the text and hash that identify a notification
   (`DedupeKeys`, `Deduplication`); schedules and their keys (`Schedules`, `Rules`, `ScheduledKeys`); and one worker's cycles of
   claiming, evaluating and delivering over whole runs (`Worker` and the `Worker…` modules).
2. **Rule arithmetic.** The window filter and the aggregates of rule expressions over reals
   (`Aggregates`, `AggregateLaws`).
3. **Forecast charts.** JSON trees, the search for keys anywhere in a tree, the checks and the
   preparation of a chart spec, the axis walk and the tick generator (`Json`, `ChartSpec`,
   `ChartLaws`, `ChartPreparation`, `ChartDefaults`, `TimeAxes`, `AxisDefaults`, `AxisLaws`, `AxisPaths`,
   `AxisCompletion`).
4. **Proposals and confirmation.** Context keys, the conversation memory, the rule service and the
   chat tools that store, confirm and cancel proposals (`ContextKeys`, `ThreadMemory`, `MemoryLaws`,
   `RuleService`, `RulesToolbox`, `ToolboxLaws`, `ToolboxRoundTrips`, `ToolboxOutcomes`).
5. **Saved locations** (`Locations`, `LocationLaws`) and the **tool-calling loop** (`AgentLoop`).

Stateful services are classes whose methods are proved against functions on their state; the laws
are lemmas about those functions, over every input, every run or every reachable state. What the
outside world decides (clock readings, delays, whether a send succeeds, what an expression or a
model answers, random ids) is a parameter, and every result is about all of its values.

Where the code and what one would expect of it differ, the model follows the code:

- The "payload unchanged" check compares the hash of the JSON payload with stored hashes of dedupe
  texts, so it never fires (`WorkerHashes.PayloadCheckIsIdle`).
- A claimant that outlives its lease can send a second time (`DeliverySafety.LateRunSendsTwice`),
  because `mark_sent` does not look at the row first. A key is sent at most once exactly when every
  worker that marks its row as sent could have seen that no row of the key carries a sent time
  (`DeliveryOnce.AtMostOnceIffKeyIsFresh`); where no suppression hits a sent row, exactly when no row
  is finished that is sent already (`DeliveryOnce.AtMostOnceIffSparing`).
- Giving a rule a cron schedule can make the claim of every rule fail
  (`WorkerClaims.ReschedulingRun`; `WorkerClaims.ClaimFailsIff` says exactly when a claim fails).
- Points without an instant belong to every window and are counted in both halves of a split
  (`AggregateLaws.SplitWindowSum`), and a half without a value is an error
  (`AggregateLaws.WindowsAddUpIff`); a percentile below 0 reads the list from its end
  (`AggregateLaws.NegativePercentileWrapsAround`).
- A confirmed edit can make two enabled rules the same (`ToolboxRoundTrips.EditingRun`; exactly when
  it does: `ToolboxLaws.EditKeepsNoTwinsIff`), and re-enabling a location is not checked
  (`LocationLaws.ReenablingRun`; exactly when that matters: `LocationLaws.EnableKeepsDistinctIff`).
- A new location may take a name that is an alias of another one (`LocationLaws.CreateResolves`).
- In a group chat a proposal can be confirmed by another member; it then acts on the rules of the
  member who confirms (`ToolboxRoundTrips.ProposeThenConfirm`, `ToolboxRoundTrips.DeleteThenConfirm`).

## Model

| member | source | states |
|---|---|---|
| NotificationEvents.ActiveRowIsUnique | src/weather_agent/domain/notifications/events.py:150-160 | under the index the unordered one-row select of an active row has a single possible answer |
| NotificationEvents.UpdateKeepsIndex | src/weather_agent/infrastructure/db/base.py:268-281 | an update that keeps the key of an active row, or suppresses a row, always passes the index |
| NotificationEvents.InsertRefusedIffActive | src/weather_agent/infrastructure/db/base.py:268-281 | an insert violates the index exactly when its key already has an active row |
| NotificationEvents.CreateEventOnceMeaning | src/weather_agent/domain/notifications/events.py:140-184 | the call never raises, keeps the index, touches at most the row it returns, and says "created" exactly when every active row of the key is unsent with its lease run out |
| NotificationEvents.CreatedRow | src/weather_agent/domain/notifications/events.py:140-184 | a row handed out as created is a new leased unsent one, or the stale one with only its lease renewed |
| NotificationEvents.UnhashedIsNeverRefused | src/weather_agent/infrastructure/db/base.py:268-281 | a row without a hash is outside the partial index |
| NotificationEvents.MarkedRow | src/weather_agent/domain/notifications/events.py:186-231 | marking sets time, status and a given message, or flag, reason and status, of the one row and nothing else |
| NotificationEvents.NotificationEventService.InsertOrSelectAgain | src/weather_agent/domain/notifications/events.py:174-184 | inserts a leased row; on an index violation answers with the existing active row and leaves the table alone |
| NotificationEvents.NotificationEventService.CreateEventOnce | src/weather_agent/domain/notifications/events.py:140-184 | the step-by-step call has the meaning stated by CreateEventOnceMeaning and keeps the index |
| NotificationEvents.NotificationEventService.MarkSent | src/weather_agent/domain/notifications/events.py:186-210 | sets time, message and status of one row, or changes nothing on a missing row or an index violation |
| NotificationEvents.NotificationEventService.MarkSuppressed | src/weather_agent/domain/notifications/events.py:212-231 | sets flag, reason and status of one row, or changes nothing on a missing row |
| DeliverySafety.StepKeepsInv | src/weather_agent/domain/notifications/events.py:140-231 | every step of every worker keeps the index, the claims' coverage by the row stamps and the lease distance of claims |
| DeliverySafety.CallOutcome | src/weather_agent/domain/notifications/events.py:140-184 | a select without an active row leads to an insert; any other step of a call answers an active row of the key, which the worker holds, claim recorded, exactly when told "created" |
| DeliverySafety.CrashOutcome | src/weather_agent/domain/notifications/events.py:140-231 | a worker that stops changes nothing and takes no further step |
| DeliverySafety.FinishOutcome | src/weather_agent/domain/notifications/events.py:186-231 | a finish frees its worker and leaves the row sent now, with its send recorded, or suppressed, unless the index refuses; it never refuses an active row |
| DeliverySafety.StepKeepsOwned | src/weather_agent/domain/notifications/events.py:140-231 | a step whose finish is by the row's last claimant keeps "every recorded send is a sent row of its own" and changes no finished row |
| DeliverySafety.SparingStepKeepsSentOnce | src/weather_agent/domain/notifications/events.py:186-231 | for that invariant it is enough that the finished row is not yet sent, whoever claimed it last |
| DeliverySafety.StepKeepsTimely | src/weather_agent/domain/notifications/events.py:140-231 | a step within the lease is by an owner, and keeps "a live claimant owns an open row, alone" |
| DeliverySafety.EveryRunKeepsOneActiveRow | src/weather_agent/domain/notifications/events.py:150-184 | in every interleaving of selects and inserts a key never has two active rows |
| DeliverySafety.ClaimsOfARowAreALeaseApart | src/weather_agent/domain/notifications/events.py:162-172 | in every run two claims of one row are at least the lease timeout apart |
| DeliverySafety.SparingRunsSendAtMostOnce | src/weather_agent/domain/notifications/events.py:140-231 | when no delivery is finished on a row that is already sent, no run records two sends for one rule and payload hash |
| DeliverySafety.OwnersSendAtMostOnce | src/weather_agent/domain/notifications/events.py:140-231 | in particular when deliveries are finished by the row's last claimant or never, however late, no run records two sends for one rule and payload hash |
| DeliverySafety.AtMostOneSendPerKey | src/weather_agent/domain/notifications/events.py:140-231 | and when claimants finish within their lease or never |
| DeliverySafety.FinishedRowsNeverChange | src/weather_agent/domain/notifications/events.py:186-231 | when owners finish, a sent or suppressed row never changes again |
| DeliverySafety.SentKeyIsNeverSentAgain | src/weather_agent/domain/notifications/events.py:162-172 | when owners finish, a key with a sent row, old or new, is never sent again |
| DeliverySafety.SecondInsertOnlyAfterSuppression | src/weather_agent/domain/notifications/events.py:174-184 | of workers racing on a fresh key at most one inserts, unless the first row was suppressed in between |
| DeliverySafety.LosersGetTheWinnersRow | src/weather_agent/domain/notifications/events.py:174-184 | while the winner's row is active every later call gets that row, and "created" only by a reclaim a full lease later |
| DeliverySafety.LateClaimantCanSendTwice | src/weather_agent/domain/notifications/events.py:168-172 | from any timely state with an overdue claimant on an open row, three steps of it and an idle worker record two sends of one key |
| DeliverySafety.LateRunSendsTwice | src/weather_agent/domain/notifications/events.py:168-172 | for every key such a run of two workers exists from an empty table, late only in its last step |
| DeliveryOnce.ResendingRepeats | src/weather_agent/domain/notifications/events.py:186-210 | marking a claimed row that is sent already records its key a second time |
| DeliveryOnce.AtMostOnceIffSparing | src/weather_agent/domain/notifications/events.py:140-231 | in every run in which no suppression hits a sent row, no key is sent twice if and only if every finished row is not yet sent |
| DeliveryOnce.AtMostOnceIffKeyIsFresh | src/weather_agent/domain/notifications/events.py:140-231 | in every run from a table where only sent rows carry sent times, no key is sent twice if and only if each `mark_sent` finds no sent time on any row of its key, or is refused by the index |
| DeliverySafety.UninterruptedCallIsCreateOnce | src/weather_agent/domain/notifications/events.py:140-184 | a worker's select and insert taken in succession are one call of the service |
| Text.IntRoundTrip | src/weather_agent/infrastructure/memory/thread_memory.py:105-109 | printing an integer and parsing it gives it back, negative ones included |
| Text.ReadableIff | src/weather_agent/infrastructure/memory/thread_memory.py:105-109 | exactly an optional minus sign and decimal digits read as an integer |
| Text.StripMeaning | src/weather_agent/domain/rules/schedule.py:30-49 | stripping removes the white space at both ends and nothing else |
| DedupeKeys.WindowLengthIsRight | src/weather_agent/domain/notifications/deduplication.py:45-48 | a window text is recognised at the front of a longer text although it contains the separator |
| DedupeKeys.KeyTextReadsBack | src/weather_agent/domain/notifications/deduplication.py:45-48 | the colon-joined text reads back as exactly its five parts |
| DedupeKeys.IsoFormatInjective | src/weather_agent/domain/notifications/deduplication.py:45-48 | equal ISO texts are equal timestamps, with or without fraction and offset |
| DedupeKeys.KeyTextInjective | src/weather_agent/domain/notifications/deduplication.py:41-65 | equal dedupe texts force equal rule, location, expression hash and windows |
| DedupeKeys.SameHashSameNotification | src/weather_agent/domain/notifications/deduplication.py:51-65 | equal stored hashes mean the same rule, location, expression and forecast window |
| Schedules.PrefixDecidesKind | src/weather_agent/domain/rules/schedule.py:30-49 | the raw prefix the worker tests and the stripped text the parser tests agree |
| Schedules.PrefixedText | src/weather_agent/domain/rules/schedule.py:30-49 | a text after `once:` or `cron:` reads as that kind, with an error exactly when it is not readable |
| Schedules.OtherTexts | src/weather_agent/domain/rules/schedule.py:30-79 | no schedule is always due; a text of neither kind never is and is reported |
| Schedules.OnceDueOnlyFromItsInstant | src/weather_agent/domain/rules/schedule.py:52-65 | a `once:` rule is due exactly from its readable instant on |
| Schedules.CronDueHasSlot | src/weather_agent/domain/rules/schedule.py:68-79 | a `cron:` rule is due exactly when its expression is valid, and then has a last slot |
| Schedules.LastSlotMonotone | src/weather_agent/domain/rules/schedule.py:68-79 | later instants have later or equal last slots |
| ScheduledKeys.SameKeyIff | src/weather_agent/infrastructure/worker/rule_evaluator.py:721-734 | two scheduled rules have the same key exactly when user, chat, thread (none and 0 alike), location and the joined free texts agree |
| ScheduledKeys.SameKeySameNotification | src/weather_agent/infrastructure/worker/rule_evaluator.py:721-734 | as long as schedules hold no bar and fingerprints are none or flat JSON objects, the key agrees exactly for the same notification |
| ScheduledKeys.BarsMakeKeysMeet | src/weather_agent/infrastructure/worker/rule_evaluator.py:721-734 | with bars in schedules, which no valid one holds, different rules can have one key |
| Deduplication.PassesIff | src/weather_agent/domain/notifications/deduplication.py:87-180 | a candidate passes exactly when no snooze lies ahead, every unsuppressed send is older than the cooldown, no sent row repeats its hash and the newest sent row's hash is not its payload's; otherwise the reason is the first that fails |
| Deduplication.PassingMeansCooledDown | src/weather_agent/domain/notifications/deduplication.py:94-124 | the half of it the cooldown laws use: a candidate that passes is not snoozed and strictly later than the cooldown after every recorded send |
| Deduplication.CandidateHashText | src/weather_agent/domain/notifications/deduplication.py:41-65 | the hash is of rule, location, hashed expression and the two window ends, in this order |
| Deduplication.UnchangedNeverFires | src/weather_agent/domain/notifications/deduplication.py:152-175 | against hashes of dedupe texts the payload check changes no answer |
| Worker.RuleEvaluationWorker.IsRuleDue | src/weather_agent/infrastructure/worker/rule_evaluator.py:198-228 | due check with both row queries and their multiple-row failure |
| Worker.RuleEvaluationWorker.ClaimDueRules | src/weather_agent/infrastructure/worker/rule_evaluator.py:120-131 | the enabled due rules in key order, or the first failure |
| Worker.RuleEvaluationWorker.DeliverNotification | src/weather_agent/infrastructure/worker/rule_evaluator.py:552-626 | check, claim a row, then suppress, send or give up, with the new tables and clock |
| Worker.RuleEvaluationWorker.ConcludeDelivery | src/weather_agent/infrastructure/worker/rule_evaluator.py:609-626 | the end of a delivery that owns its row, as WorkerOutcomes.DeliveryOutcome characterises it |
| Worker.RuleEvaluationWorker.DeliverCandidates | src/weather_agent/infrastructure/worker/rule_evaluator.py:172-194 | the delivery loop with its set of delivered keys and the disabling of `once:` rules |
| Worker.RuleEvaluationWorker.EvaluateDueRules | src/weather_agent/infrastructure/worker/rule_evaluator.py:133-196 | evaluations committed one by one, deliveries committed together, as WorkerOutcomes.CycleOutcome characterises it |
| Worker.RuleEvaluationWorker.RunOnce | src/weather_agent/infrastructure/worker/rule_evaluator.py:113-118 | a cycle: claim, then evaluate and deliver unless nothing is due |
| WorkerFacts.ClaimedAreDue | src/weather_agent/infrastructure/worker/rule_evaluator.py:120-131 | claimed rules are distinct enabled due rows in key order |
| WorkerFacts.DueAreClaimed | src/weather_agent/infrastructure/worker/rule_evaluator.py:120-131 | every enabled due rule is claimed |
| WorkerFacts.DeliverIsAStep | src/weather_agent/infrastructure/worker/rule_evaluator.py:552-626 | a delivery never raises on a sound table, touches at most one row of its rule, never a finished one, and sends only what the check let pass |
| WorkerOutcomes.DeliveryOutcome | src/weather_agent/infrastructure/worker/rule_evaluator.py:552-626 | a delivery sends exactly when it is granted its row, the check passes and the send succeeds, and the row is then sent with that time and message; a granted row otherwise ends suppressed with the check's reason or the failed send; without a grant no row changes |
| WorkerOutcomes.LoopOutcome | src/weather_agent/infrastructure/worker/rule_evaluator.py:172-194 | in the loop each selected rule is delivered so with its own candidate and attempt; any other turn leaves events and log alone |
| WorkerOutcomes.EvaluationOutcome | src/weather_agent/infrastructure/worker/rule_evaluator.py:145-170 | every due rule whose evaluation does not raise leaves one run row, in order, with its instant and result, and nothing else changes |
| WorkerOutcomes.CycleOutcome | src/weather_agent/infrastructure/worker/rule_evaluator.py:113-196 | without lock, claim or anything due only time passes; a dry or aborted cycle leaves events, log and rules alone; any other claiming cycle delivers the first candidate of each key and every unscheduled one, in order, and switches off exactly the `once:` candidates |
| WorkerCooldown.LoggedSendsRespectTheRule | src/weather_agent/infrastructure/worker/rule_evaluator.py:592-626 | in every run each logged send comes more than a cooldown after every earlier one of its rule: the effective cooldown of the rule's row in the table its cycle started from |
| WorkerCooldown.SendsOfARuleRespectTheCooldown | src/weather_agent/domain/notifications/deduplication.py:101-124 | in every run, of two sent rows of a rule, not both sent before the run, the later send came more than the effective cooldown after the earlier, as the rule table had it when that send's cycle began |
| WorkerCooldown.FixedCooldownSpacesSends | src/weather_agent/domain/rules/service.py:40 | a rule that keeps one effective cooldown (none or 0 counts as 60) has every send of the run further than that from all its other sends |
| WorkerHashes.PayloadCheckIsIdle | src/weather_agent/domain/notifications/deduplication.py:152-175 | in every run from a table whose hashes are of dedupe texts no candidate with a JSON payload is suppressed as unchanged |
| WorkerCron.QueriesSeeAtMostOneRow | src/weather_agent/infrastructure/worker/rule_evaluator.py:211-226 | under the run invariant both single-row queries see at most one row |
| WorkerCron.EvaluationsAreSeparatedBySlots | src/weather_agent/infrastructure/worker/rule_evaluator.py:198-228 | in every run of one worker with a fixed cron schedule, from tables where that holds, a slot lies between any two evaluations of a rule |
| WorkerCron.ClaimsNeverSeeTwoRows | src/weather_agent/infrastructure/worker/rule_evaluator.py:198-228 | with fixed schedules no claim fails on a multiple-row result |
| WorkerCron.CronRuleIsCollectedIff | src/weather_agent/infrastructure/worker/rule_evaluator.py:198-228 | in every run with fixed schedules a claim collects an enabled cron rule exactly when its last slot is no older than the evaluation window and not served yet |
| WorkerCron.NoSlotIsSkipped | src/weather_agent/infrastructure/worker/rule_evaluator.py:203-228 | with claims at most the evaluation window apart, the claim after a slot collects the rule exactly when the slot is not served yet |
| WorkerCron.CollectedRuleServesItsSlot | src/weather_agent/infrastructure/worker/rule_evaluator.py:532-550 | a collected rule whose evaluation does not raise uses up its slot |
| WorkerCron.EverySlotIsServed | src/weather_agent/infrastructure/worker/rule_evaluator.py:113-228 | under the same bound a cycle that gets its lock and evaluates the rule without raising ends with the slot served |
| WorkerClaims.ClaimFailsIff | src/weather_agent/infrastructure/worker/rule_evaluator.py:120-131 | the claim of all rules fails exactly when some enabled rule has a valid cron schedule, its last slot in the window, and several runs since it, or none but several finished events |
| WorkerClaims.ReschedulingCanBlockEveryClaim | src/weather_agent/infrastructure/worker/rule_evaluator.py:211-217 | in any table: a rule evaluated twice while unscheduled and then given a cron schedule whose last slot is before both makes the claim fail for all rules |
| WorkerClaims.ReschedulingRun | src/weather_agent/infrastructure/worker/rule_evaluator.py:120-131 | such a run exists around every enabled unscheduled rule of every rule table without cron schedules, whatever runs and events there are |
| WorkerOnce.LoopDeliversFirstPerKey | src/weather_agent/infrastructure/worker/rule_evaluator.py:172-194 | the loop delivers, in order, the first candidate of each scheduled key and every unscheduled candidate |
| WorkerOnce.LoopDisablesOnceCandidates | src/weather_agent/infrastructure/worker/rule_evaluator.py:172-194 | a completed loop turns off every `once:` candidate and changes no other rule |
| WorkerOnce.OnceRulesFireAtMostOnce | src/weather_agent/infrastructure/worker/rule_evaluator.py:172-194 | in every run a `once:` rule that nobody re-enables, whenever it was created, is delivered at most once, never before its instant, and is then off |
| Aggregates.SelectPoints | src/weather_agent/domain/rule_expression/evaluator.py:130-144 | keeps exactly the points in the closed window and those without an instant, in order |
| Aggregates.CollectMetricValues | src/weather_agent/domain/rule_expression/evaluator.py:147-159 | the metric's values of the selected points in order, or the unknown-metric error |
| AggregateLaws.MetricsAreTheVariables | src/weather_agent/domain/rule_expression/allowlist.py:12 | the allowed metrics are exactly the field names of the weather variables, which all differ |
| AggregateLaws.PercentileIsInterpolation | src/weather_agent/domain/rule_expression/evaluator.py:174-182 | for p in 0..100 the percentile is the interpolated sorted list, with no index error |
| AggregateLaws.PercentileMonotone | src/weather_agent/domain/rule_expression/evaluator.py:174-182 | the percentile grows with p on 0..100 |
| AggregateLaws.PercentileLandmarks | src/weather_agent/domain/rule_expression/evaluator.py:203-233 | it is the minimum at 0, the separately coded median at 50 and the maximum at 100 |
| AggregateLaws.OrderDoesNotMatter | src/weather_agent/domain/rule_expression/evaluator.py:174-221 | percentile and median depend on the multiset of values only |
| AggregateLaws.PercentileDefinedIff | src/weather_agent/domain/rule_expression/evaluator.py:174-182 | exactly when the percentile of a non-empty list raises no index error |
| AggregateLaws.NegativePercentileWrapsAround | src/weather_agent/domain/rule_expression/evaluator.py:174-182 | one rank below 0 the percentile is the maximum |
| AggregateLaws.MeanBetweenExtremes | src/weather_agent/domain/rule_expression/evaluator.py:203-211 | minimum ≤ mean ≤ maximum |
| AggregateLaws.VarianceBounds | src/weather_agent/domain/rule_expression/evaluator.py:223-226 | the variance is at most (max − mean)(mean − min), hence at most a quarter of the squared range |
| AggregateLaws.ZeroVarianceIffConstant | src/weather_agent/domain/rule_expression/evaluator.py:223-226 | the variance is zero exactly when all values are equal |
| AggregateLaws.DeviationAtMostHalfTheRange | src/weather_agent/domain/rule_expression/evaluator.py:223-226 | the standard deviation is at most half the range, and zero exactly for equal values |
| AggregateLaws.SplitWindowSum | src/weather_agent/domain/rule_expression/evaluator.py:130-159 | sums over two abutting windows exceed the whole by the total of the untimed points |
| AggregateLaws.SumMetricMeaning | src/weather_agent/domain/rule_expression/evaluator.py:147-171 | the sum of a window is defined exactly for an allowed metric that some selected point carries; otherwise the error says which failed |
| AggregateLaws.WindowsAddUpIff | src/weather_agent/domain/rule_expression/evaluator.py:213-214 | the sums over abutting windows and the whole are defined and add up exactly when the metric is allowed, each half holds a value and the untimed points total zero, as they do when all points are timed |
| Json.KeySearch.Visit | src/weather_agent/llm/tools/forecast_charts.py:273-288 | the visitor appends exactly the occurrences of the key, in visiting order |
| Json.SearchIsComplete | src/weather_agent/llm/tools/forecast_charts.py:273-288 | whatever a path ending in the key leads to is found, with the text of that path |
| Json.SearchIsSound | src/weather_agent/llm/tools/forecast_charts.py:273-288 | everything found lies on a path ending in the key |
| ChartSpec.BoundedDimension | src/weather_agent/llm/tools/forecast_charts.py:262-270 | a number becomes the nearest one from 1 to the maximum, anything else the default |
| ChartSpec.ValidateDataSourcesOf | src/weather_agent/llm/tools/forecast_charts.py:244-253 | the search-based check, characterised by ChartLaws.DataCheckExact |
| ChartSpec.ValidateFieldsOf | src/weather_agent/llm/tools/forecast_charts.py:256-259 | the search-based check, characterised by ChartLaws.FieldCheckExact |
| ChartSpec.PrepareVegaLiteSpec | src/weather_agent/llm/tools/forecast_charts.py:186-205 | checks, then rewrites the copied dictionary entry by entry, then validates the schema |
| ChartLaws.FieldCheckExact | src/weather_agent/llm/tools/forecast_charts.py:256-259 | accepts exactly the specs whose texts under `field`, at any depth, are all allowed |
| ChartLaws.DataCheckExact | src/weather_agent/llm/tools/forecast_charts.py:244-253 | accepts exactly the specs with at most the named root `data` and no `url`, `values` or `datasets` at any depth |
| ChartLaws.PreparedSpecIsSafe | src/weather_agent/llm/tools/forecast_charts.py:186-205 | every accepted spec, outside `datasets`, has one `data` entry at the root, only allowed fields, no `transform`, and bounded dimensions |
| ChartPreparation.ShapeCheckExact | src/weather_agent/llm/tools/forecast_charts.py:215-241 | accepts exactly objects without composition keys at the root, with a mark or a list of layers, and without `transform` at any depth |
| ChartPreparation.PreparedIff | src/weather_agent/llm/tools/forecast_charts.py:186-218 | a spec is prepared exactly when the range is at most seven days, the checks hold at every depth and the schema validation accepts the result |
| ChartPreparation.PreparedRoot | src/weather_agent/llm/tools/forecast_charts.py:186-205 | the author's root entries stay, scalars with their values; white background unless given; named data, the records, bounded width and height |
| ChartDefaults.DefaultSpecIsAccepted | src/weather_agent/llm/tools/forecast_charts.py:76-101 | without variables there is none; for any non-empty list the default spec passes the shape, data and field checks |
| ChartDefaults.DefaultSpecFailsOnlyOnRangeOrSchema | src/weather_agent/llm/tools/forecast_charts.py:186-212 | preparing the default spec fails exactly on a bad time range or in the schema validation |
| ChartDefaults.DefaultSpecDrawsEveryVariable | src/weather_agent/llm/tools/forecast_charts.py:76-183 | every variable has its part, in order, with time on x, its field on y and in the tooltip, its mark, dashed after the first, and among several a colour |
| TimeAxes.TimeAxisValues | src/weather_agent/llm/tools/chart_time_axes.py:78-92 | the tick loop ends and yields the texts of the arithmetic progression |
| TimeAxes.TicksAreExactlyTheProgression | src/weather_agent/llm/tools/chart_time_axes.py:78-92 | an instant is a tick exactly when it is in range and a whole number of intervals after the first whole hour |
| TimeAxes.AtMostSeventeenTicks | src/weather_agent/llm/tools/chart_time_axes.py:43-75 | every range the validator accepts has at most 17 ticks |
| TimeAxes.IntervalIsTheShortest | src/weather_agent/llm/tools/chart_time_axes.py:43-67 | the interval is the shortest of 1, 2, 3 and 6 hours that serves the range (up to 12, 24, 48 and 72 hours), else 12 |
| TimeAxes.SeventeenTicksHappen | src/weather_agent/llm/tools/chart_time_axes.py:43-75 | the bound is reached by two days from a whole hour |
| AxisLaws.ParentFirstIsTheSame | src/weather_agent/llm/tools/chart_time_axes.py:16-34 | completing a node before visiting its children, as the source does, gives the modelled tree |
| AxisLaws.NormalizeTwice | src/weather_agent/llm/tools/chart_time_axes.py:13-34 | the walk is idempotent |
| AxisPaths.AuthorsValuesStay | src/weather_agent/llm/tools/chart_time_axes.py:23-29 | every value of the author is still at its path, scalars unchanged |
| AxisPaths.NothingElseIsNew | src/weather_agent/llm/tools/chart_time_axes.py:16-34 | anything new lies in the axis of a temporal `time` x-encoding and is a default |
| AxisCompletion.EveryTimeAxisIsCompleted | src/weather_agent/llm/tools/chart_time_axes.py:16-40 | every such axis that is missing, null or a dictionary, at any depth, ends with an entry for every default |
| AxisCompletion.TimeXMeaning | src/weather_agent/llm/tools/chart_time_axes.py:16-40 | which nodes: an `encoding` dictionary whose `x` is a temporal channel of field `time` |
| AxisCompletion.DefaultsOfTheRange | src/weather_agent/llm/tools/chart_time_axes.py:43-75 | a range of up to a day is labelled with upright times, a longer one with slanted days and times; the values are the texts of its ticks |
| ContextKeys.KeyRoundTrip | src/weather_agent/adapters/telegram/context.py:12-20 | a key prints and parses back, for all chat and thread ids |
| ContextKeys.KeyTextInjective | src/weather_agent/adapters/telegram/context.py:12-20 | different keys print differently |
| ContextKeys.LeadingZeroIsNotCanonical | src/weather_agent/infrastructure/memory/thread_memory.py:105-109 | the parser accepts texts no key prints as |
| ThreadMemory.TelegramContextService.GetOrCreateContext | src/weather_agent/adapters/telegram/context.py:40-77 | reads the row of the printed key, creating an empty one |
| ThreadMemory.TelegramContextService.UpdateContext | src/weather_agent/adapters/telegram/context.py:79-97 | overwrites the row under the given text, or fails when there is none |
| ThreadMemory.ThreadMemoryService.StorePendingConfirmation | src/weather_agent/infrastructure/memory/thread_memory.py:23-30 | replaces proposal and time stamp of one context |
| ThreadMemory.ThreadMemoryService.GetPendingConfirmation | src/weather_agent/infrastructure/memory/thread_memory.py:32-46 | answers the proposal, or drops an expired one |
| ThreadMemory.ThreadMemoryService.ClearPendingConfirmation | src/weather_agent/infrastructure/memory/thread_memory.py:48-53 | removes proposal and time stamp |
| ThreadMemory.ThreadMemoryService.SaveTurn | src/weather_agent/infrastructure/memory/thread_memory.py:55-74 | appends the stamped turn, keeps the last twenty, renews the time to live |
| ThreadMemory.ThreadMemoryService.LoadTurns | src/weather_agent/infrastructure/memory/thread_memory.py:76-102 | answers the turns, or drops expired ones |
| MemoryLaws.ContextsAreIndependent | src/weather_agent/infrastructure/memory/thread_memory.py:23-102 | after any calls on any contexts, a context is as if only its own calls had been made |
| MemoryLaws.WritesNeedCanonicalText | src/weather_agent/infrastructure/memory/thread_memory.py:26-30 | a write under a text that parses succeeds exactly when some key prints as that text |
| MemoryLaws.TurnsAreTheLastTwenty | src/weather_agent/infrastructure/memory/thread_memory.py:55-102 | after any calls on a new context the stored turns are the last twenty of the unbounded log since a load last found them too old, with the stamps of the last save |
| MemoryLaws.LoadAnswersTheLog | src/weather_agent/infrastructure/memory/thread_memory.py:55-102 | after any calls on any contexts, loading answers the last twenty of that log, or nothing when the last save is longer ago than the asked, its own or the default time to live |
| MemoryLaws.LoadAnswersLastTwentySaved | src/weather_agent/infrastructure/memory/thread_memory.py:55-102 | in particular, if no earlier load found them too old, loading answers the last twenty turns ever saved, or nothing once too old |
| MemoryLaws.PendingIsTheSurvivor | src/weather_agent/infrastructure/memory/thread_memory.py:23-53 | a proposal is pending exactly when some call stored it and nothing later replaced, cleared or found it expired |
| MemoryLaws.GetAnswersTheSurvivor | src/weather_agent/infrastructure/memory/thread_memory.py:32-46 | after any calls on any contexts, asking answers the surviving proposal exactly when it is no older than the asked time to live |
| MemoryLaws.NoStrayStamps | src/weather_agent/infrastructure/memory/thread_memory.py:23-102 | a time stamp is stored exactly with what it stamps |
| MemoryLaws.ReadsUnderAnyText | src/weather_agent/infrastructure/memory/thread_memory.py:32-102 | reading under any text: unparsable ones fail, others open the row of their key, and an expired value under a text no key prints as is an error |
| RuleService.NotificationRuleService.GenerateUniqueShortId | src/weather_agent/domain/rules/service.py:58-66 | the first unused id among ten draws |
| RuleService.NotificationRuleService.CreateRule | src/weather_agent/domain/rules/service.py:75-104 | appends one row with the given columns, a fresh key and an unused short id, or changes nothing |
| RuleService.NotificationRuleService.FindMatchingScheduledRule | src/weather_agent/domain/rules/service.py:125-164 | the first enabled rule with this identity |
| RuleService.NotificationRuleService.GetRuleForUser | src/weather_agent/domain/rules/service.py:184-203 | the user's rule with this short id |
| RuleService.NotificationRuleService.SetFields | src/weather_agent/domain/rules/service.py:213-236 | rewrites exactly the columns the update names |
| RuleService.NotificationRuleService.UpdateRule | src/weather_agent/domain/rules/service.py:205-241 | rewrites the named columns of one row, or changes nothing |
| RuleService.NotificationRuleService.DisableRule | src/weather_agent/domain/rules/service.py:253-261 | switches one row off |
| RuleService.NotificationRuleService.DeleteRule | src/weather_agent/domain/rules/service.py:263-271 | removes one row, or says there is none |
| RuleService.ShortIdNamesOneRow | src/weather_agent/domain/rules/service.py:184-203 | the single-row query by short id never sees a second row |
| RuleService.CreatedRule | src/weather_agent/domain/rules/service.py:58-104 | one row of the user is appended with exactly the given columns under the next key and the first unused of ten drawn ids; failure exactly on an invalid expression or ten used ids |
| RuleService.UpdatedRule | src/weather_agent/domain/rules/service.py:205-241 | the named columns of one row are set and nothing else; failure exactly without a row or on an invalid expression |
| RuleService.DisabledRuleIsOff | src/weather_agent/domain/rules/service.py:253-261 | the row ends off, everything else stays; failure exactly without a row |
| RuleService.DeletedRule | src/weather_agent/domain/rules/service.py:263-271 | the row goes, the others stay in order; without one nothing changes |
| RuleService.StripHashMeaning | src/weather_agent/domain/rules/service.py:184-203 | stripping removes all leading `#` signs and nothing else |
| RulesToolbox.Toolbox.ExecutePropose | src/weather_agent/llm/tools/rules_tools.py:285-348 | rejects, or stores a create or edit proposal and leaves the rules alone |
| RulesToolbox.Toolbox.ScheduleNotificationTool | src/weather_agent/llm/tools/rules_tools.py:557-618 | rejects, or stores a scheduling proposal |
| RulesToolbox.Toolbox.DeleteNotificationTool | src/weather_agent/llm/tools/rules_tools.py:521-554 | rejects, or stores a deletion request for an existing rule of the user |
| RulesToolbox.Toolbox.ExecuteConfirm | src/weather_agent/llm/tools/rules_tools.py:356-489 | all branches of a confirm: what changes, what is cleared, what stays pending |
| RulesToolbox.Toolbox.ExecuteDelete | src/weather_agent/llm/tools/rules_tools.py:370-388 | the deletion branch |
| RulesToolbox.Toolbox.ApplyPending | src/weather_agent/llm/tools/rules_tools.py:403-489 | the scheduling, editing and creating branches, whose failures keep the proposal |
| RulesToolbox.Toolbox.ExecuteCancel | src/weather_agent/llm/tools/rules_tools.py:497-518 | drops whatever is pending |
| ToolboxLaws.CallIsAStep | src/weather_agent/llm/tools/rules_tools.py:285-618 | only a confirm of a readable proposal changes the table, by one row of the caller, and then consumes the proposal; no call touches another context's proposal |
| ToolboxLaws.OthersRulesUntouched | src/weather_agent/llm/tools/rules_tools.py:356-489 | over any sequence of tool calls by others a user's rules stay as they are |
| ToolboxLaws.ProposalsActAtMostOnce | src/weather_agent/llm/tools/rules_tools.py:356-518 | between two changes made from one context lies the storing of another proposal there |
| ToolboxLaws.PendingIsTheLastProposal | src/weather_agent/llm/tools/rules_tools.py:285-348 | what is pending was stored by the last proposing call of that context |
| ToolboxLaws.SchedulesAreNeverDuplicated | src/weather_agent/domain/rules/service.py:125-164 | without confirmed edits no run has two enabled scheduled rules with the same identity |
| ToolboxLaws.EditKeepsNoTwinsIff | src/weather_agent/llm/tools/rules_tools.py:451-467 | an edit creates duplicates exactly when another enabled rule already is what it makes |
| ToolboxRoundTrips.ScheduleThenConfirm | src/weather_agent/llm/tools/rules_tools.py:557-618 | afterwards the confirmer has exactly the proposed notification, created only if absent; a second confirm finds nothing |
| ToolboxRoundTrips.ProposeThenConfirm | src/weather_agent/llm/tools/rules_tools.py:285-348 | the table gains exactly one row, the confirmer's, in the proposer's chat |
| ToolboxRoundTrips.EditThenConfirm | src/weather_agent/llm/tools/rules_tools.py:451-467 | only expression and description of the named rule change; without one the edit stays pending |
| ToolboxRoundTrips.EditMakesTwins | src/weather_agent/llm/tools/rules_tools.py:451-467 | in every sound table without duplicates, with two enabled schedules that differ in the expression only, editing one to the other's expression ends with duplicates |
| ToolboxRoundTrips.EditingRun | src/weather_agent/llm/tools/rules_tools.py:285-618 | such a run exists from the empty table for any two valid expressions: two schedules, then the edit |
| ToolboxRoundTrips.DeleteThenConfirm | src/weather_agent/llm/tools/rules_tools.py:370-388 | exactly the requested row goes, and only if the requester confirms |
| ToolboxOutcomes.ScheduleAcceptedIff | src/weather_agent/llm/tools/rules_tools.py:557-618 | a schedule is accepted exactly when expression and schedule are valid, a cron one uses no fixed dates and the place is known or blank; a refusal stores nothing |
| ToolboxOutcomes.ProposeAcceptedIff | src/weather_agent/llm/tools/rules_tools.py:285-348 | a rule or edit is accepted exactly when the expression is valid and the place is known or blank |
| ToolboxOutcomes.DeletionAcceptedIff | src/weather_agent/llm/tools/rules_tools.py:521-554 | a deletion is accepted exactly when the user has a rule with this short id |
| ToolboxOutcomes.CancelDrops | src/weather_agent/llm/tools/rules_tools.py:497-518 | a cancel leaves nothing pending, touches no rule and other context, and answers "cancelled" exactly when something unexpired was pending |
| ToolboxOutcomes.CancelThenConfirm | src/weather_agent/llm/tools/rules_tools.py:356-518 | after a cancel, whatever was proposed, a confirm by anyone in the context finds nothing and changes no rule |
| ToolboxOutcomes.StaleOrUnreadableIsDropped | src/weather_agent/llm/tools/rules_tools.py:356-403 | confirming an expired or unreadable proposal drops it without effect |
| ToolboxOutcomes.ConfirmDropsIff | src/weather_agent/llm/tools/rules_tools.py:356-489 | a confirm that goes through drops the proposal; one that fails keeps it and every rule, except that a failed deletion drops it too |
| ToolboxOutcomes.ConfirmFailsIff | src/weather_agent/llm/tools/rules_tools.py:356-489 | a confirm fails exactly with the first obstacle: nothing to create, no short id, no such rule, no location, no schedule, invalid expression, ids used up |
| Locations.LocationService.CheckNameConflict | src/weather_agent/domain/locations.py:102-115 | the first other enabled location of the user with this normalised name, as an error |
| Locations.LocationService.CheckAliasConflicts | src/weather_agent/domain/locations.py:117-151 | the first clash of an alias with another location's name or alias, as an error |
| Locations.LocationService.CreateLocation | src/weather_agent/domain/locations.py:153-170 | appends an enabled location, or changes nothing |
| Locations.LocationService.UpdateLocation | src/weather_agent/domain/locations.py:185-206 | rewrites one row; a rejected alias leaves the new name in place |
| Locations.LocationService.DisableLocation | src/weather_agent/domain/locations.py:226-234 | switches one row off |
| Locations.LocationService.EnableLocation | src/weather_agent/domain/locations.py:216-224 | switches one row on, unchecked |
| Locations.LocationService.DeleteLocation | src/weather_agent/domain/locations.py:208-214 | removes one row, or says there is none |
| Locations.LocationService.ResolveLocation | src/weather_agent/domain/locations.py:263-297 | first match by name, then by alias |
| LocationLaws.NameCheckExact | src/weather_agent/domain/locations.py:102-115 | accepts exactly a name no other enabled location of the user has, else names a holder |
| LocationLaws.AliasCheckExact | src/weather_agent/domain/locations.py:117-151 | accepts exactly aliases that neither name nor repeat an alias of another enabled location of the user, else names alias and holder |
| LocationLaws.CreatedLocation | src/weather_agent/domain/locations.py:153-170 | one enabled location with the given columns is appended, or the first clash is answered and nothing changes |
| LocationLaws.UpdatedLocation | src/weather_agent/domain/locations.py:185-206 | the given columns of one row are set; a taken name changes nothing, a taken alias only the name |
| LocationLaws.SwitchedOrDeleted | src/weather_agent/domain/locations.py:208-234 | enabling, disabling and deleting touch the one row, or nothing |
| LocationLaws.UpdateKeepsDistinct | src/weather_agent/domain/locations.py:185-206 | an update keeps names distinct and aliases disjoint, even when rejected half way |
| LocationLaws.EnabledLocationsStayDistinct | src/weather_agent/domain/locations.py:102-234 | in every run without re-enabling, enabled locations of a user have distinct names and disjoint aliases |
| LocationLaws.EnableKeepsDistinctIff | src/weather_agent/domain/locations.py:216-224 | re-enabling keeps that exactly when the name check passes with the location excluded and it shares no alias with another enabled one |
| LocationLaws.ReenablingRun | src/weather_agent/domain/locations.py:153-234 | for every user, name and place: create, disable, create with the same name, enable ends with two confusable locations |
| LocationLaws.ResolveIgnoresRowOrder | src/weather_agent/domain/locations.py:263-297 | under that invariant the lookup is the same for every order of the rows |
| LocationLaws.LookupsAreDeterministic | src/weather_agent/domain/locations.py:263-297 | so in every such run lookups do not depend on the order the database picks |
| LocationLaws.ResolveMeaning | src/weather_agent/domain/locations.py:263-297 | a lookup answers an enabled location of the user with that name if there is one, else one with that alias, else nothing |
| LocationLaws.CreateResolves | src/weather_agent/domain/locations.py:153-170 | what a create does to every lookup: the new name wins, new aliases only fill gaps |
| AgentLoop.Invoke | src/weather_agent/agent_factory.py:63-87 | the loop returns the specified transcript and shows the model the specified inputs |
| AgentLoop.Answer | src/weather_agent/agent_factory.py:123-144 | a tool message under the call's id (the tool's name without one), with the text of a known tool that returned, else failed and saying why |
| AgentLoop.TranscriptIsComplete | src/weather_agent/agent_factory.py:63-87 | for any model and tools: every call is answered once, in order, with its id and its tool's text or failure, before the next model message; the end calls nothing; at most the allowed number of model calls, or the apology after that many |
| AgentLoop.InputsAreTheTranscriptSoFar | src/weather_agent/agent_factory.py:63-121 | each model call sees the system prompt and the transcript so far, and its answer comes next, with all its calls |

## Left out

Delivery:

- Transactions: a write is visible to other workers at once, and a rollback of one worker's batch is not interleaved with others; in the single-worker model a failed delivery phase is undone as a whole. Results are about recorded sends: a rolled-back batch can forget a message already sent.
- The reclaim of a stale row is one step. The code does not guard it, and two interleaved reclaims would both succeed.
- Deleting rules sets `rule_id` of their events to null; rows, short ids of events and the audit log are not part of this model.
- SHA-256 is an injective function with hexadecimal digests; cron and ISO parsing are a calendar that gives the greatest slot not after an instant, and parses instants.
- WorkerCron.NoSlotIsSkipped: assumes claims at most the evaluation window apart, because the loop sleeps a full interval after each cycle's work and so does not guarantee it.
- A rule's own `dry_run` flag does not stop delivery in the code, so the model has only the call argument. Messages, reasons' wording and forecasts are parameters or absent.
- Rules change only between the cycles of a worker, never in the middle of one.
- A worker's run starts from any sound tables: indexed, every event with a hash (the worker writes no other), sent times exactly on sent rows, no stamp later than the clock. The laws about cron rules and hashes also ask their invariant of the first tables, which empty tables and the end of any such run meet.

Arithmetic and charts:

- Reals instead of floats: rounding, infinities and NaN are not modelled. The square root of the standard deviation is the non-negative root, as a relation. The remaining functions of rule expressions (deltas, rates, clamping) and the expression language itself are left out.
- Wall-clock instants without daylight-saving changes; the text of an instant is a parameter.
- AxisLaws.NormalizeTwice: the walk is modelled on values, so updates in place and sharing of subtrees within one spec are not captured.
- Schema validation is a parameter and rendering is left out; the Polish texts of the default chart are parameters.

Chat tools:

- ContextKeys.KeyRoundTrip: Python's `int` also accepts signs, spaces and underscores; the model parses an optional minus and decimal digits.
- The columns of a rule that no modelled code reads: expression language, lead time, and the creation and update times.
- Location lookup inside a proposal, including geocoding and the automatic saving of a new location, is a parameter; so are expression validation and the fingerprint of a notification context. Short ids typed by users arrive in upper case without `#`.
- Errors of the database itself, and the lock around the tools.
- Text normalisation of location names is a parameter; the default location is left out.
- An exception raised by the model ends the tool-calling loop in the code; in the model every model call answers. The asynchronous variant of the loop is the same loop.
- Unicode white space: trimming removes the ASCII white-space characters.

Invite codes, retention jobs, warning storage, snapshot deltas, retries and the HTTP, chat and
health plumbing would only add easy members.
