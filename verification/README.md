# limnopulse: verified models of its protocols

limnopulse watches aquaculture sensors. This project models the parts of it that are hard to get right by reading
one function at a time, and proves what they keep in every run:

- **Deployments** (`Deployments`, `DeploymentRepository`): which Asset a Component was deployed to, and when. A start and an end are
  several reads followed by one conditional transaction over four rows, and any number of them interleave.
- **Alert evaluation** (`AlertDecide`, `AlertStore`, `AlertIncidents`, `AlertHistory`, `AlertFencing`, `AlertEpochs`,
  `AlertSchedules`, `AlertCooldown`, `AlertNarrative`, `AlertGrid`, `ActiveIndex`, `EvaluationSlots`, `WindowSamples`): windows of
  samples, the incident state machine, and the lease protocol that runs it beside acknowledgements, manual resolutions and rule edits.
- **Telegram rate limiter** (`TelegramLimiter`): two token buckets in one atomic script, with expiring keys.
- **Delivery workers** (`DeliveryStates`, `DeliveryPolicy`, `DeliveryStore`, `DeliveryWorker`, `DeliveryEnds`,
  `ProviderFeedback`, `FeedbackOwnership`): at-most-five provider calls across redeliveries, crashes and lost answers, and
  feedback that arrives in any order.
- **Relay** (`RelayDiscovery`, `RelayPriority`, `RelayBackfill`): paginated discovery, weighted interleaving, and the
  backfill of relay fields.

A protocol is a state machine over its steps: every read and every transaction is a step of its own, and a run is any
legal sequence of steps. Code that updates variables or fields in place is a method or a class, proved against a
specification function or predicate. Instants and durations are integers, rates and sample values are reals, hashed
identities are modelled by their inputs, and calls into databases, queues and providers are step parameters or
nondeterministic choices.

## What the proofs found

- Lease epochs alone do not grow: disabling a rule removes its epoch (`AlertFencing.EpochRepeatsAfterDisable`). Between
  consecutive claims they grow if and only if no such edit was committed in between
  (`AlertEpochs.EpochsGrowExactlyWithoutRemoval`). The pair of rule version and epoch always grows (`AlertFencing.FencesOnlyGrow`).
- Lease and state revision do not suffice for a commit after the schedule backfill has made an old slot due again: if the
  incident of that slot was resolved by hand, its event exists and the opening is refused
  (`AlertFencing.RescheduledSlotIsRefused`). The exact condition is `AlertFencing.FencedCommitLaw`.
- "The last evaluations are breaches one cadence apart" decides an opening only on one slot grid. Off the grid an
  indeterminate evaluation between two breaches is skipped (`AlertDecide.OffGridOpensAcrossSilence`), and that is the only
  exception (`AlertDecide.LastEvaluationsDecideExactly`).
- Slots are lost when the evaluator runs with an allowed lateness other than the 15 seconds that due times are computed with
  (`AlertGrid.TwoLatenessesLoseTime`). Counted slots equal elapsed slots if and only if the due time the schedule was set to is on the
  evaluator's grid, or nothing has been committed since (`AlertGrid.CountsExactlyFromTheGrid`).
- A rule can stay enabled without a schedule: `update_rule` decides about the schedule from the rule it read but writes only the
  named fields, so a stale read can take an enabled rule off its schedule (`AlertSchedules.StaleUpdateStrandsARule`). Exactly which
  updates do is `AlertSchedules.StepStrandsExactly`.
- Feedback of several attempts of one delivery depends on its order (`FeedbackOwnership.TwoAttemptsDependOnOrder`). It does not if
  and only if one attempt has a say (`FeedbackOwnership.OrderMattersExactly`).
- The relay backfill offers some rows an update it then refuses: the condition repeats attributes as strings, and a Telegram outbox
  with a missing or null status or creation time reads as the empty string (`RelayBackfill.MissingStatusIsRefused`). The exact condition is
  `RelayBackfill.UpdateIsAccepted`.
- Prioritisation drops candidates of a kind its pattern does not list, so it is a permutation if and only if every
  kind is listed (`RelayPriority.PermutationExactly`).
- Two readings of one device for one instant make a window depend on arrival order (`WindowSamples.MinimumDependsOnOrder`). The
  canonical samples are independent of order if and only if no two different samples of one device and bucket are both newest
  (`WindowSamples.OrderMattersExactlyForTies`); when a tie reaches the result is `WindowSamples.TieChangesResultExactly`.
- A start for the wrong tenant on a free Component is reported as an overlap if and only if the Component has a marker, because
  the marker's condition is looked at before the Component's (`DeploymentRepository.FreeStartOverlapsExactly`,
  `DeploymentRepository.WrongTenantReadsAsOverlap`).

## Model

| member | source | states |
|---|---|---|
| `Deployments.EveryRunKeepsTableWellFormed` | src/limnopulse_api/adapters/dynamodb_deployments.py:257-474 | In every interleaving of starts and ends over a well-formed table, with or without markers, intervals stay disjoint, at most one is open, CURRENT equals it, mirror and history agree, and a marker holds the latest end |
| `Deployments.StepKeepsInvariant` | src/limnopulse_api/adapters/dynamodb_deployments.py:257-380 | One step of any call keeps the table well formed and keeps what the call itself will rely on |
| `Deployments.StartKeepsWellFormed` | src/limnopulse_api/adapters/dynamodb_deployments.py:257-299 | A start transaction whose conditions hold leaves a well-formed table, although the history was read earlier |
| `Deployments.EndKeepsWellFormed` | src/limnopulse_api/adapters/dynamodb_deployments.py:301-380 | An end transaction whose conditions hold leaves a well-formed table and moves the marker to the latest end |
| `Deployments.ReadHistoryFollows` | src/limnopulse_api/adapters/dynamodb_deployments.py:384-414 | Reading only the last history row establishes that every interval has ended by the new start |
| `Deployments.EvolvingKeepsClients` | src/limnopulse_api/adapters/dynamodb_deployments.py:93-136 | Marker sequences make stale observations harmless: what a waiting call knows survives any other call's transaction |
| `Deployments.LatestRowEndsLast` | src/limnopulse_api/adapters/dynamodb_deployments.py:384-414 | With disjoint intervals the row that starts last also ends last |
| `Deployments.QueryHasOneAnswer` | src/limnopulse_api/adapters/dynamodb_deployments.py:233-253 | A descending query limited to one row has exactly one possible answer |
| `Deployments.ContainingRowIsLatest` | src/limnopulse_api/adapters/dynamodb_deployments.py:199-202 | The interval that contains an instant is the last one starting by it |
| `Deployments.LookupIsExhaustiveSearch` | src/limnopulse_api/adapters/dynamodb_deployments.py:233-253 | In every reachable table the one-row lookup returns what searching all intervals of the tenant would return |
| `Deployments.AttributionIsStable` | src/limnopulse_api/adapters/dynamodb_deployments.py:233-253 | An instant attributed to an ended interval stays attributed to it in every continuation of the run |
| `DeploymentRepository.Repository.QueryRange` | src/limnopulse_api/adapters/dynamodb_deployments.py:233-253 | Finds the greatest history key of a Component, optionally among those starting by an instant |
| `DeploymentRepository.Repository.GetDeploymentAt` | src/limnopulse_api/adapters/dynamodb_deployments.py:233-253 | Returns the interval of the tenant that contains the instant, and none exactly when there is none |
| `DeploymentRepository.Repository.EnsureAfterPrevious` | src/limnopulse_api/adapters/dynamodb_deployments.py:384-414 | Refuses exactly when some interval is open or ends after the start, and otherwise returns the latest end |
| `DeploymentRepository.Repository.TransactStart` | src/limnopulse_api/adapters/dynamodb_deployments.py:426-474 | Applies all writes of a start or none, and classifies the failed conditions |
| `DeploymentRepository.Repository.StartDeployment` | src/limnopulse_api/adapters/dynamodb_deployments.py:257-299 | Run alone, a start succeeds exactly when the Component is free, the parents are active and the receipt is new; otherwise nothing changes; on a free interval it is called an overlap exactly for the wrong tenant of a Component with a marker |
| `DeploymentRepository.Repository.EndDeployment` | src/limnopulse_api/adapters/dynamodb_deployments.py:301-380 | Run alone, an end succeeds exactly when the deployment is open at the expected version and the end is later than the start; otherwise nothing changes |
| `DeploymentRepository.AdmissibleStartHolds` | src/limnopulse_api/adapters/dynamodb_deployments.py:511-527 | With a fresh marker the transaction's conditions hold exactly when the start is admissible |
| `DeploymentRepository.FreeStartOverlapsExactly` | src/limnopulse_api/adapters/dynamodb_deployments.py:511-527 | With a free interval and a new receipt, a start is refused as an overlap if and only if the Component has a marker and belongs to another tenant |
| `DeploymentRepository.WrongTenantReadsAsOverlap` | src/limnopulse_api/adapters/dynamodb_deployments.py:511-527 | On the table one ended deployment leaves behind, a later start for another tenant is reported as an overlap; on the same history without a marker, as an inactive Component |
| `DeploymentRepository.OpenRowCanEnd` | src/limnopulse_api/adapters/dynamodb_deployments.py:476-508 | With a fresh marker no condition of ending an open deployment can fail |
| `AlertDecide.RequiredSlotsIsLeastCover` | internal/alertevaluator/state_machine.go:260-265 | The required slots are the least positive number of cadences that covers the duration |
| `AlertDecide.OpenIncidentLoop` | internal/alertevaluator/state_machine.go:189-220 | Building the opening channel by channel gives one ready outbox per channel, or a silent suppressed opening during cooldown |
| `AlertDecide.CollectChannels` | internal/alertevaluator/state_machine.go:222-258 | Collecting map keys in any order and sorting them gives one fixed channel order |
| `AlertDecide.RecoverIncidentLoop` | internal/alertevaluator/state_machine.go:222-258 | Recovery writes one blocked outbox per stored opening outbox, and none for a suppressed incident |
| `AlertDecide.DecideStep` | internal/alertevaluator/state_machine.go:141-187 | Updating one local state field by field computes the decision function |
| `AlertDecide.StateSummarisesHistory` | internal/alertevaluator/state_machine.go:141-187 | After any trace the stored counter is the longest run of consecutive breaches at its end, and the mode says whether an incident is open |
| `AlertDecide.OpensExactlyWhenConfirmed` | internal/alertevaluator/state_machine.go:141-187 | For every trace with increasing slots an incident opens if and only if none is active and the relevant history ends in the required run |
| `AlertDecide.GridOpensOnLastEvaluations` | internal/alertevaluator/state_machine.go:141-187 | On one slot grid an incident opens if and only if the last required evaluations themselves are breaches one cadence apart |
| `AlertDecide.LastEvaluationsDecideExactly` | internal/alertevaluator/state_machine.go:141-187 | For every trace with increasing slots, grid or not: a run of the required last evaluations opens when no incident is active, and an opening has that run if and only if no silent evaluation lies among them |
| `AlertDecide.RunWithoutSilence` | internal/alertevaluator/state_machine.go:141-187 | The last evaluations are a run if and only if the relevant ones are and no silent evaluation interrupts them |
| `AlertDecide.OffGridOpensAcrossSilence` | internal/alertevaluator/state_machine.go:150-160 | A concrete off-grid trace opens although an indeterminate evaluation lies between its two breaches |
| `AlertDecide.GridRunIsContiguous` | internal/alertevaluator/state_machine.go:141-187 | On the grid nothing silent fits inside a run of breaches |
| `AlertIncidents.StepKeepsInvariant` | internal/alertevaluator/dynamo/store.go:89-278 | Claim, load, commit, acknowledge, resolve, edit and replace steps all keep state and events in agreement |
| `AlertIncidents.OneIncidentPerRule` | internal/alertevaluator/dynamo/store.go:147-278 | In every run a rule has at most one unresolved event, the state is active exactly when it exists, names it, and agrees about suppression |
| `AlertIncidents.CommitKeepsIncidents` | internal/alertevaluator/dynamo/store.go:167-218 | A fenced commit keeps the agreement between state and events |
| `AlertIncidents.CommitKeepsOutboxes` | internal/alertevaluator/dynamo/store.go:332-387 | A fenced commit keeps every outbox tied to its event and every recovery tied to its opening |
| `AlertIncidents.AcknowledgeKeeps` | src/limnopulse_api/adapters/alert_events.py:89-130 | Acknowledging keeps state and event in agreement |
| `AlertIncidents.ResolveKeeps` | src/limnopulse_api/adapters/alert_events.py:132-177 | Manual resolution keeps the agreement, with the state write and without it |
| `AlertIncidents.UnmatchedResolveIsRefused` | src/limnopulse_api/adapters/alert_events.py:179-208 | When the state that was read does not name the event, the resolution can no longer commit, so leaving out the state check is harmless |
| `AlertIncidents.EditKeeps` | src/limnopulse_api/adapters/alert_rules.py:100-424 | Rule updates of any subset of fields and replacements, with their administrative resolution, keep the agreement although the rule read may be stale |
| `AlertIncidents.ResettingKeeps` | src/limnopulse_api/adapters/alert_event_state.py:18-69 | Writing a resolved or reset evaluator state keeps the agreement |
| `AlertIncidents.RecoveryFollowsOpening` | internal/alertevaluator/dynamo/store.go:178-217 | In every run an outbox belongs to a stored event, and a recovery exists only for a resolved event whose opening outbox for the same channel is stored and named |
| `AlertHistory.RunIsExec` | internal/alertevaluator/runner.go:162-227 | Recording history never influences a run, so what holds of every run holds of its record |
| `AlertFencing.FencesOnlyGrow` | internal/alertevaluator/dynamo/store.go:89-118 | In every run claims and commits of a rule carry strictly increasing fences, and each commit spends a claimed one |
| `AlertFencing.StaleCommitIsRefused` | internal/alertevaluator/dynamo/store.go:220-252 | A commit can succeed only under the newest claim of its rule |
| `AlertFencing.EpochRepeatsAfterDisable` | src/limnopulse_api/domain/alert_scheduling.py:11-21 | A concrete run in which two claims carry the same epoch because the rule was disabled between them |
| `AlertEpochs.EpochsGrowExactlyWithoutRemoval` | internal/alertevaluator/dynamo/store.go:89-118 | In every run two consecutive claims of a rule carry increasing epochs if and only if no edit that takes the rule off its schedule was committed between them; otherwise the later one starts again at one |
| `AlertEpochs.EpochsGrowWhileScheduled` | internal/alertevaluator/dynamo/store.go:89-118 | Any two claims of a rule with no such edit between them carry increasing epochs |
| `AlertEpochs.SameClaims` | internal/alertevaluator/dynamo/store.go:89-118 | The claims those laws speak of are the ones the fence record holds, in the same order |
| `AlertSchedules.StepStrandsExactly` | src/limnopulse_api/adapters/alert_rules.py:100-176 | For every step of every run: an active rule becomes enabled without a due time if and only if the step commits an update that changes its meaning believing it disabled, or that enables it believing it already was |
| `AlertSchedules.FreshReadsKeepSchedules` | src/limnopulse_api/adapters/alert_rules.py:100-176 | In every run whose committed updates read the enabled flag as it is stored, every active enabled rule has a due time |
| `AlertSchedules.StaleUpdateStrandsARule` | src/limnopulse_api/adapters/alert_rules.py:140-145 | A concrete run in which a stale update takes an enabled rule off its schedule |
| `AlertFencing.CommittedSlotsIncrease` | internal/alertevaluator/runner.go:182-215 | For every rule, committed slots strictly increase until its schedule is set anew, by an edit or a rescheduling |
| `AlertFencing.EverySlotCountedOnce` | internal/alertevaluator/runner.go:291-296 | For every rule with a due time, rescheduled or not, the evaluated plus missed slots since its schedule was set equal the slots passed if and only if every slot committed since is on the grid |
| `AlertFencing.DriftIsOffGridTime` | internal/alertevaluator/runner.go:291-296 | The time not covered by counted slots is zero exactly when every committed slot is on the grid |
| `AlertFencing.FencedCommitLaw` | internal/alertevaluator/dynamo/store.go:178-217 | In every run, with distinct channels, a commit succeeds if and only if its fence and its state revision hold and, should it open an incident, the event it would create does not exist |
| `AlertFencing.RescheduledSlotIsRefused` | internal/alertevaluator/dynamo/backfill.go:217-245 | A concrete run in which an evaluator holds lease and current state for a slot the schedule backfill made due again, and is refused because the event of that slot exists |
| `AlertFencing.FencedCommitSucceeds` | internal/alertevaluator/dynamo/store.go:178-217 | While the schedule backfill has not touched the rule, holding fence and state revision is all such a commit needs |
| `AlertNarrative.StoredStateSumsUpItsStory` | internal/alertevaluator/dynamo/store.go:147-278 | In every run the stored state of a rule sums up its committed evaluations, manual resolutions and resetting edits: active exactly when they leave an incident open, a pending counter exactly the longest run of breaches they end in |
| `AlertNarrative.CommitOpensExactlyWhenConfirmed` | internal/alertevaluator/state_machine.go:141-187 | In every run a commit that takes effect opens an incident if and only if the rule has none open and its committed history, with this evaluation, ends in the required run |
| `AlertNarrative.StoryActiveMeansUnresolved` | internal/alertevaluator/dynamo/store.go:147-278 | In every run the committed history of a rule leaves an incident open exactly when the table holds an unresolved event of it |
| `AlertNarrative.UnresolvedOpeningIsNewest` | internal/alertevaluator/dynamo/store.go:147-278 | In every run an opening on record that is not resolved is the newest of its rule and the one the stored state is active for |
| `AlertCooldown.CooldownIsKept` | internal/alertevaluator/state_machine.go:189-220 | In every run two notified openings of a rule are at least the first one's cooldown apart, across manual resolutions too |
| `AlertCooldown.SuppressedIncidentsAreSilent` | internal/alertevaluator/state_machine.go:222-258 | A suppressed incident names the last notified event as its source, lies inside its cooldown, and never gets an outbox |
| `AlertCooldown.LastNotifiedIsLast` | internal/alertevaluator/state_machine.go:189-220 | The remembered notified opening is the last one of the rule |
| `AlertCooldown.ResolveIsQuiet` | src/limnopulse_api/adapters/alert_event_state.py:18-45 | Manual resolution keeps cooldown and last notified event |
| `AlertCooldown.EditIsQuiet` | src/limnopulse_api/adapters/alert_rules.py:100-297 | Rule edits keep cooldown and last notified event |
| `ActiveIndex.StepKeepsIndex` | internal/alertevaluator/dynamo/store.go:308-313 | No step puts index keys on an event that is not open or acknowledged, and none leaves a new such event without them |
| `ActiveIndex.InterleavingKeepsIndex` | internal/alertevaluator/dynamo/store.go:430-440 | The same over any finite interleaving of other operations |
| `ActiveIndex.Backfill.UpdateActiveAlertIndex` | internal/alertevaluator/dynamo/backfill.go:124-150 | The conditional write indexes an event only while it is open or acknowledged |
| `ActiveIndex.Backfill.ApplyPage` | internal/alertevaluator/dynamo/backfill.go:36-122 | After a page no event of it is missing from the index, whatever ran in between |
| `ActiveIndex.Backfill.Run` | internal/alertevaluator/dynamo/backfill.go:36-122 | A full pass that runs beside all other operations leaves the index sound and complete |
| `ActiveIndex.IndexedListingIsListingByStatus` | src/limnopulse_api/adapters/alert_events.py:66-81 | In every run from a sound and complete index the indexed events are exactly the open and acknowledged ones |
| `ActiveIndex.ListShowsNewestActive` | src/limnopulse_api/adapters/alert_events.py:66-81 | In every such run the listing shows the newest open and acknowledged events, newest first and at most the limit; unless it reports being cut off it shows them all, and if only the limit cuts it off it shows exactly the first of them up to the limit |
| `ActiveIndex.AnswerIsFirst` | src/limnopulse_api/adapters/alert_events.py:74-75 | A descending query shows an entry exactly when fewer entries than it shows precede it, wherever the page ends |
| `EvaluationSlots.NextIsFirst` | internal/alertevaluator/schedule.go:42-49 | The next complete slot is the first grid slot not before a time |
| `EvaluationSlots.LatestIsLast` | internal/alertevaluator/schedule.go:38-40 | The latest complete slot is the last grid slot whose lateness has passed |
| `EvaluationSlots.SlotsShareAGrid` | internal/alertevaluator/schedule.go:38-49 | Any two computed slots are a whole number of cadences apart |
| `AlertGrid.CountsExactlyFromTheGrid` | internal/alertevaluator/runner.go:75 | In every run whose slots are latest complete slots, whatever its due times: every slot since a schedule was set is counted if and only if the due time it was set to is on the evaluator's grid, or nothing was committed since |
| `AlertGrid.OneLatenessCountsEverySlot` | internal/alertevaluator/schedule.go:38-49 | In every run whose due times and slots are computed with one allowed lateness, every rule with a due time has every slot counted |
| `AlertGrid.TwoLatenessesLoseTime` | internal/alertevaluator/dynamo/backfill.go:217-219 | A concrete run with due times computed for 15 seconds and slots for 20, in which the slots counted do not cover the time passed |
| `WindowSamples.Canonicalise` | internal/alertevaluator/quality.go:63-81 | The loop leaves, for every device and bucket with an eligible sample, the first to arrive of the newest ones, and nothing else |
| `WindowSamples.CanonicalIsUnique` | internal/alertevaluator/quality.go:63-81 | Without ties the canonical map depends only on which samples arrived, not on order or repetition |
| `WindowSamples.CanonicalIsDetermined` | internal/alertevaluator/quality.go:63-81 | Ties or not, the list of samples determines the canonical map |
| `WindowSamples.OrderMattersExactlyForTies` | internal/alertevaluator/quality.go:76-80 | Every order of the samples gives the same canonical map if and only if no two different eligible samples of one device and bucket are both newest |
| `WindowSamples.TiesDependOnOrder` | internal/alertevaluator/quality.go:76-80 | Two concrete readings of one device for one instant: in either order the first is the only one kept |
| `WindowSamples.CoverageIsNeverClamped` | internal/alertevaluator/quality.go:94-97 | Occupied buckets never exceed expected buckets |
| `WindowSamples.Gather` | internal/alertevaluator/quality.go:83-96 | Walking the map in any order collects its buckets, devices, samples and latest time |
| `WindowSamples.Least` | internal/alertevaluator/quality.go:133-138 | The minimum aggregate is a value of the window and none is smaller |
| `WindowSamples.Greatest` | internal/alertevaluator/quality.go:139-144 | The maximum aggregate is a value of the window and none is greater |
| `WindowSamples.MeanOfBuckets` | internal/alertevaluator/quality.go:145-170 | Sorting and summing run by run gives the mean over occupied buckets of each bucket's mean |
| `WindowSamples.MeanIsBetween` | internal/alertevaluator/quality.go:145-170 | The mean of bucket means lies between the minimum and the maximum |
| `WindowSamples.AverageOfLast` | internal/alertevaluator/quality.go:171-196 | The last aggregate is the average of each device's newest recent sample, and absent without any |
| `WindowSamples.NewestIsUnique` | internal/alertevaluator/quality.go:171-183 | The newest sample of each device is determined by the canonical map |
| `WindowSamples.EvaluateSamples` | internal/alertevaluator/quality.go:56-116 | The evaluation returns exactly what the canonical samples say: counts, coverage, aggregate, staleness; a window without extent or interval is insufficient |
| `WindowSamples.ResultIsDetermined` | internal/alertevaluator/quality.go:56-116 | Ties or not, the list of samples determines the result |
| `WindowSamples.OrderDoesNotMatter` | internal/alertevaluator/quality.go:56-116 | Without ties, samples in another order, or repeated, give the same result |
| `WindowSamples.TieChangesResultExactly` | internal/alertevaluator/quality.go:56-116 | For every window and two tied readings: their order changes the result if and only if the window is covered, its aggregate counts them (minimum, maximum, mean, and last value when recent) and their values differ |
| `WindowSamples.MinimumDependsOnOrder` | internal/alertevaluator/quality.go:56-116 | The minimum of readings 1 and 2 for one instant is 1 in one order and 2 in the other |
| `TelegramLimiter.RedisLimiter.Eval` | internal/notifications/telegramworker/limiter.go:42-84 | The script admits exactly when both buckets hold a token, takes one from each or none, and writes both back |
| `TelegramLimiter.RedisLimiter.Acquire` | internal/notifications/telegramworker/limiter.go:104-143 | The caller reads the script's answer as admission or as the time to wait |
| `TelegramLimiter.RateIsKept` | internal/notifications/telegramworker/limiter.go:42-84 | In every stretch of calls at most burst plus rate times its length are admitted, globally and per destination at once |
| `TelegramLimiter.ExpiryIsInvisible` | internal/notifications/telegramworker/limiter.go:70-84 | Expiring keys give the same answers as keys that never expire |
| `TelegramLimiter.DeniedCallIsInvisible` | internal/notifications/telegramworker/limiter.go:42-84 | Every later sequence of calls gets the answers it would have got without the denied call |
| `TelegramLimiter.WaitingIsEnough` | internal/notifications/telegramworker/limiter.go:104-143 | With no other caller a denied caller is admitted if and only if the returned wait has passed |
| `TelegramLimiter.WaitIsExact` | internal/notifications/telegramworker/limiter.go:42-84 | The returned wait is the least number of whole milliseconds after which a bucket holds a token |
| `DeliveryPolicy.RetryCap` | internal/notifications/worker/retry.go:16-31 | The doubling loop computes 30 seconds times a power of two, at most 15 minutes, for every retry number |
| `DeliveryPolicy.DelayIsBounded` | internal/notifications/worker/retry.go:33-49 | For every jitter value a delay lies between its grace and its grace plus the cap |
| `DeliveryPolicy.NormalizedVisibility` | internal/notifications/worker/processor.go:537-546 | Whole seconds between one second and twelve hours, covering the delay by less than a second |
| `DeliveryPolicy.PlanIsSound` | internal/notifications/worker/failure_policy.go:31-66 | A definitive failure ends the delivery only when nothing may have been accepted, and always passes the store's checks |
| `DeliveryPolicy.PreflightIsSound` | internal/notifications/worker/processor.go:304-344 | Every preflight error leads to a mutation the store accepts, and to delete exactly when it ends the delivery |
| `DeliveryPolicy.FinishAttempt` | internal/notifications/worker/processor.go:392-518 | Filling the completion field by field computes the specified outcome |
| `DeliveryPolicy.FinishIsSound` | internal/notifications/worker/processor.go:392-518 | For every sender answer the completion passes the store's validation, the next state is allowed, and the message is deleted exactly when it is terminal |
| `DeliveryPolicy.RetryIsNotEarly` | internal/notifications/worker/processor.go:463-487 | A retry waits for the longer of back-off and provider request, an ambiguous one at least the grace, and the message stays hidden until then |
| `DeliveryPolicy.InterruptedIsSound` | internal/notifications/worker/processor.go:346-390 | An inherited attempt is recorded as ambiguous, which ends a Telegram delivery as unknown |
| `DeliveryPolicy.TelegramRetriesOnlyRejections` | internal/notifications/worker/processor.go:472-480 | After a Telegram answer the delivery ends, or it waits after a definite rejection |
| `DeliveryWorker.ProviderIsCalledAtMostFiveTimes` | internal/notifications/worker/processor.go:86-123 | In every run, with any workers, clocks, crashes and lost answers, provider calls are for distinct attempts, at most the attempt count, and at most five |
| `DeliveryWorker.TelegramResendsOnlyDeclined` | internal/notifications/worker/processor.go:346-370 | In every run a Telegram call is followed by another only if it was declined and recorded so: nothing follows a success, an ambiguous answer or an interruption |
| `DeliveryWorker.DeleteMeansTerminal` | internal/notifications/worker/processor.go:68-115 | In every run a worker deletes the message only when the delivery is terminal, and it stays terminal |
| `DeliveryWorker.RequestsAreAcceptable` | internal/notifications/durable_model.go:282-306 | In every run every next state a worker asks for is in the transition table and passes the store's validation |
| `DeliveryEnds.PermanentFailureIsEarned` | internal/notifications/worker/processor.go:392-518 | In every run a delivery becomes permanently failed only by an owned rejection, by a recorded answer that was a permanent refusal or a refusal of the fifth call, or by a worker giving up before a call; in the last two nothing before may have been accepted, and every other attempt no feedback spoke of was declined on record |
| `DeliveryEnds.RunKeepsEnds` | internal/notifications/worker/processor.go:392-518 | Every run keeps what this rests on: requests to fail rest on a recorded refusal, and a live delivery not in doubt has only open or declined attempts |
| `DeliveryWorker.ClaimKeeps` | internal/notifications/worker/dynamo/acquire.go:152-188 | Claiming keeps the row's invariants and everything the claimer read about the last attempt |
| `DeliveryWorker.LoadKeeps` | internal/notifications/worker/dynamo/acquire.go:77-112 | Loading the last attempt's outcome tells an interrupted attempt from a settled one until the row changes |
| `DeliveryWorker.BeginKeeps` | internal/notifications/worker/dynamo/attempts.go:18-93 | Starting an attempt counts it, opens it, and only happens when no other is open |
| `DeliveryWorker.CompleteKeeps` | internal/notifications/worker/dynamo/attempts.go:291-487 | Completing an attempt settles it and keeps a live Telegram delivery free of ambiguity |
| `DeliveryWorker.BesideKeeps` | internal/notifications/worker/dynamo/attempts.go:640-734 | Completing an attempt beside a terminal delivery leaves the delivery alone |
| `DeliveryWorker.ReleasingStepKeeps` | internal/notifications/worker/dynamo/mutations.go:16-127 | Deferring, cancelling, failing preflight and finalising keep the row's invariants |
| `DeliveryWorker.FeedbackKeeps` | internal/notifications/feedback/dynamo/transaction.go:131-273 | Provider feedback keeps the row's invariants at any moment |
| `ProviderFeedback.FoldIsClosedForm` | internal/notifications/durable_model.go:349-374 | Folding the events of one attempt leaves a state and an outcome that are given by the set of events alone |
| `ProviderFeedback.OrderAndDuplicatesDoNotMatter` | internal/notifications/model.go:267-290 | Any order and any duplication of the same events of one attempt ends in the same state and outcome |
| `ProviderFeedback.RedeliveryIsAbsorbed` | internal/notifications/model.go:277-290 | Events that were absorbed before change nothing when they arrive again |
| `ProviderFeedback.Fold` | internal/notifications/durable_model.go:359-373 | Cancelled and permanently failed are never left, and terminal deliveries stay terminal |
| `FeedbackOwnership.OrderMattersExactly` | internal/notifications/feedback/dynamo/transaction.go:399-440 | For every delivery row and set of attempts: all their events end in one state in every order if and only if one attempt has a say, which is decided by owner, last attempt and earlier acceptance |
| `FeedbackOwnership.SteadyEndsAlike` | internal/notifications/feedback/dynamo/transaction.go:186-273 | For such a row every provider field is independent of order and duplicates |
| `FeedbackOwnership.FinalIsFollowed` | internal/notifications/feedback/dynamo/transaction.go:376-440 | A row that follows one attempt ends as the fold of that attempt's events says, whatever arrives for others |
| `FeedbackOwnership.TwoAttemptsDependOnOrder` | internal/notifications/feedback/dynamo/transaction.go:399-440 | Delivered for the first attempt and rejected for the second: the delivery ends succeeded or failed, by which is heard first |
| `RelayPriority.Prioritize` | internal/notifications/relay/runner.go:636-671 | For every rotation the ordering regroups the listed candidates, keeps the order within each kind, and places the j-th of a kind before position 6 (j / weight + 1) |
| `RelayPriority.PermutationExactly` | internal/notifications/relay/runner.go:642-644 | The ordering is a permutation if and only if every candidate has a listed kind |
| `RelayPriority.BudgetKeepsEveryKind` | internal/notifications/relay/runner.go:636-671 | Truncating to a budget of 6 (j / weight + 1) keeps the first j + 1 candidates of a kind, in discovery order |
| `RelayPriority.Rotate` | internal/notifications/relay/runner.go:386-395 | Rotation by any slot, negative ones too, keeps length, contents and the number of slots per kind |
| `RelayDiscovery.Discovery.FilterDisabledTelegram` | internal/notifications/relay/runner.go:472-505 | Keeps, in order, the rows whose reload failed or is current and not Telegram, and everything from the row at which time ran out; counts the rest |
| `RelayDiscovery.FilteredOrDropped` | internal/notifications/relay/runner.go:480-505 | Every row is kept or dropped, and the dropped ones are exactly those whose reload said stale or Telegram, none unless Telegram is configured but off |
| `RelayDiscovery.FindFree` | internal/notifications/relay/runner.go:347-362 | The first free cursor in round-robin order, or none when all are done or in flight |
| `RelayDiscovery.Discovery.TakeCursor` | internal/notifications/relay/runner.go:335-362 | An active lane at rest always yields a cursor, and an inactive one never does |
| `RelayDiscovery.Discovery.Land` | internal/notifications/relay/runner.go:428-458 | Reading a page consumes it, keeps rows up to the cap, and accounts for every row |
| `RelayDiscovery.Discovery.MarkCaps` | internal/notifications/relay/runner.go:459-463 | A full lane with unread cursors is marked as capped |
| `RelayDiscovery.Discovery.QueryWave` | internal/notifications/relay/runner.go:397-465 | A wave reads one page per query it issued, and issues none only when no asked lane was active |
| `RelayDiscovery.Discovery.BaseWaves` | internal/notifications/relay/runner.go:235-259 | A round over all kinds reads at least one page if any lane was active, for every parallelism |
| `RelayDiscovery.Discovery.Discover` | internal/notifications/relay/runner.go:205-308 | Discovery terminates by unread pages, fails exactly when a query broke for a reason other than time, holds at most MaxWork candidates per kind, and is complete exactly without deadline and cap; then every page is read and every row is kept or skipped, where the skipped rows are those the reloads on record said to drop, and none without filtering; a cap means a full lane |
| `RelayDiscovery.LaneOrderRotates` | internal/notifications/relay/runner.go:235-239 | The order of kinds in a round is the rotation of the three lanes |
| `RelayBackfill.UpdateIsAccepted` | internal/notifications/dynamo/backfill.go:643-749 | The write that classification asks for is accepted on the unchanged row if and only if tenant, outbox, status and creation time are stored as strings |
| `RelayBackfill.OnlyDeferralNeedsTypes` | internal/notifications/dynamo/backfill.go:427-436 | Unless numbers decode as text, only deferring a Telegram outbox can be refused |
| `RelayBackfill.UpdateSettles` | internal/notifications/dynamo/backfill.go:346-489 | The row an accepted write leaves classifies as no-op, in both target modes |
| `RelayBackfill.MissingStatusIsRefused` | internal/notifications/dynamo/backfill.go:427-431 | A concrete Telegram outbox without status is offered an update whose condition fails |
| `RelayBackfill.DeliveryUpdateIsAccepted` | internal/notifications/dynamo/backfill.go:751-812 | A delivery's update is accepted if and only if its three identifiers are stored as strings |
| `RelayBackfill.DeliveryUpdateSettles` | internal/notifications/dynamo/backfill.go:567-609 | A rewritten delivery classifies as no-op |
| `RelayBackfill.BackfillDeliveries` | internal/notifications/dynamo/backfill.go:229-324 | Whatever updates fail, each delivery is as it was or settled and the row limit is kept; without a stop or a failed update all are settled and every write is counted; a dry run changes nothing; counters balance |
| `RelayBackfill.BackfillTenant` | internal/notifications/dynamo/backfill.go:141-224 | The same for a tenant's outboxes and their deliveries |
| `RelayBackfill.BackfillRelay` | internal/notifications/dynamo/backfill.go:111-227 | Over any list of tenants, repeated ones too: a pass that neither stopped nor had a failed update has settled every row of the listed tenants, touched no other, and counted every write once; however it ends, the row limit is kept, each row is as it was or settled, and the counters balance up to the one update a stop cut off; a dry run changes nothing |
| `RelayBackfill.SecondPassWritesNothing` | internal/notifications/dynamo/backfill.go:111-227 | After a completed pass, with no other writer, another pass writes nothing |
| `RelayBackfill.RerunCompletes` | internal/notifications/dynamo/backfill.go:111-227 | However a pass ended, a later clean pass over the same tenants leaves what one clean pass over the original rows would have left |

## Left out

- Frontend, Node-RED flows, command lines, configuration loading, unit files and metrics: single-branch plumbing around the modelled cores.
- Encoding of attribute values and expression strings: only each condition and its effect is modelled.
- Hash, base64 and UUID functions: identities are modelled by their inputs, which assumes the functions are injective.
- Rendering of mail and Telegram texts and their content snapshots.
- Floating-point rounding, 64-bit overflow and time zones: values are reals and integers.
- Audit, transition-log and idempotency-token rows of alert commits, and the recipient gates of a delivery beyond their effect of allowing, cancelling or deferring it.
- Checking of the relay backfill's own options and its page size, which changes where a pass may stop and nothing else.
- Summary counters, row limit and dry-run mode of the active-alert index backfill: its writes and their order are modelled.
- Relay fan-out, publication and recovery-dependency rows: they appear to the delivery workers as free moves of a row that has not been claimed yet, and as a reason a write may be refused.
- Which attempt owns a delivery's provider outcome, inside the worker protocol: `DeliveryStore` lets feedback record any outcome and proves the worker properties for every choice. The choice itself is `FeedbackOwnership`.
- Deduplication of feedback events by their transport and semantic keys: the laws hold with the duplicates left in.
- The retries a completion makes after a lost recovery or suppression fence are bounded in the source; the model allows any number of them.
- The repeated-token guard of discovery: an index with finitely many pages never repeats a token.
- `Handle` as one sequential method: its steps are the state machine of `DeliveryStore`, so that workers can interleave between them.
