# Verification model of the monitoring backend

The backend watches publisher pages with a browser on a six-hour schedule, decides from pairs and
triples of checkpoints what has happened on a page, and keeps those decisions as events. This project
models the parts that decide what is true about a site over time and proves what they promise.

`dafny verify dfyconfig.toml` checks the whole project.

## How the project is laid out

- **Events.** `Contracts` and `Lifecycle` hold the records, the rule table and the severity lattice.
  `EventStore` says what one transaction does to the event and evidence tables; `EventRepository` is the
  repository object proved against it. `EventInvariants`, `EventHistory`, `EventTheorems`,
  `EventCounters` and `EvaluatedRecoveries` prove what every run of calls keeps; `EventRows`, `EventCalls`
  and `EventEvidence` say field by field what is stored, when a call raises, and what is linked to what.
- **Evaluation.** `Evaluator` is the JavaScript-error part of the checkpoint evaluator; `JsHistory`,
  `JsTheorem` and `JsOrigins` relate evaluator and store over whole histories. `WindowGroups`, `GptWindow`,
  `GptTheorems`, `WindowMeaning`, `WindowOrder` and `WindowEvaluation` are the aggregation over one window. `SourceHealth`,
  `ReliabilityStore` and `ReliabilityTheorems` are the diagnostics of the browser source.
- **Checkpoints.** `CheckpointStore` and `CheckpointRepository` are the transactions;
  `CheckpointInterleaving`, `CheckpointTheorems`, `CheckpointCompletion` and `CheckpointOutcomes` let them
  overlap; `BrowserWorker` is the job handler over them, and `CheckpointEffects` what one delivery leaves.
- **Schedule.** `Scheduling`, `SiteMonitoring` and `MonitoredSite` are the windows, the monitoring switch
  and the materialization of runs.
- **Algorithms.** `RateLimit` and `RateLimitStore`, `LayoutShift` and `StandardSessions`, `DomStructure`,
  `DomTracking` and `DomParser`, `Comparison`, `RequestTotals`, `Auctions`; `Names` is Python's `sorted` on
  a set of texts.

## What the values stand for

- Identifiers, texts and instants are integers; an instant counts microseconds. A text is only compared,
  ordered or used as a key.
- A value the source obtains by hashing (`uuid5`, `sha256`) is the tuple of the hashed parts, so distinct
  parts give distinct values. `uuid4` is a counter.
- A raised error is an `Err`; the caller's transaction is then rolled back. The tables are maps; creation
  order (`created_at`) is a serial number.
- The clock is a parameter of each call, read once per call.

## Results that correct a first expectation

- The supporting counter of a condition row does not always equal its set of supporters: a recovery that
  brings a supporting pointer to a new checkpoint links it without counting it.
  `EventCounters.CountersAgreeExactlyWhenHarmless` says exactly when the two agree; the recoveries of the
  modelled evaluations always qualify (`EvaluatedRecoveries.EvaluatedRunsCountRight`).
- "One attempt carries the run's status" fails exactly when at least two deliveries are allowed and every
  one of them starts and fails, since each retried attempt carries BROWSER_ERROR as the run then does; see
  `BrowserWorker.OneAttemptCarriesTheStatus`.
- Monitoring is switched off with an instant read before the site's row is locked. If that instant lies
  before the start of a window whose runs a pass has planned in between, those runs stand for a window that
  started off. `SiteMonitoring.AuthorizedExactlyWhenTimely` says that this is the only way, and
  `SiteMonitoring.LateToggleLeavesRun` shows it. A request that finds the site already off switches nothing
  and counts for nothing. `SiteMonitoring.NoRunForWindowThatStartedOff` is what holds when each switching
  off is stamped no earlier than the passes before it.
- A healthy diagnostic observed at the very instant of a degradation does not recover from it, so the
  health is DEGRADED although the latest diagnostic may be ok;
  `SourceHealth.DegradedIffBadAtLatestTime` is exact for every history.
- A window completed by a skip gets no derivation job from that commit; see
  `CheckpointCompletion.CompletionStep`.
- A self-closed `noscript` hides everything after it, and another tag self-closed inside a `noscript` takes
  one level off the parser's depth unless it is 0 already. `DomTracking.CountersRestoredIff` says exactly
  when both counters come back, and `DomTracking.DocumentIsListedIff` exactly which documents are listed
  right all the same: a self-closed `noscript` does no harm where nothing is listed after it, another
  self-closed tag none where nothing of its top-level element is.
- The sessions of the layout shift are not always the standard session windows: a sample of value zero
  never starts a session of several samples. `StandardSessions.SessionsAreStandardIff` says exactly when
  the two agree.

## Model

| member | source | states |
|---|---|---|
| `EventTheorems.OneActiveRowPerCondition` | backend/app/events/models.py:57-89 | for every sequence of calls with arbitrary candidates, failed calls rolled back and creators racing: at most one active row per condition key, and every row meets the CHECK constraints, spelled out |
| `EventTheorems.ClosedConditionsAreFrozen` | backend/app/events/persistence.py:586-601 | once a call has closed a condition, no later call changes its row or any of its evidence |
| `EventTheorems.RowIsMaximumOfCandidates` | backend/app/events/persistence.py:527-539 | a condition row's URL counts and blast radius are the maxima, and its severity the lattice maximum, over the creating and the accepted supporting candidates, each attained; the blast radius is 2 exactly when the greatest affected count is at least 2 |
| `EventTheorems.CounterIsSupporters` | backend/app/events/persistence.py:456-526 | if no recovery candidate carries a triggering or supporting pointer, every row's supporting count is the number of distinct checkpoints linked as trigger or support |
| `EventCounters.CountersAgreeExactlyWhenHarmless` | backend/app/events/persistence.py:512-583 | for every run of calls the counters equal those sets if and only if no accepted recovery linked a new supporting checkpoint |
| `EventCounters.RecoveryMayMiscount` | backend/app/events/persistence.py:559-583 | a concrete two-call run whose recovery carries a SUPPORTING pointer leaves a counter that disagrees with its set |
| `EvaluatedRecoveries.JavascriptRecoveriesAreClean` | backend/app/events/evaluator.py:332-355 | no recovery the JavaScript evaluation builds carries a triggering or supporting pointer |
| `EvaluatedRecoveries.SlotRecoveriesAreClean` | backend/app/events/evaluator.py:546-575 | nor does any recovery of the slot aggregation of a window |
| `EvaluatedRecoveries.EvaluatedRunsCountRight` | backend/app/events/evaluator.py:117-164 | so after every run of calls whose candidates come from these evaluations each counter is the number of distinct supporters |
| `EventHistory.CloseCountsIff` | backend/app/events/persistence.py:556-583 | closing one row keeps all counters right exactly when its evidence brings no new supporter |
| `EventHistory.SkippingInsert` | backend/app/events/persistence.py:630-669 | with linked checkpoints skipped, the number returned is the number of new distinct checkpoints and the supporters gained are those whose first pointer supports |
| `EventHistory.CreatingInsert` | backend/app/events/persistence.py:630-669 | on creation the supporters a condition gains are exactly its pointers' triggering and supporting checkpoints |
| `EventHistory.EveryPointerIsLinked` | backend/app/events/persistence.py:630-669 | on creation the checkpoint links added are those of the pointers, no other, each checkpoint and relation once |
| `EventHistory.AsSupportShape` | backend/app/events/persistence.py:507-511 | the pointers of a supporting candidate are its triggering and supporting checkpoints, all relabelled SUPPORTING |
| `EventInvariants.PersistOneStep` | backend/app/events/persistence.py:288-312 | one candidate touches rows of its own key only, never a closed one, and keeps the table invariants |
| `EventTheorems.PersistOneEffect` | backend/app/events/persistence.py:437-583 | what one candidate creates, updates or leaves: the created row is its own row, an update is one support or one closing of the active row |
| `EventTheorems.CallIsTransaction` | backend/app/events/persistence.py:288-312 | without races a call of the run is the whole transaction of `persist`, all of it or nothing |
| `EventRows.PointRowsSharedIff` | backend/app/events/persistence.py:761-814 | two recorded candidates share a row if and only if tenant, code, subject and scope agree and, for a transition, its two checkpoints, else the pointers as a bag |
| `EventRows.ConditionRowsSharedIff` | backend/app/events/persistence.py:817-826 | two condition candidates get one row id if and only if tenant, site, code, subject, normalized scope, trigger checkpoints and upper time bound agree |
| `EventRows.RowsMatchTheirIds` | backend/app/events/persistence.py:386-435 | over every run of calls each row has the tenant, code, subject and scope its id was made of, a condition also its site, and its kind of status |
| `EventRows.PersistOneFits` | backend/app/events/persistence.py:288-312 | one candidate creates a row with its own times, severity, scope, subject and counts, or rewrites of the active row exactly what support or closing may, or leaves the table alone; every field is spelled out |
| `EventCalls.RecordedCandidatesHaveRows` | backend/app/events/persistence.py:288-312 | after a call that does not raise, every RECORD candidate has a row of its own tenant, site, code, subject and normalized scope, linked to every checkpoint of its evidence |
| `EventCalls.TalliesCountRows` | backend/app/events/persistence.py:288-312 | `created` is the number of rows added, `resolved` the number of rows closed, and the three tallies together the number of candidates that changed the table |
| `EventCalls.ConditionMovesIff` | backend/app/events/persistence.py:437-583 | support updates the open row exactly when a triggering or supporting pointer names a new checkpoint; a recovery closes it exactly when it is not older and names a new one; without an open row an upsert opens one and the others do nothing |
| `EventCalls.WrongKindIff` | backend/app/events/persistence.py:288-312 | a candidate is refused as of the wrong kind exactly when it records a condition code or opens, supports or closes a point code |
| `EventCalls.DiagnosticRefusedIff` | backend/app/events/persistence.py:314-351 | a diagnostic candidate is refused exactly when it does not record a point code, or neither it nor the run has a time |
| `EventCalls.RecordSucceedsIff` | backend/app/events/persistence.py:353-435 | recording succeeds exactly for a point code, a scope with a template, bounds in order, acceptable evidence, and a row id that is free or of the same site |
| `EventCalls.OpeningSucceedsIff` | backend/app/events/persistence.py:437-505 | where no row is open and the id is free, opening succeeds exactly for a condition code, a scope with a template, bounds in order and acceptable evidence |
| `EventEvidence.EvidenceBelongsToItsEvent` | backend/app/events/persistence.py:603-758 | over every run of calls an event is linked only to checkpoints of its own tenant and site that agree with its scope, and a specific reference stands beside a link exactly when the checkpoint stored the event's subject, as some codes demand |
| `EventEvidence.PointerAcceptedIff` | backend/app/events/persistence.py:706-758 | exactly which checkpoints a scheduled and a site-level event accept |
| `EventEvidence.EvidenceAcceptedIff` | backend/app/events/persistence.py:603-669 | new evidence is accepted exactly when every pointer has a known relation, is a checkpoint the event accepts, and brings the specific evidence the event demands of it |
| `EventRepository.Repository.ActiveCondition` | backend/app/events/persistence.py:586-601 | finds the active row of a key, or none exactly when there is none |
| `EventRepository.Repository.InsertCandidateEvidence` | backend/app/events/persistence.py:603-669 | the pointer loop with its seen set, checks and counter computes the specified evidence, or raises the same error |
| `EventRepository.Repository.PersistPointRow` | backend/app/events/persistence.py:370-435 | insert-or-ignore of a point event under its deterministic id, then its evidence |
| `EventRepository.Repository.SupportCondition` | backend/app/events/persistence.py:507-540 | in-place update of the active row: counter, maxima of counts and of instants, and severity |
| `EventRepository.Repository.PersistCondition` | backend/app/events/persistence.py:437-540 | create, support or ignore after an accurate first select, and after a stale one lose the insert race and support the winner |
| `EventRepository.Repository.ResolveActive` | backend/app/events/persistence.py:542-583 | closing with its time check and its refusal of evidence without a new checkpoint |
| `EventRepository.Repository.PersistCandidate` | backend/app/events/persistence.py:288-312 | dispatch on action and rule kind |
| `EventRepository.Repository.Persist` | backend/app/events/persistence.py:288-312 | all candidates in one transaction: every effect and the three tallies, or nothing and the error |
| `EventRepository.Repository.PersistDiagnostic` | backend/app/events/persistence.py:314-351 | recordable point candidates of a diagnostic in one transaction, or nothing |
| `Lifecycle.HigherSeverityIsJoin` | backend/app/events/lifecycle.py:47-50 | raising a severity is a least upper bound: commutative, associative, above both |
| `Lifecycle.HigherSeverityIsFurtherUp` | backend/app/events/lifecycle.py:47-50 | of two severities the one further up INFO, LOW, MEDIUM, HIGH, CRITICAL is kept |
| `Lifecycle.NormalizationIsIdempotent` | backend/app/events/lifecycle.py:11-32 | a normalized scope holds exactly the non-null entries, and normalizing it again, as the key computation does, changes nothing |
| `Evaluator.ComponentSkipReasons` | backend/app/events/evaluator.py:177-187 | the loop over the four components yields the specified reasons |
| `Evaluator.EvaluateJavascript` | backend/app/events/evaluator.py:117-138 | invalid, unordered or incomparable checkpoints yield no JavaScript candidate and the stated reasons |
| `Evaluator.AppendJsCandidates` | backend/app/events/evaluator.py:272-355 | the three sorted loops append the specified candidates |
| `Evaluator.CandidatesSpeak` | backend/app/events/evaluator.py:272-355 | each candidate is what its fingerprint's presence before, then and now calls for, and no two are about the same fingerprint |
| `Evaluator.EveryFingerprintSpoken` | backend/app/events/evaluator.py:272-355 | every fingerprint seen before or now has a candidate |
| `Evaluator.CandidateIsSpelledOut` | backend/app/events/evaluator.py:272-355 | action, scope, severity, times and evidence of each candidate, read off the presence of its fingerprint before, then and now |
| `Evaluator.CandidatesAreSorted` | backend/app/events/evaluator.py:272-355 | candidates come as appeared, persisting, gone, fingerprints increasing within each |
| `Evaluator.SkipReasonsAreExact` | backend/app/events/evaluator.py:166-187 | each reason is given exactly when it holds, and candidates are produced exactly for a usable pair whose four components are in both checkpoints by one normalizer |
| `JsTheorem.JsConditionIsHistory` | backend/app/events/evaluator.py:272-355 | after any run of in-order first deliveries, redeliveries and calls about other conditions, an active row for a fingerprint exists exactly when for some s, 1 <= s <= k-1, it was absent at s-1 and present at s..k |
| `JsTheorem.RedeliveryKeepsStatuses` | backend/app/events/persistence.py:449-583 | redelivering any processed checkpoint changes the status of no condition of the page |
| `JsTheorem.FirstDeliverySucceeds` | backend/app/events/persistence.py:288-312 | the next checkpoint of such a history is always persisted without raising |
| `JsTheorem.ReplayedTriggerRaises` | backend/app/events/persistence.py:500-505 | a trigger redelivered after its episode closed hits its own id and raises |
| `JsTheorem.ReplayedRecoveryRefused` | backend/app/events/persistence.py:556-558 | a recovery redelivered in a later episode is older than it and refused |
| `JsTheorem.ReplayedSupport` | backend/app/events/persistence.py:507-540 | a redelivered trigger or support may add evidence to a newer episode but keeps every status |
| `JsHistory.FirstDelivery` | backend/app/events/persistence.py:437-583 | one checkpoint delivered for the first time moves the rows of a fingerprint from history k to history k+1 |
| `JsHistory.FirstUpsert` | backend/app/events/persistence.py:449-505 | absent, present, present creates the row of that onset |
| `JsHistory.FirstSupport` | backend/app/events/persistence.py:507-540 | continued presence supports the open row and opens nothing |
| `JsHistory.FirstResolve` | backend/app/events/persistence.py:542-583 | disappearance closes the open row, and only that |
| `JsOrigins.EveryConditionHasATriple` | backend/app/events/evaluator.py:289-330 | with gaps, invalid checkpoints, replays and races, every stored JavaScript condition was opened by a checkpoint that saw the error twice in a row after a comparable one without it |
| `SourceHealth.LogIsShaped` | backend/app/events/evaluator.py:73-114 | every recovery directly follows the earlier degradation it names: the log has the shape (D+ R)* D* |
| `SourceHealth.DegradedIffBadAtLatestTime` | backend/app/events/source_health.py:79-123 | for every history in nondecreasing time with distinct runs, the projected health is DEGRADED exactly when some diagnostic of the latest observed instant is not ok |
| `SourceHealth.DegradedIffLatestIsBad` | backend/app/events/source_health.py:79-123 | with strictly increasing times, exactly when the latest classified diagnostic is not ok |
| `SourceHealth.TieStaysDegraded` | backend/app/events/evaluator.py:90-94 | an ok diagnostic of the same instant as a degradation leaves the source DEGRADED |
| `SourceHealth.RedeliveryLeavesLog` | backend/app/events/evaluator.py:26-114 | redelivering any earlier diagnostic of a history appends nothing |
| `SourceHealth.LogIsSourced` | backend/app/events/evaluator.py:26-70 | each run adds at most one event, in the order of the times |
| `SourceHealth.LogTellsWhatWasSeen` | backend/app/events/evaluator.py:20-70 | every listed degradation, challenge and recovery tells of a diagnostic that saw degraded access, a challenge, ok access; and every observed degradation or challenge is listed under its own code |
| `ReliabilityStore.LatestIsLast` | backend/app/events/source_health.py:82-93 | the projection over the event table picks the last event of the list it represents |
| `ReliabilityStore.EpisodeIsOpenDegradation` | backend/app/events/source_health.py:126-155 | the open episode read from the table is the last degradation with its trigger run |
| `ReliabilityStore.EvaluationIsSpelledOut` | backend/app/events/evaluator.py:26-114 | exactly when a diagnostic yields a candidate, and its code, times, scope and evidence; a recovery needs a known degradation by another run, strictly earlier |
| `ReliabilityTheorems.CandidateIsRecorded` | backend/app/events/persistence.py:314-435 | persisting a reliability candidate inserts exactly its row and evidence, or finds both present |
| `ReliabilityTheorems.DeliveryRefines` | backend/app/events/persistence.py:314-435 | load, evaluate and persist of one diagnostic refine one step of the list |
| `ReliabilityTheorems.RedeliveryChangesNothing` | backend/app/events/persistence.py:412-435 | a settled diagnostic delivered again leaves both tables exactly as they are |
| `ReliabilityTheorems.HealthAfterDeliveries` | backend/app/events/source_health.py:79-155 | for every sequence of deliveries, repeats anywhere: the tables hold the list without repeats, it has the shape (D+ R)* D*, and the health read from the table is the one above |
| `ReliabilityTheorems.RowsTellWhatWasSeen` | backend/app/events/source_health.py:126-155 | after every such sequence each stored reliability event has the code, severity, times and trigger run of a delivered diagnostic that saw it, and the open episode is that of a diagnostic that saw degraded access or a challenge, under its code |
| `GptWindow.GptWindowCandidates` | backend/app/events/evaluator.py:481-575 | the grouping loops yield each group once, in order of first occurrence, with its own candidate, or the first error |
| `GptWindow.GroupValues` | backend/app/events/evaluator.py:482-491 | the dict of lists holds exactly the checkpoints of each group in window order |
| `GptWindow.FromGroup` | backend/app/events/evaluator.py:494-575 | counts and branches of one group |
| `GptTheorems.AffectedWithinValid` | backend/app/events/evaluator.py:494-545 | with one run per URL and scenario no group has more affected than valid URLs, so the severity never raises |
| `GptTheorems.CollectionSucceeds` | backend/app/events/lifecycle.py:34-44 | hence no window raises |
| `GptTheorems.AtMostOneCandidatePerGroup` | backend/app/events/evaluator.py:494-575 | a window yields at most one candidate per template, scenario and slot, so never both a degradation and a recovery of it |
| `WindowMeaning.SlotCandidateIff` | backend/app/events/evaluator.py:494-575 | a group has a candidate exactly when at least two URLs are valid and two pages miss the slot, or none does and two have it; its counts, scope, action and severity in terms of how many pages miss it, have just lost it, or have it |
| `WindowMeaning.SlotEvidenceIff` | backend/app/events/evaluator.py:527-571 | the evidence names exactly the checkpoints of the pages concerned, with the relation of the action, and the predecessor only of a page that has just lost the slot |
| `WindowMeaning.SlotTimesFit` | backend/app/events/evaluator.py:524-567 | occurrence runs from the earliest to the latest triggering page, each attained, and detection is the latest page concerned |
| `GptTheorems.OrderDoesNotMatter` | backend/app/events/evaluator.py:481-575 | permuting the window changes no group and no candidate of a group but for the order of its evidence |
| `WindowOrder.CollectedIsYields` | backend/app/events/evaluator.py:493-575 | a window raises exactly when one of its groups does, and otherwise yields, with multiplicity, what its groups yield |
| `WindowOrder.SlotOrderDoesNotMatter` | backend/app/events/evaluator.py:481-575 | for any two orders of a window's checkpoints, and the groups met in any order, the slots raise the same error or yield the same candidates up to their order and that of their evidence |
| `WindowOrder.NoindexOrderDoesNotMatter` | backend/app/events/evaluator.py:417-478 | the same for the noindex candidates, which never raise |
| `WindowOrder.WindowOrderDoesNotMatter` | backend/app/events/evaluator.py:141-164 | any two orders of the checkpoints of a window end alike: empty, incomplete, without a valid run, with the same error, or with the same candidates up to order |
| `WindowEvaluation.GainedGroups` | backend/app/events/evaluator.py:417-431 | groups of pages that gained noindex, each once, in the order of their first affected pages |
| `WindowEvaluation.NoindexWindowCandidates` | backend/app/events/evaluator.py:417-478 | aggregated or individual candidates of each group; it never raises |
| `WindowEvaluation.EachAffectedPageIsReportedOnce` | backend/app/events/evaluator.py:433-478 | over all groups the evidence is the before and after checkpoint of every affected page, each exactly as often as the page occurs |
| `WindowMeaning.NoindexCandidatesFit` | backend/app/events/evaluator.py:417-478 | two or more pages of a template and scenario that gained noindex make one CRITICAL candidate with their bounds and counts, a single one a MEDIUM candidate of its own page, none makes none |
| `WindowMeaning.NoindexEvidenceIff` | backend/app/events/evaluator.py:433-478 | over all groups a checkpoint is evidence exactly when a page that gained noindex has it as its checkpoint before or after |
| `WindowEvaluation.EvaluateWindow` | backend/app/events/evaluator.py:141-164 | an empty or incomplete window, or one without valid runs, yields nothing; otherwise the candidates come from the valid runs alone |
| `WindowEvaluation.UsedCheckpoints` | backend/app/events/evaluator.py:147-158 | a checkpoint of the window is used, as often as it occurs, exactly when both sides are valid and in order and every component compares |
| `WindowEvaluation.CompleteWindowSucceeds` | backend/app/events/evaluator.py:141-164 | with one run per URL and scenario the evaluation does not raise |
| `CheckpointStore.BeginIsGuarded` | backend/app/browser/persistence.py:299-374 | a start is admitted exactly for an open run without this attempt, a scheduled one only while the site is on, and is a skip while it is off; every refusal changes nothing; a skip is final and enqueues nothing |
| `CheckpointStore.EndIsGuarded` | backend/app/browser/persistence.py:409-503 | an attempt is ended exactly while it and its run are both RUNNING; a refused end changes nothing |
| `CheckpointEffects.AggregateIsWhatIsTrue` | backend/app/browser/persistence.py:1109-1149 | SCHEDULED, RUNNING, FAILED, PARTIAL and COMPLETE each say one thing of the runs of a window; the aggregate is the one that is true |
| `CheckpointRepository.Repository.CountStatuses` | backend/app/browser/persistence.py:1122-1142 | the counts the status loop takes |
| `CheckpointRepository.Repository.RefreshWindowStatus` | backend/app/browser/persistence.py:1109-1149 | the window status is the aggregate of its runs |
| `CheckpointRepository.Repository.TerminalizeSkipped` | backend/app/browser/persistence.py:1079-1107 | run and attempt skipped and window refreshed in one write |
| `CheckpointRepository.Repository.Begin` | backend/app/browser/persistence.py:299-407 | start, skip, repeated skip or refusal of an attempt |
| `CheckpointRepository.Repository.RecordRetryableFailure` | backend/app/browser/persistence.py:409-442 | back to PENDING, or refused unless run and attempt are running |
| `CheckpointRepository.Repository.FinalizeTerminalFailure` | backend/app/browser/persistence.py:444-465 | BROWSER_ERROR and window refresh, no job |
| `CheckpointRepository.Repository.Finalize` | backend/app/browser/persistence.py:467-593 | status of run and attempt, job for scheduled and diagnostic runs, window refresh |
| `CheckpointInterleaving.Keeps` | backend/app/browser/persistence.py:299-593 | every step of overlapping transactions, row locks and uncommitted writes included, keeps the invariant |
| `CheckpointTheorems.NoLostWindowCompletion` | backend/app/browser/persistence.py:1109-1149 | after every schedule of overlapping begins, retries, skips and ends a window is final exactly when all its runs are, FAILED when all ended in BROWSER_ERROR, COMPLETE when none did |
| `CheckpointTheorems.FinalRunsNeverChange` | backend/app/browser/persistence.py:299-593 | a final run and its job never change again under any later schedule |
| `CheckpointTheorems.FinalizedAtMostOnce` | backend/app/browser/persistence.py:551-593 | at most one committed transaction finalizes a run and at most one inserts its job |
| `CheckpointTheorems.AttemptCountIsGreatest` | backend/app/browser/persistence.py:364-367 | the attempt count is the greatest attempt started |
| `CheckpointOutcomes.CommitLeaves` | backend/app/browser/persistence.py:299-593 | a commit leaves in run, attempt and jobs exactly what its operation stands for, a reported status unchanged, and touches no other row |
| `CheckpointOutcomes.FinalStatusIsThatOfTheEnding` | backend/app/browser/persistence.py:503-593 | over every schedule a run is final exactly when a transaction that ends it has committed; its status and that of the ending attempt are then the status that transaction reported, Skipped or BROWSER_ERROR |
| `CheckpointOutcomes.WindowIsScheduledUntilAnAttempt` | backend/app/browser/persistence.py:1109-1149 | over every schedule a window shows SCHEDULED exactly while none of its runs has an attempt |
| `CheckpointCompletion.CompletionStep` | backend/app/browser/persistence.py:1109-1149 | a window becomes final only at the commit of its last open run, which inserts a job exactly when that run ended with evidence and is not an incident run |
| `CheckpointCompletion.JobAppearsWithCompletion` | backend/app/browser/persistence.py:551-593 | if a window of scheduled runs ends COMPLETE with none skipped, some job became visible in the commit that completed it and not before |
| `CheckpointCompletion.ScheduledStartsOnlyWhileOn` | backend/app/browser/persistence.py:345-363 | no scheduled run enters RUNNING while the site is off, over every schedule |
| `CheckpointCompletion.AloneIsPerform` | backend/app/browser/persistence.py:299-593 | a transaction alone writes what the repository method writes |
| `CheckpointCompletion.StaleAttemptMayFinish` | backend/app/browser/persistence.py:364-385 | a second start leaves the first attempt running; either may end the run and shuts the other out |
| `BrowserWorker.HandleBrowserJob` | backend/app/browser_worker.py:78-248 | the handler drives one leased attempt through the repository as specified |
| `BrowserWorker.HandleIsTwoWrites` | backend/app/browser_worker.py:115-237 | an admitted delivery is a skip, or a start followed by exactly one ending |
| `CheckpointEffects.DeliveryLeaves` | backend/app/browser_worker.py:115-237 | what one delivery of a pending run leaves: skipped while the site is off, back to PENDING or BROWSER_ERROR after a failure, else exactly the status the browser reported, with attempt, job and window |
| `CheckpointEffects.RefusedDeliveryChangesNothing` | backend/app/browser_worker.py:78-120 | a delivery of an unknown or final run, or of an attempt already made, changes nothing; only a repeated skip counts as done |
| `CheckpointEffects.RunEndsAsReported` | backend/app/browser_worker.py:115-237 | over the deliveries of a queued run the first that skips it, succeeds or is the last allowed ends it, and run and attempt carry the status it reported, every earlier attempt BROWSER_ERROR |
| `BrowserWorker.BoundedProgress` | backend/app/browser_worker.py:115-237 | for every pattern of browser and storage failures over deliveries 1..k the run is final, or pending with a retry left; after the last it is final |
| `BrowserWorker.RetriedExactlyWhileFailing` | backend/app/browser_worker.py:115-237 | over deliveries 1..k of a queued run the job is still to be retried exactly while every delivery started and failed and one is left, and the run ends BROWSER_ERROR exactly when all of the allowed deliveries failed |
| `BrowserWorker.OneAttemptCarriesTheStatus` | backend/app/browser_worker.py:115-237 | for every settling sequence of deliveries exactly one attempt carries the run's status, unless at least two were allowed and every allowed one started and failed; that condition is read off the deliveries, and is exact |
| `BrowserWorker.TwoAttemptsCarryBrowserError` | backend/app/browser_worker.py:121-168 | two failing attempts both carry the final status |
| `Scheduling.WindowsTile` | backend/app/browser/scheduling.py:54-79 | every instant lies in its own half-open six-hour window, windows share endpoints across midnight, and lying in a window is having it |
| `Scheduling.GateOpensAtNextBoundary` | backend/app/browser/monitoring_control.py:60-75 | the scheduler admits an instant's window exactly from the boundary announced for the enable watermark; while off or without a time zone none is announced |
| `SiteMonitoring.AuthorizedExactlyWhenTimely` | backend/app/browser/scheduling.py:164-182 | over every interleaving of toggles and scheduler passes, whatever instants they carry: no run ever stands for a window at whose start monitoring was off, if and only if no toggle that finds the site on and switches it off is stamped before the start of a window that already has a run |
| `SiteMonitoring.RepeatedRequestChangesNothing` | backend/app/browser/monitoring_control.py:98-106 | a request for the state the site is already in changes neither the site nor at which instants it was on, nor whether the runs are authorized |
| `SiteMonitoring.NoRunForWindowThatStartedOff` | backend/app/browser/scheduling.py:176-182 | if each switching off is stamped no earlier than the passes that commit before it, while a pass may carry any instant read earlier: the stored state is the last request, and no run stands for a window at whose start monitoring was off |
| `SiteMonitoring.LateToggleLeavesRun` | backend/app/browser/monitoring_control.py:78-120 | a switching off stamped before a window starts that commits after a pass planned it leaves the run |
| `SiteMonitoring.AuditIsAlternatingChain` | backend/app/browser/monitoring_control.py:98-153 | the audit rows alternate from OFF and end in the stored state |
| `SiteMonitoring.WatermarkIsLastSwitch` | backend/app/browser/monitoring_control.py:98-153 | the watermark is the stamp of the last real switch, on or off, and every real switch has one audit row |
| `SiteMonitoring.PassStoresEveryPair` | backend/app/browser/scheduling.py:158-264 | an admitted pass with the breaker closed stores a run for every URL with every scenario and adds no other; any other pass adds none |
| `SiteMonitoring.PlanIsEveryPair` | backend/app/browser/scheduling.py:238-264 | the plan has one entry for every URL with every scenario, URLs outermost: the stored run and its staggered instant |
| `SiteMonitoring.PassAgainAddsNothing` | backend/app/browser/scheduling.py:266-340 | a repeated pass over a window changes no row and hands out the same runs |
| `SiteMonitoring.RowsAreStable` | backend/app/browser/scheduling.py:266-340 | rows are never rewritten and no two share an identifier |
| `SiteMonitoring.StaggerStaysInside` | backend/app/browser/scheduling.py:250-255 | planned instants lie in the window, at least a second before its end, in list order |
| `SiteMonitoring.StaggerIsExact` | backend/app/browser/scheduling.py:250-255 | a planned instant is the staggered one where that lies between now and the last second of the window, else now or that second |
| `MonitoredSite.Services.SetMonitoringState` | backend/app/browser/monitoring_control.py:78-158 | state, watermark and audit row together on a real change, nothing otherwise |
| `MonitoredSite.Services.WindowId` | backend/app/browser/scheduling.py:266-300 | insert-or-find of the window row |
| `MonitoredSite.Services.RunId` | backend/app/browser/scheduling.py:302-350 | insert-or-find of a run row |
| `MonitoredSite.Services.MaterializeSite` | backend/app/browser/scheduling.py:158-264 | both gates, the breaker, and the nested loops with their ordinals: every URL with every scenario is stored and planned |
| `RateLimit.PruningChangesNoAnswer` | backend/app/auth/rate_limit.py:29-75 | on every trace with a clock that does not go back, each answer is that of a sliding log that is never pruned |
| `RateLimit.SpanHoldsAtMostMax` | backend/app/auth/rate_limit.py:29-59 | between clears no half-open span of the window's length holds more admitted attempts of a key than allowed |
| `RateLimit.RetryAfterIsExact` | backend/app/auth/rate_limit.py:53-56 | a refusal's retry time is positive and is exactly the earliest later instant that is admitted |
| `RateLimitStore.Store.IsRateLimited` | backend/app/auth/rate_limit.py:29-59 | sweep, filter, refuse or admit, on the stored lists |
| `RateLimitStore.Store.Clear` | backend/app/auth/rate_limit.py:61-63 | forgets the key |
| `RateLimitStore.Store.Cleanup` | backend/app/auth/rate_limit.py:65-75 | keeps the recent times of each key, drops keys without any, and counts those dropped |
| `LayoutShift.CalculateCls` | backend/app/browser/performance.py:195-212 | the four-variable loop computes the capped largest total of the greedy session windows |
| `LayoutShift.SessionsAreGreedy` | backend/app/browser/performance.py:195-212 | the sessions partition the sorted samples, keep gaps below a second and spans below five, and each ends only where these rules or its zero sum end it |
| `LayoutShift.ClsIsCappedMaximum` | backend/app/browser/performance.py:195-212 | no session adds up to more than the value, which is attained, unless the cap of 10000 cut it |
| `LayoutShift.ClsIgnoresOrder` | backend/app/browser/performance.py:200 | permuting the samples changes nothing |
| `LayoutShift.ClsIsWithinFiveSeconds` | backend/app/browser/performance.py:200-212 | the value is at most the total of some half-open five seconds, and at most the cap |
| `LayoutShift.LaterSampleNeverLowers` | backend/app/browser/performance.py:195-212 | a later sample never lowers the value |
| `StandardSessions.SessionsAreStandardIff` | backend/app/browser/performance.py:203-211 | the sessions are the standard ones, ended by gap and span alone, if and only if no standard session of several samples opens with a sample of value zero |
| `StandardSessions.ShiftIsStandardIfSessionsOpenWithShift` | backend/app/browser/performance.py:195-212 | when no standard session of several samples opens with a value of zero, the value is that of the standard session windows |
| `StandardSessions.PositiveShiftIsStandard` | README.md:128 | so it is when every sample is positive |
| `StandardSessions.ZeroSampleMovesTheSession` | backend/app/browser/performance.py:203-208 | seven samples of which the first is zero: the code gives 6, the standard windows 5 |
| `DomTracking.ForestIsFlattened` | backend/app/browser/normalization.py:141-174 | within the limits the events of a forest that the counters can follow list its preorder with depths, noscript erased, and restore both counters |
| `DomTracking.HiddenForestLeavesState` | backend/app/browser/normalization.py:141-174 | inside a noscript the events of such a forest list nothing and move nothing |
| `DomStructure.RebuildAfterFlatten` | backend/app/browser/normalization.py:141-174 | the list of depths and tags determines the forest |
| `DomTracking.CountersRestoredIff` | backend/app/browser/normalization.py:141-174 | within the limits a forest brings depth and ignore counter back if and only if no noscript is self-closed and, unless the depth is 0, no other tag is self-closed inside a noscript |
| `DomTracking.ListedIffListable` | backend/app/browser/normalization.py:141-174 | below some element exactly the preorder of a forest with its depths, noscript erased, is listed if and only if nothing is there to list after an element that leaves a noscript open or that has an ordinary tag self-closed inside a noscript, at any level |
| `DomTracking.TopListedIffListable` | backend/app/browser/normalization.py:141-174 | the same at the top of a document, where a lost level does not reach the next element, so that only an open noscript matters between elements |
| `DomTracking.NeverListsMore` | backend/app/browser/normalization.py:141-174 | no forest lists more nodes than it has outside noscript, so none within the node limit is cut |
| `DomTracking.CutExactlyAtTheLimits` | backend/app/browser/normalization.py:141-174 | for any stream of tags, well formed or not, every visible opening tag is listed up to 20000, the structure is truncated exactly when there was one more, and no depth exceeds 100 |
| `DomTracking.NestedTagsDeepen` | backend/app/browser/normalization.py:141-160 | nested tags are listed one level deeper each, down to level 100 and there from then on |
| `DomTracking.DocumentIsListedIff` | backend/app/browser/normalization.py:222-236 | a document within the limits is never truncated; its list is its preorder if and only if it is listable in that sense, and the counters are fresh besides if and only if moreover no noscript is self-closed |
| `DomTracking.SameStructureIffSameForest` | backend/app/browser/normalization.py:222-236 | two listable documents have the same structure exactly when they agree outside noscript |
| `DomTracking.SelfClosedNoscriptHidesTheRest` | backend/app/browser/normalization.py:162-165 | from any state a self-closed noscript hides everything after it, whatever it is |
| `DomTracking.SelfClosedTagInNoscriptShiftsASibling` | backend/app/browser/normalization.py:162-165 | a tag self-closed inside a noscript lists the next sibling one level too high: at depth 0 where its place is depth 1 |
| `DomTracking.SelfClosedTagInNoscriptLosesADepth` | backend/app/browser/normalization.py:162-165 | from any depth it costs exactly one level, and none at depth 0 |
| `DomParser.StructuralParser.HandleStartTag` | backend/app/browser/normalization.py:141-160 | start tags: ignore counter, node limit, depth limit, void tags |
| `DomParser.StructuralParser.HandleStartEndTag` | backend/app/browser/normalization.py:162-165 | self-closing tags |
| `DomParser.StructuralParser.HandleEndTag` | backend/app/browser/normalization.py:167-174 | end tags |
| `DomParser.StructuralParser.FeedAll` | backend/app/browser/normalization.py:222-226 | a whole event stream |
| `DomParser.StructureOf` | backend/app/browser/normalization.py:222-236 | the structure of any document is that of its event stream; within the limits it is not truncated, its list is its preorder exactly for a listable document, and that list rebuilds to the erased forest |
| `Comparison.CompareNormalizedState` | backend/app/browser/comparison.py:26-99 | the first missing or incompatible part is the reason; otherwise all changes, cut at the limit and counted |
| `Comparison.AppendSetChanges` | backend/app/browser/comparison.py:102-112 | sorted additions, then sorted removals |
| `Comparison.AppendNetworkStatusChanges` | backend/app/browser/comparison.py:115-134 | sorted status changes of shared dependencies |
| `Comparison.AllChangesReport` | backend/app/browser/comparison.py:58-93 | the list holds exactly the differences, each once |
| `Comparison.AllChangesInOrder` | backend/app/browser/comparison.py:58-93 | the list is ordered by section, additions before removals, keys increasing, so that the cut at 200 is determined |
| `Comparison.PatchGivesCurrent` | backend/app/browser/comparison.py:58-93 | applying the list to the predecessor's keys and status counts gives the current ones |
| `Comparison.NothingReportedIffSame` | backend/app/browser/comparison.py:58-93 | the list is empty exactly when DOM hash, key sets and shared status counts agree |
| `Comparison.SwapMirrors` | backend/app/browser/comparison.py:58-93 | swapping the arguments mirrors every change, one for one |
| `Comparison.ProblemIsSymmetric` | backend/app/browser/comparison.py:39-56 | whether and why two states do not compare does not depend on their order |
| `Comparison.ProblemIsTheFirst` | backend/app/browser/comparison.py:39-56 | two states compare exactly when all four sections are in both by one version; else the reason is the first section missing or differing |
| `RequestTotals.NormalizeNetwork` | backend/app/browser/normalization.py:255-285 | the aggregate of every dependency, and no other |
| `RequestTotals.TotalsAreOccurrences` | backend/app/browser/normalization.py:262-282 | each total is the number of the dependency's requests of that sort |
| `RequestTotals.FamiliesWithinResponses` | backend/app/browser/normalization.py:275-282 | status families count at most the responses, and those at most the requests |
| `RequestTotals.SummarizeConsentDependencies` | backend/app/browser/cmp.py:209-249 | the aggregate of every dependency and phase, and no other |
| `RequestTotals.PhasesConserveRequests` | backend/app/browser/cmp.py:217-241 | the phases of a dependency add up to its requests |
| `RequestTotals.PhasesConserveErrors` | backend/app/browser/cmp.py:242-245 | for requests that count alike the phase errors are the failures plus the 4xx and 5xx responses |
| `RequestTotals.PhasesAreSides` | backend/app/browser/cmp.py:217-245 | PRE_CONSENT counts exactly the dependency's requests and errors without a boundary, without a time or before the boundary, the phase of the chosen path exactly those from it on |
| `RequestTotals.CountsAlikeIff` | backend/app/browser/collectors.py:53-84 | exactly which single requests count alike; those the collectors record always do |
| `RequestTotals.FirstIsEarliest` | backend/app/browser/cmp.py:246-248 | the first request of a phase is the earliest recorded one |
| `RequestTotals.FirstOfPhaseIsFirstOnSide` | backend/app/browser/cmp.py:246-248 | the first time of a phase is the least recorded on its side of the boundary |
| `Auctions.FoldEvents` | backend/app/browser/prebid.py:344-397 | the fold over the first 2000 events yields every auction and bidder, and no other |
| `Auctions.CountersAreOccurrences` | backend/app/browser/prebid.py:370-397 | each counter is the number of events of its kind |
| `Auctions.AuctionCountsKinds` | backend/app/browser/prebid.py:370-397 | an auction's requests, responses, no-bids and timeouts count the event kinds they are named after, and any known kind makes the auction appear |
| `Auctions.BidderCountsKinds` | backend/app/browser/prebid.py:370-397 | the same for a bidder, with its wins and the first thousand of its response times |
| `Auctions.TimesAreFirstAndLast` | backend/app/browser/prebid.py:366-369 | an auction starts at its first timed start and ends at its last end |
| `Auctions.BiddersWithinAuction` | backend/app/browser/prebid.py:370-397 | over its bidders each count adds up to at most the auction's, and to exactly it if and only if every event counted carries a valid bidder |
| `Names.Sort` | backend/app/browser/comparison.py:109-112 | the one increasing listing of a set |

## Left out

- `Evaluator.EvaluateJavascript`: the dependency, canonical, pending-noindex and pending-slot candidates of `evaluate` and the truncation skip of its dependency part; they are field differences with no state. The JavaScript part and the validity checks all parts share are modelled.
- `WindowEvaluation.EvaluateWindow`: the list of skip reasons; only whether a checkpoint is used is modelled.
- `EvaluatedRecoveries.EvaluatedRunsCountRight`: the candidates of the parts of `evaluate` left out above are not covered.
- `EventRepository.Repository.SupportCondition`: the latest time is a maximum of instants, while the source compares ISO texts; the two agree for one common UTC offset and precision.
- `EventRepository.Repository.PersistCondition`: transactions run one at a time except for the creator race, whose stale first select is the parameter `raced`; locks on the active row and on the unique index are what justify this. `Persist` calls it with an accurate select; `EventTheorems` covers runs of calls with stale ones.
- `EventRepository.Repository.InsertCandidateEvidence`: the specific evidence row of a pointer is identified by its run; that the row exists is a field of the stored run.
- Summaries, `before` and `after` texts and confirmation texts of events: copied, never read back.
- Public-configuration events and the SUPERSEDED status: nothing in the modelled code writes them.
- `JsTheorem.JsConditionIsHistory`: one page and scenario, every checkpoint delivered first in order and without gaps; with gaps only `JsOrigins.EveryConditionHasATriple` holds, since an invalid checkpoint suppresses a recovery.
- `ReliabilityTheorems.DeliveryRefines`: loading the open episode and persisting are one step, while the source does them in two transactions; two diagnostics of one site derived at the same time are not modelled.
- `CheckpointTheorems.NoLostWindowCompletion`: the runs of a window are fixed; a later scheduler pass that adds a run to a finished window is not modelled. Reads see committed rows and the transaction's own writes, statement by statement, as under READ COMMITTED.
- `CheckpointRepository.Repository.Finalize`: artifacts, collector results, normalized rows and the manifest are not written; a diagnostic run always has its access classification by then, as the source sets it in the same call.
- `BrowserWorker.HandleBrowserJob`: payload checks, cost records, log lines and the queue calls themselves; the queue is a delivery with an attempt number, and deliveries of one job do not overlap.
- `Scheduling.WindowsTile`: time zones have a fixed offset; a clock change can break containment in the source.
- `SiteMonitoring.NoRunForWindowThatStartedOff`: assumes that no pass that commits before a switching off carries a later instant than it; the source reads the toggle's clock before it takes the row lock, so this can fail, and `SiteMonitoring.AuthorizedExactlyWhenTimely` is exact without the assumption. The branch for a lost conditional update cannot be reached under that lock and has no counterpart.
- `MonitoredSite.Services.MaterializeSite`: the choice of URLs and scenarios and the answer of the budget breaker are parameters; the enqueueing of the browser jobs is left out.
- `RateLimit.PruningChangesNoAnswer`: one window length and one limit for all calls, as the callers use; `cleanup` reads the clock a second time in the source. Real numbers replace floats.
- `RateLimitStore.Store.IsRateLimited`: a limit below one indexes an empty list in the source; that is an answer of its own here.
- `LayoutShift.CalculateCls`: shifts are not negative, as the parser of the samples ensures; real numbers replace floats.
- `StandardSessions.ShiftIsStandardIfSessionsOpenWithShift`: one way; where sessions differ, the largest total can still happen to agree. `StandardSessions.SessionsAreStandardIff` is exact for the sessions.
- `StandardSessions.PositiveShiftIsStandard`: one way, as its special case.
- `DomTracking.ForestIsFlattened`: attributes are one opaque value per tag, and the tokenizer that turns text into tags is not modelled; documents over the size, node or depth limits are followed by `DomParser` only. It goes one way; the other results of `DomTracking` are exact.
- `Comparison.CompareNormalizedState`: a part is missing or well formed; lists with duplicate keys are sets and maps.
- `RequestTotals.NormalizeNetwork`: the cut to the first 2000 sorted dependencies and the hash over them.
- `RequestTotals.SummarizeConsentDependencies`: the cut to the first 2000 sorted aggregates.
- `Auctions.FoldEvents`: configured timeout, ad-unit count, response-time statistics and the first ad-server request.
- Interaction latency, resource summaries, consent-framework and version parsing, script lists and error fingerprints: parsing without state.
- Sessions, routes, queue internals, storage, retention and the other providers' handlers.
