# Outreach orchestration: a verified model

The system drives outreach to students. A webhook and an operator screen move a student's tracking row through a
lifecycle table; a repository layer appends history, transition-log and processed-event rows behind a governance gate;
advisory engines decide eligibility, priority, intent and contact channels; shadow campaigns certify that nothing live
happens; batch jobs import history, join payment plans and generate narratives. This project models that logic in Dafny
and proves what holds across all rules, across engines and over unbounded runs of calls.

`dafny verify dfyconfig.toml` checks the whole project. One module a file:

- `StateMachine`: the transition table and its paths.
- `Persistence`, `OutreachStore`, `OutreachRuns`, `HistoryLedger`: the governance gate; the database as a class with
  committed and staged tables and the two handlers; every serial run of handler calls; the keyed history ledger.
- `Lists`, `Channels`: in-place list surgery; the channel advisory pipeline as one filter and one stable reordering.
- `Risk`, `PriorityEngine`, `DecisionEngine`, `Eligibility`, `Engines`: the reference grading, the three engines, and
  how they relate.
- `Ledgers`: the in-memory idempotency stores and the four services that consume keys by different rules.
- `Campaign`: counter loops, the row-wise and column-wise totals, certification, volumes.
- `Narratives`, `RetoolImport`, `PlanJoin`: the batch jobs.
- `Wrappers`: the optional value.

Reading conventions. A Python `None` is `None`; an absent string that the code only checks for truth is the empty
string. Configured thresholds are optional reals: a missing key, a null and the `UNKNOWN_V0` sentinel are all `None`
where a number is needed, and no order between thresholds is assumed. Where a statement may raise, the environment chooses the place: a `Fault`,
`Failure`, `Reply` or flush flag that the caller passes in. Hashes are constructors of their inputs, so they identify them.

## What the code turns out not to do

Each of these is proved, together with the exact condition under which the code does meet the promise.

- The mode string the settings produce is `ExecutionMode.SHADOW` (`app/config.py`, `app/routers/_router_helpers.py`,
  `app/services/outreach.py`), which the persistence gate does not know. Under it every webhook delivery is answered as
  a duplicate and leaves no row, and an operator action moves the state without a log row
  (`OutreachRuns.SettingsModeLosesEveryRecord`, `OutreachRuns.UnloggedCloseExample`). The log reconstructs every tracking row
  exactly when no operator action takes effect under a rejected mode string (`OutreachRuns.LogAgreesIff`).
- History keys live in memory: at-most-once delivery holds up to a restart. After one, every run that holds keys of a
  given set keeps it exactly when no row of the table holds one of them (`HistoryLedger.AfterRestartIff`); a key can be
  committed twice (`HistoryLedger.TwiceAcrossRestart`), once for each process and no more (`HistoryLedger.OncePerProcess`,
  `HistoryLedger.OncePerProcessReached`).
- The webhook can process no event of a user who has two tracking rows, at any time: the lookup raises. It can process
  some event of a user exactly when one tracking row is theirs (`OutreachRuns.UserIsServedIff`,
  `OutreachRuns.TwoRowsShutTheWebhook`).
- The exhaustion exit of Rule 8 in the channel pipeline is never taken (`Channels.RunGates`).
- The eligibility rule for a compliance hold clears the live permission, and the common exit sets it again: a held
  student in LIVE mode is reported with live outreach permitted (`Eligibility.HoldDeniesLiveIff`,
  `Eligibility.HeldYetPermitted`).
- The priority engine takes a null AI lifetime for a configured one and rates an insight the eligibility engine calls
  unavailable (`Engines.PriorityAndEligibilityTiersAgreeIff`, `Engines.NullLifetimeSplitsTiers`).
- The dry run of the import counts rows without a user and repeated keys as insertions; it is exact just when there are
  none of those and no failures (`RetoolImport.DryRunBounds`, `RetoolImport.DryRunOvercounts`).
- The plan join compares the two names through one key joined with a bar, so names that contain a bar can take another
  student's plan; the exact condition is on the student's own names (`PlanJoin.JoinIsScanIff`, `PlanJoin.CollidingNames`).

## Model

| member | source | states |
|---|---|---|
| StateMachine.PathPotential | app/state_machine.py:3-14 | along any path the edges used plus the remaining potential stay within the start's potential plus three for each retry |
| StateMachine.PathBound | app/state_machine.py:3-14 | any path with r RETRY to CONTACTED edges has at most 7 + 3r edges |
| StateMachine.PathBoundTight | app/state_machine.py:3-14 | the bound is reached for every r |
| StateMachine.EntriesAre | app/state_machine.py:3-14 | the table read backwards: for each state, exactly from which states it can be entered |
| StateMachine.ContactReachableIff | app/state_machine.py:3-14 | CONTACTED can be reached from a state exactly when no response has been recorded, so never again after RESPONDED |
| StateMachine.HandlerEdgeDescends | app/state_machine.py:32-33 | every transition a handler can request lowers a rank |
| StateMachine.HandlerPathBound | app/state_machine.py:32-33 | a path driven by the two handlers alone has at most five edges, and at most the rank its ends lose |
| StateMachine.HandlerRankAttained | app/state_machine.py:3-14 | the rank is exact: from every state some handler path uses it up |
| Persistence.CheckAttributionFields | app/repositories/_repository_helpers.py:102-120 | no code exactly for valid attribution, and every code reported has its cause and every cause its code |
| Persistence.GateWords | app/repositories/_repository_types.py:69-76 | the valid modes and types, and the types that hold no key, word by word |
| Persistence.GovernancePersistenceGate | app/repositories/_repository_helpers.py:178-201 | the codes are exactly the causes present; a write passes exactly when attribution is valid and no guard objects |
| OutreachStore.RowOf | app/routers/webhook.py:93-102 | finds the row of a user, tells none from several |
| OutreachStore.LatestRowOf | app/services/outreach.py:410-419 | finds a most recently updated row of the user |
| OutreachStore.Lower | app/routers/webhook.py:109 | an upper-case letter becomes its lower-case one, every other character stays |
| OutreachStore.Store.RecordProcessedEvent | app/repositories/repository.py:327-425 | a hash is staged once; a repeat or a gate rejection changes nothing; a failed flush loses the transaction |
| OutreachStore.Store.AppendStateTransition | app/repositories/repository.py:172-255 | the staged log grows by this row exactly when the gate passes and the flush succeeds |
| OutreachStore.Store.AppendOutreachHistory | app/repositories/repository.py:66-167 | admits by attribution and key, takes the key of non-replay rows even if the flush then fails |
| OutreachStore.Store.GhlWebhook | app/routers/webhook.py:40-175 | a delivery commits its whole effect on four tables or nothing, and each answer has its exact condition |
| OutreachStore.Store.ProcessEvent | app/routers/webhook.py:104-175 | with the event staged, row change, log row, history row and event commit together or not at all |
| OutreachStore.Store.StageMove | app/routers/webhook.py:133-138 | a legal move to another state is staged together with its log row, anything else leaves the session alone |
| OutreachStore.Store.ExecuteManualAction | app/services/outreach.py:387-463 | the action moves the latest row if the table allows it, its log row is written only under a known mode, and each answer has its exact condition |
| OutreachRuns.RunExtends | app/repositories/repository.py:66-167 | over any run the three tables only grow and no tracking row appears, vanishes or changes hands |
| OutreachRuns.EventsAndHistoryInLockstep | app/routers/webhook.py:57-163 | over any run the committed event hashes are those of the committed history rows, one for one in order, and distinct |
| OutreachRuns.OneHistoryRowPerEvent | app/routers/webhook.py:57-163 | no two history rows of a run carry the same body, and none repeats an event recorded before it |
| OutreachRuns.UserIsServedIff | app/routers/webhook.py:93-102 | at any point of any run some event of a user can still be processed exactly when one tracking row is theirs |
| OutreachRuns.TwoRowsShutTheWebhook | app/routers/webhook.py:93-102 | a database with two rows of one user, at two checkpoints, for whom no delivery ever changes anything |
| OutreachRuns.RedeliveryIsInert | app/routers/webhook.py:58-75 | redelivering a recorded event changes nothing, whatever ran in between |
| OutreachRuns.KnownEvents | app/routers/webhook.py:77-82 | exactly four event types are known |
| OutreachRuns.AnswerMovesContacted | app/routers/webhook.py:108-138 | an accepted answer takes a CONTACTED row to RESPONDED exactly when the lowered outcome is one of four words, else to NO_RESPONSE, and leaves every other state alone |
| OutreachRuns.TranscriptMovesResponded | app/routers/webhook.py:123-138 | an accepted TRANSCRIPT_READY takes RESPONDED to ANALYZED and leaves every other state alone |
| OutreachRuns.YesIsAnAnswer | app/routers/webhook.py:108-114 | "Yes" answers, "no" and no outcome do not |
| OutreachRuns.DeliveryWrites | app/routers/webhook.py:140-161 | each field of the history row an accepted delivery adds |
| OutreachRuns.MoveWrites | app/services/outreach.py:425-451 | trigger, actor and attribution of the log row of a webhook or operator move |
| OutreachRuns.ActionWords | app/services/outreach.py:379-384 | exactly four actions are known |
| OutreachRuns.ActionsApplyIff | app/services/outreach.py:406-423 | for each action, exactly the states of the latest row it applies to |
| OutreachRuns.ActionsLeadTo | app/services/outreach.py:421-453 | the state each applied action leads to |
| OutreachRuns.WebhookMovesAreHistoryMoves | app/routers/webhook.py:133-163 | the webhook's logged transitions are, in order, the changes its history rows report: at most one per event |
| OutreachRuns.LogAgreesIff | app/services/outreach.py:421-453 | each row's log is a contiguous path of table edges to its current state exactly when no action ran under a rejected mode |
| OutreachRuns.LogDichotomy | app/services/outreach.py:421-453 | otherwise some row's replay is stuck or has missed a move, and stays so for good |
| OutreachRuns.ChangesAreBounded | app/state_machine.py:32-33 | any run changes a row's state at most five times, and logs no more than it changes |
| OutreachRuns.ChangesAttained | app/routers/webhook.py:133-138 | from every state some run of deliveries and actions makes as many changes as the rank, five from CONTACTED |
| OutreachRuns.ClosedIsAbsorbing | app/state_machine.py:13 | a closed row stays closed and gets no log row |
| OutreachRuns.SettingsModeLosesEveryRecord | app/services/outreach.py:425-426 | under the settings' mode string no run writes a log, history or event row |
| OutreachRuns.UnloggedCloseExample | app/services/outreach.py:421-453 | closing one case under that mode string moves the row and leaves the log empty |
| HistoryLedger.AppendKeepsAtMostOnceIff | app/repositories/repository.py:92-149 | a further row keeps at-most-once delivery exactly when its key is not held |
| HistoryLedger.DeliveredKeyIsHeld | app/repositories/repository.py:92-149 | a key has been delivered exactly when a row of the table holds it |
| HistoryLedger.AtMostOnceUntilRestart | app/repositories/repository.py:92-149 | over any appends, commits and rollbacks, old rows stay a prefix and no non-replay key is committed twice |
| HistoryLedger.ReplayTakesNoKey | app/repositories/_repository_helpers.py:159-175 | a replay row needs valid attribution only, takes no key and counts as no delivery |
| HistoryLedger.AfterRestartIff | app/repositories/repository.py:60-149 | after a restart every run within a set of keys, whatever fails, keeps the guarantee exactly when no row of the table holds one of them |
| HistoryLedger.TwiceAcrossRestart | app/repositories/repository.py:60-149 | one key committed twice, before and after a restart |
| HistoryLedger.OncePerProcess | app/repositories/repository.py:60-149 | over any run with any number of restarts, a key is committed at most once for each process |
| HistoryLedger.OncePerProcessReached | app/repositories/repository.py:60-149 | for every number of restarts some run commits its key once in each process |
| Lists.Gate | app/services/channel_selector.py:206-214 | removing barred elements one at a time leaves the open part in order and appends the barred part, in order |
| Lists.Demote | app/services/channel_selector.py:256-259 | moving marked elements to the back one at a time keeps both parts in order |
| Lists.ToFrontPermutes | app/services/_channel_advisory_helpers.py:103-151 | remove and insert at the front is a permutation that keeps the order of the rest |
| Channels.HealthOrder | app/services/channel_selector.py:178-348 | the channels past every gate, without duplicates, and no others |
| Channels.GovernanceGate | app/services/channel_selector.py:97-145 | Rule 0 finds a code exactly when a precondition fails |
| Channels.AiTier | app/services/_channel_advisory_helpers.py:58-100 | CONFIDENT and ADVISORY exactly for a reviewed, unflagged insight within its configured lifetime, by a score of 0.70 |
| Channels.AiPickIff | app/services/channel_selector.py:354-372 | the AI moves its channel exactly under one condition over the raw inputs |
| Channels.CandidateIff | app/services/channel_selector.py:178-348 | a channel is a candidate exactly by contact data, opt-out, suspension, provider state and failure count |
| Channels.ProviderGate | app/services/channel_selector.py:227-255 | the in-place provider loop computes the out-of-service and the degraded part of its list |
| Channels.PrioritizeChannels | app/services/_channel_advisory_helpers.py:103-151 | at most one channel moves to the front: the one the score speaks for, else the configured one |
| Channels.RunReachGates | app/services/channel_selector.py:178-270 | Rules 4 to 7 leave the reachable channels, degraded ones last, with the barred list as their complement |
| Channels.RunGates | app/services/channel_selector.py:178-348 | Rules 4 to 10 leave the health order; the exhaustion exit is dead; a replay is blocked exactly under its condition |
| Channels.RankChannels | app/services/channel_selector.py:350-381 | Rules 11 and 12 give the health order with at most two channels moved to the front |
| Channels.AssessChannelAdvisory | app/services/channel_selector.py:65-396 | the pipeline refines one filter and one stable reordering, the AI's channel first exactly when it may lead; live delivery iff candidates, LIVE and original, iff AUTHORIZED; exclusions, escalation and scope of every exit |
| Channels.PicksKeepTheRestInOrder | app/services/channel_selector.py:350-381 | the channels the two picks leave alone keep their health order |
| Channels.FirstChannel | app/services/channel_selector.py:350-396 | first comes the AI's pick, else the rules' pick, else a healthy channel exactly when one is available |
| Risk.AggregationIsMonotone | app/services/priority.py:283-295 | worse grades never lower the aggregated level |
| PriorityEngine.ScoreRiskFactors | app/services/priority.py:193-280 | the contributions list holds exactly the factors that fired, in scoring order |
| PriorityEngine.CountContributions | app/services/priority.py:283-295 | counting HIGH or MEDIUM in that list is tallying the graded factors |
| PriorityEngine.AggregatePriority | app/services/priority.py:283-295 | the branch chain computes the reference level of its two counts |
| PriorityEngine.ApplyAiAdjustment | app/services/priority.py:298-342 | never lowers; the exact level for every tier and recommendation |
| PriorityEngine.Service.AssessOrchestrationPriority | app/services/priority.py:347-509 | accepted exactly when the gate and the key store allow it; the key is consumed as the ledger says; the priority is the pipeline's |
| PriorityEngine.WorseSignalsNeverLower | app/services/priority.py:193-342 | worsening any signal never lowers the assessed priority, for arbitrary, missing or inverted thresholds |
| PriorityEngine.AiInfluenceIsBounded | app/services/priority.py:268-342 | AI never lowers; only CONFIDENT and ADVISORY change anything; ADVISORY at most two levels; CONFIDENT ESCALATE is CRITICAL |
| PriorityEngine.UpwardAdviceRaisesOne | app/services/priority.py:298-342 | CONFIDENT MEETING, OUTREACH and RESOURCE_DELIVERY give one level over the signals, ADVISORY ESCALATE one over the scored level, other CONFIDENT advice none |
| PriorityEngine.AdvisoryRaisesTwoLevels | app/services/priority.py:268-342 | the two levels are reached for every student without a risk factor |
| DecisionEngine.ComputeRisk | app/services/decision_engine.py:514-567 | each factor label is listed exactly when its check fires, and the level is the reference level of the grades |
| DecisionEngine.AssessAiTier | app/services/decision_engine.py:496-511 | each tier by an exact condition over state, flag and score |
| DecisionEngine.ValidateGovernancePreconditions | app/services/decision_engine.py:201-240 | Rule 0 finds a code exactly when a precondition fails |
| DecisionEngine.WorseSignalsNeverLower | app/services/decision_engine.py:514-567 | worsening any signal never lowers the risk level |
| DecisionEngine.EvaluateReplayIntent | app/services/decision_engine.py:415-460 | a replay never acts, is answered in SHADOW, and is blocked exactly in LIVE mode or without a fingerprint |
| DecisionEngine.EvaluateOrchestrationIntent | app/services/decision_engine.py:243-412 | each of the seven intents, the block, each of the four scopes and the mode a decision carries have one exact condition over the inputs |
| DecisionEngine.IntentFromRisk | app/services/decision_engine.py:336-412 | escalation is exactly high or critical risk; retry comes before recommendation, recommendation before first outreach |
| Eligibility.Aggregate | app/services/eligibility.py:397-400 | the counters' branch chain computes the reference level |
| Eligibility.CountAcademicRisk | app/services/eligibility.py:354-388 | the two counters tally the academic grades |
| Eligibility.CountHistoryRisk | app/services/eligibility.py:389-394 | the counters go on to tally the history grades |
| Eligibility.ScorePriority | app/services/eligibility.py:354-429 | the priority is the reference risk priority after at most one upward AI step |
| Eligibility.GovernanceGate | app/services/eligibility.py:178-191 | Rule 0 finds a code exactly when a precondition fails |
| Eligibility.RulesBeforeReplay | app/services/eligibility.py:215-294 | Rules 1 to 7 end the run exactly when one declarative condition fails, with the scope and the priority of that exit |
| Eligibility.AttemptScope | app/services/eligibility.py:339-352 | retry, first outreach or neither, by attempts and state |
| Eligibility.OutreachOrRetryIff | app/services/eligibility.py:178-352 | OUTREACH or RETRY exactly under one conjunction over the raw inputs |
| Eligibility.RiskPriorityIs | app/services/eligibility.py:354-400 | each risk priority by how many high and medium factors fire, factor by factor |
| Eligibility.UpwardAdviceRaisesOne | app/services/eligibility.py:402-420 | the exact level for every tier and recommendation |
| Eligibility.AssessOrchestrationEligibility | app/services/eligibility.py:144-450 | each scope, the block, the live permission, also under a hold, and the priority follow one declarative condition over the inputs |
| Eligibility.HoldDeniesLiveIff | app/services/eligibility.py:223-238 | a held student is denied live outreach exactly when the run is closed, invalid, not LIVE or not original |
| Eligibility.HeldYetPermitted | app/services/eligibility.py:223-238 | a concrete held student with live outreach permitted |
| Eligibility.ScopeIgnoresRisk | app/services/eligibility.py:178-352 | no risk signal can change any condition of the scope |
| Eligibility.WorseSignalsNeverLower | app/services/eligibility.py:354-429 | worsening any signal never lowers the priority, whatever the rest of the context |
| Engines.PriorityAndDecisionTiersAgreeIff | app/services/decision_engine.py:496-511 | the two tier classifiers agree exactly unless a reviewed insight has no stale flag and no lifetime is configured, a null one counting as configured |
| Engines.PriorityAndEligibilityTiersAgreeIff | app/services/priority.py:158-190 | these two differ exactly on a reviewed insight without a numeric lifetime that has a stale flag or a null lifetime |
| Engines.NullLifetimeSplitsTiers | app/services/priority.py:182-189 | one insight that a null lifetime takes from UNAVAILABLE to ADVISORY in the priority engine and not in the eligibility engine |
| Engines.EligibilityAndDecisionTiersAgreeIff | app/services/eligibility.py:84-110 | these two agree exactly unless a reviewed insight has no configured lifetime |
| Engines.DecisionRiskNeverExceedsBasePriority | app/services/decision_engine.py:514-567 | for the same signals the decision engine never rates above the priority engine, and alike without a moderate factor |
| Engines.WithoutModerateThresholdsRiskIsBasePriority | app/services/priority.py:193-295 | with the moderate thresholds absent the two ratings are equal |
| Engines.LowRiskAgreesIff | app/services/priority.py:193-295 | at no decision risk the ratings differ exactly when a moderate factor fires |
| Engines.ActionsAgreeWhenContactable | app/services/decision_engine.py:377-405 | where one engine initiates or retries, the other grants it exactly when the student can be contacted now |
| Engines.WithheldActions | app/services/eligibility.py:329-352 | a granted action passes the decision engine's gates, and its retry needs exactly a configured ceiling |
| Ledgers.StoreIsKeysTaken | app/services/outreach.py:92-126 | over any calls the store is what it held plus the keys of admitted calls that take theirs |
| Ledgers.AdmittedIff | app/services/outreach.py:92-126 | a call is admitted exactly when valid and no earlier admitted call took its key |
| Ledgers.KeyIsTakenOnce | app/services/outreach.py:92-126 | once a call has taken a key no later call with it is admitted |
| Ledgers.CoordinationService.Coordinate | app/services/outreach.py:208-241 | only accepted original cycles take their key, before the maintenance and replay exits |
| Ledgers.AiService.Admit | app/services/ai_insights.py:118-212 | only accepted original calls take their key |
| Ledgers.AlertService.Gate | app/services/alerts.py:252-282 | every accepted call takes its key, replays included |
| Ledgers.ProviderService.AssessProviderOrchestration | app/services/ghl.py:107-280 | each of the eight outcomes has its exact condition, and only a call that reaches Rule 9 takes its key |
| Campaign.RowsAreColumns | shadow_campaign/_campaign_helpers.py:151-249 | violations counted record by record equal violations counted flag by flag |
| Campaign.ComputeMetrics | shadow_campaign/_campaign_helpers.py:151-198 | each counter of the loop is the total of its measure |
| Campaign.CertifyGovernance | shadow_campaign/_campaign_helpers.py:220-249 | each column counter and both totals are right, and it passes exactly at zero |
| Campaign.AuditCampaignRecords | shadow_campaign/_campaign_helpers.py:252-284 | the audit passes exactly when all seven totals are zero |
| Campaign.ReportFollowsAudit | shadow_campaign/operator_report.py:17-39 | over the same records certification passes iff the audit does, and the degraded outcome is unreachable |
| Campaign.OutcomesAre | shadow_campaign/operator_report.py:24-39 | for metrics and an audit of whatever records, when each outcome is reported |
| Campaign.AuditPassesIff | shadow_campaign/_campaign_helpers.py:252-273 | the audit passes exactly when no effect and no dispatch add up and every single record is clean, field by field |
| Campaign.RunGovernanceCertification | shadow_campaign/governance_certifier.py:66-88 | every counter is the larger of flag count and explicit check; passes exactly when both find nothing |
| Campaign.CertificationPassesIff | shadow_campaign/governance_certifier.py:26-88 | certification passes exactly when every single record is clean, field by field |
| Campaign.DeriveScope | shadow_campaign/_campaign_helpers.py:25-42 | each scope by an exact condition |
| Campaign.RecordsAre | shadow_campaign/_campaign_helpers.py:45-139 | type, scope, suppression, replay and finality of the records the runners make |
| Campaign.MadeRecordIsClean | shadow_campaign/_campaign_helpers.py:25-139 | whatever scope is derived, a record the builder makes is suppressed and shows on no measure but those of volume |
| Campaign.MadeCampaignIsClean | shadow_campaign/governance_certifier.py:66-88 | a campaign of made records is fully suppressed, without effects or violations, and passes the audit and the certifier |
| Campaign.RunCampaignCycle | shadow_campaign/campaign_runner.py:26-80 | which records a cycle makes, in order: originals, replays, finalized |
| Campaign.RunFullCampaign | shadow_campaign/campaign_runner.py:83-108 | cycles times count plus a replay share every third cycle, all suppressed, and audit and certifier pass |
| Campaign.RunLoadCampaign | shadow_campaign/campaign_runner.py:111-134 | exactly max(1, volume) records, originals and then the replay share, all suppressed, and audit and certifier pass |
| Narratives.NarrativeStore.GenerateStudentNarratives | app/services/_narrative_generation.py:78-152 | adds exactly the missing types the reply has a text for; an error means a failed call while a type was missing |
| Narratives.NarrativeStore.GenerateAllMonthlyNarratives | app/services/_narrative_generation.py:155-217 | every student is counted once, new and failed are exactly those, and the first ten failures are listed |
| Narratives.FinalText | app/routers/reports.py:201-205 | the text of the last finalized row of the student and type, and none exactly when there is no such row |
| Narratives.NarrativeStore.BackfillNarratives | app/routers/reports.py:185-249 | a text stays; a NULL column takes the newest finalized row's text, and stays NULL exactly when there is none |
| Narratives.CoalesceColumns | app/routers/reports.py:198-225 | one updated row has, in each of the five columns, what it held or else the newest finalized text |
| Narratives.GenerationFills | app/services/_narrative_generation.py:94-150 | a generation changes the finalized text of exactly its own student's missing types that the reply supplies |
| Narratives.FinalizedOnceAndForAll | app/services/_narrative_generation.py:94-150 | over any generations and backfills at most one finalized row per student and type, and written rows stay |
| Narratives.FinalTextNeverChanges | app/services/_narrative_generation.py:94-150 | a finalized text is the one every later reader finds |
| Narratives.CompleteStudentIsSkipped | app/services/_narrative_generation.py:104-106 | once all types are final no later call for that student writes, whatever ran in between |
| Narratives.ColumnsOnlyFill | app/routers/reports.py:198-243 | over any run a column keeps its text, or is NULL, or holds the one finalized text |
| Narratives.EarlierBackfillsLeaveNoTrace | app/routers/reports.py:198-243 | after a final backfill the columns depend on the first snapshot and the insights only, however many backfills ran before |
| Narratives.BatchIsARun | app/services/_narrative_generation.py:178-197 | a batch is a run of single generations, so run theorems hold of it |
| RetoolImport.Importer.ImportTable | app/scripts/import_retool_outreach.py:161-233 | statement by statement with commit and rollback, tables and counts are those of the row-by-row specification |
| RetoolImport.Importer.RunImport | app/scripts/import_retool_outreach.py:236-264 | unknown tables are passed over, all others add their counts |
| RetoolImport.KeysAreRows | app/scripts/import_retool_outreach.py:124-127 | two rows share a key exactly when table, user and date agree |
| RetoolImport.BuildActivity | app/scripts/import_retool_outreach.py:203-219 | the insert parameters are those of the specification |
| RetoolImport.ActivitiesAre | app/scripts/import_retool_outreach.py:69-101 | for each table, which columns the activity takes its texts from |
| RetoolImport.ImportLockstep | app/scripts/import_retool_outreach.py:185-231 | the keys grow by those of the writable rows, each new key with one activity; inserted counts both |
| RetoolImport.FirstRowsAreWritten | app/scripts/import_retool_outreach.py:185-222 | the new activities are those of the first writable row of each new key; later rows of that key are dropped |
| RetoolImport.EveryRowIsCountedOnce | app/scripts/import_retool_outreach.py:178-233 | inserted + skipped + errors is the number of rows, and a dry run changes nothing |
| RetoolImport.ErrorFreeStoresEveryUser | app/scripts/import_retool_outreach.py:185-231 | without errors every row that has a user has its key stored |
| RetoolImport.RerunInsertsNothingIff | app/scripts/import_retool_outreach.py:185-191 | importing rows inserts nothing, whatever fails, exactly when every row with a user is stored |
| RetoolImport.ErrorFreeRerunIsInert | app/scripts/import_retool_outreach.py:161-233 | after an error-free import a re-run changes no table, inserts nothing and reports no error |
| RetoolImport.DryRunBounds | app/scripts/import_retool_outreach.py:193-195 | the dry run never promises less than the import inserts, and is exact just under the stated condition |
| RetoolImport.DryRunOvercounts | app/scripts/import_retool_outreach.py:188-201 | three rows of any known table of which the dry run counts three and the import inserts one |
| RetoolImport.TotalsAddUp | app/scripts/import_retool_outreach.py:246-255 | over all tables the counts add up to the rows fetched plus the failed fetches |
| RetoolImport.ImportStores | app/scripts/import_retool_outreach.py:246-255 | a whole import stores the old keys and those its tables can write, one activity for each new one |
| RetoolImport.TableOrderDoesNotMatter | app/scripts/import_retool_outreach.py:248-255 | order and repetition of tables change neither the keys nor the number inserted |
| PlanJoin.IndexPlans | app/services/payment_sync.py:226-236 | a lookup in either dictionary finds what a scan for the last match finds |
| PlanJoin.PickPlan | app/services/payment_sync.py:259-266 | the two lookups in turn give the joined row |
| PlanJoin.PlanOf | app/services/payment_sync.py:272-279 | no name for an empty one, zero for a missing amount |
| PlanJoin.PlanSync.SyncPlans | app/services/payment_sync.py:193-299 | each exit has its exact condition, and otherwise the mirror and the counts are those of the joined pass |
| PlanJoin.NameKeyDecides | app/services/payment_sync.py:232-236 | equal joined keys mean equal names unless the key splits elsewhere |
| PlanJoin.JoinIsScanIff | app/services/payment_sync.py:259-266 | the join picks the row of the documented scan, for every view, exactly when the student's key splits one way |
| PlanJoin.PlainNamesJoinAsDocumented | app/services/payment_sync.py:259-266 | names without a bar are joined as documented |
| PlanJoin.CollidingNames | app/services/payment_sync.py:232-266 | a concrete student that takes the plan of somebody with other names, under any normaliser that keeps the four parts |
| PlanJoin.PassOutcome | app/services/payment_sync.py:247-283 | updated + skipped is the number of students, and each user holds the plan of the last joining row, or what it held |
| PlanJoin.SyncIsIdempotent | app/services/payment_sync.py:247-285 | syncing the same data again leaves the mirror as it is |

## Left out

- Concurrency: the handlers read and write a tracking row without a lock, so run theorems are about serial calls.
- `worker.py`, `sync.py`, `snapshot.py`, `report.py`, `scheduler.py`, `segmentation.py`, `timeline.py` are not part of this model; a tracking row may start in any state and other writers of narratives are not modelled.
- HTTP plumbing, logging, identifiers, clocks, SHA-256, SQL Server, the provider and the model calls: parameters or absent. Reason codes, constraint lists and log texts are left out where no stated property reads them.
- OutreachStore.Store.GhlWebhook: the 404 answer and the exceptions are distinguished only as not found and failed; messages are not modelled.
- OutreachStore.Store.ProcessEvent: the handler is split in two methods and StageMove for the proof; the source has one function.
- Channels.AssessChannelAdvisory: the output objects the source mutates are values here; the class would hold them by reference. Failure counts are integers.
- Channels.PrioritizeChannels: the `resp` table, which the source computes and never uses.
- PriorityEngine.ScoreRiskFactors: a factor is reduced to its contribution; names and values of factors are not kept. Thresholds that are neither numbers nor the sentinel are not modelled.
- Eligibility.AssessOrchestrationEligibility: timestamps arrive parsed, as unparsable, or absent.
- Ledgers.AiService.Admit: the tier and scope rules behind the store, which do not touch it.
- Ledgers.AlertService.Gate: severity, degradation state and recovery action, each a chain of conditions over one call.
- Ledgers.ProviderService.AssessProviderOrchestration: the degradation markers and the accumulation of missing thresholds, which change no answer.
- Ledgers.CoordinationService.Coordinate: intent classification per student, a pure chain of independent conditions.
- Campaign.ComputeMetrics: the duplicate, configuration-failure and provider-suppression counters, which no certification condition reads.
- Campaign.RunCampaignCycle: the record fields no measure reads. The attribution certificate, a second counter loop of the same shape.
- Narratives.NarrativeStore.GenerateAllMonthlyNarratives: a commit that raises, and a reply that is valid JSON but no object, end the batch with an exception in the source; a batch without an API key returns before its first student.
- Narratives.NarrativeStore.BackfillNarratives: insights are kept in creation order, so the newest is the last; the count of backfilled rows is not modelled.
- RetoolImport.Importer.ImportTable: the existence check and the creation of the key table do not fail here; user ids are integers.
- PlanJoin.PlanSync.SyncPlans: an amount that is no number ends the source's pass with an exception; here amounts are reals.
- `protect_finalized_ai_insight`, `get_or_generate`, the read-only routers and the schema migrations: single-row updates, queries and declarations that would only add easy members.
