# Verified models of the trading and recognition protocols

This project models the safety-critical protocols of the repository in Dafny and proves what they keep over
whole runs. Each group of files is one component.

- `LeaseRows`, `AttemptStore`, `LeasedRunner`, `LeaseSystem` and the six theorem files: the authoritative
  execution lease. A decision row and its attempt rows are moved by compare-and-set updates; workers, scanners,
  crashes, automatic retries and overwritten decisions interleave. A worker's closing operation is split into its
  read and its write. A scanner closes in one step at any time, whether or not the owner lives, or is split in two
  and then loads its row only after the owner is gone, as its liveness check intends. Three witnesses show what
  happens when a split scanner reads earlier, when a manual call skips the retry gate, and when the decision of a
  succeeded attempt is overwritten; `LeasePolicy` makes the conditions exact. The exchange adapter is assumed to
  report a refusal, no contact or `not_started` only when nothing was written.
- `Terminalization`, `TerminalizationTheorems`, `TerminalizationAnswers`, `Batch150`, `Batch150Input`: the exact apply
  and rollback engine over any list of actions with distinct keys, what each of its answers means, the rendered
  rollback script, and the concrete eight-row plan.
- `AiConfig`, `AiNormal`, `AiResolve`, `AiConfigSave`, `AiConfigRoundTrip`, `FreshNames`, `AiMigration`,
  `AiMigrationAnswers`, `AiMigrationRoundTrip`: normalising, promoting and migrating the AI configuration, and which
  models a stage really calls, before and afterwards.
- `AiPreserve`, `AiLegacySave`, `AiLegacyAnswers`, `AiFallbacks`, `AiConfigFile`, `AiFileAnswers`, `AiLegacyInputs`,
  `AiEmptyFile`: the file as a whole. A configuration with models is saved in the new form; one without any is saved
  from its v1 fields, with the default models merged in, a model selected for each stage, and the chains on disk kept
  where they can be.
- `AdjacentEntry` and its four theorem files: selecting entry fragments inside a bounded segment.
- `ChatJobs`, `Acceptance`, `AcceptanceTheorems`, `AcceptanceAnswers`, `Convergence`: the run monitors of the per-chat
  rollout.
- `HistoryPages`: reading a paged history backwards against any server and against an honest one.
- `BackupStop`, `BackupStopAnswers`, `BackupStopRaces`: planning and applying backup stops with a reservation row
  before each submission, one call at a time and with overlapping calls.
- `ModelRouter`: trying a chain of models in one time budget, synchronously and awaiting.
- `BreakEven`: racing planners that freeze or adopt break-even targets.
- `Instructions`, `InstructionsRows`, `InstructionsTheorems`: the per-action contract of a recognised message.
- `Texts`, `Options`: ASCII strip, upper and lower; optional values.

Each operation is a method or function tied to a specification function, and what that specification does is in turn
stated over the inputs alone: which branch is taken when, what each answer means, and which input each field of a
result comes from.

Results that turned out conditional are stated with their exact condition:

- A split closer that read its row early can overwrite a row that has moved on (`SplitCloserIsAtomicIff`,
  `ScannerBeforeOwnerGoneWritesTwice`).
- An apply of the batch plan whose repair time equals leg 553's planned time cannot complete unless the leg
  already carries it (`BuiltApplyCompletesIff`, `MovedLegIsRefused`, `SampleApplyIsRefused`).
- The retry gate reads the decision, and the recovery guard can save a failed one over a settled message: the gate
  then opens again (`OverwriteReopensIff`, `OverwrittenDecisionWritesTwice`).
- Trimming a base URL is not idempotent when a space hides behind its slashes, and a save then changes which
  models are called. A file without models is saved from its v1 fields, which installs the defaults
  (`SaveKeepsEveryRouteIff`, `SaveIsAFixpointIff`, `HiddenSpaceLosesTheEndpoint`, `EmptyFileGetsTheDefaults`).
- A message is written at most once exactly under three conditions (`PolicyIsSafeIff`), and the rows show every
  write exactly under the first of them (`FenceIff`).
- The migration is documented as idempotent on its own v1 view; the code is so exactly under `HeadsServe` and
  `MimoStays` (`MigrateAgainIsSameIff`, `UnconfiguredHeadIsLost`, `RepairMakesMimo`). Model ids can collide
  (`ModelIdsDistinctIff`, `SpelledOutCollides`, `ThirdRepeatCollides`).
- A v1-shaped save is documented to keep configured fallbacks; it drops those of a stage whose stored chain is not
  led by the model it selects (`FallbacksSurviveIff`, `ShelvedChainIsReplaced`). After a save of the new form that
  takes a head whose entry a default replaces (`MirrorFallbacksSurviveIff`, `SavedFallbacksSurvive`).
- The partial unique index on backup stops leaves out rows that wait for their read-back, and only an index without
  such a gap is safe (`StoredIndexAllowsTwoOrders`, `IndexIsSafeIff`): with the stored one, one submission per
  position is a property of calls made one at a time.
- Two live legs with one position make the first break-even insert fail although nothing was planned; a database
  with its position index cannot hold them (`FirstInsertPlansIff`, `IndexRulesOutTheConflict`,
  `LegacyPositionsConflict`).
- A take profit of spaces only is kept as an empty text once and dropped the second time (`NormalRowAgainIff`,
  `SpacesBecomeNull`).

Fingerprints are modelled as the values they are computed from, decimals and clocks as real numbers, timestamps as
integers, and strings as ASCII. Clients, clocks, attempts and the tables of other components are parameters.

## Model

| member | source | states |
|---|---|---|
| AttemptStore.ExecutionStore.ClaimAttempt | src/telegram_kol_research/authoritative_execution_attempts.py:111-180 | which of the five answers each request gets, and that only a granted one changes anything: the decision starts to run and one claimed row is inserted, field by field |
| AttemptStore.ExecutionStore.HeartbeatAttempt | src/telegram_kol_research/authoritative_execution_attempts.py:183-211 | extends the lease of an active row held by the same token, and only that |
| AttemptStore.ExecutionStore.MarkSideEffectStarted | src/telegram_kol_research/authoritative_execution_attempts.py:214-245 | moves exactly the named row from claimed to executing, with its start time, while its generation runs |
| AttemptStore.ExecutionStore.RecordOutcome | src/telegram_kol_research/authoritative_execution_attempts.py:248-298 | stores the automation outcome and the exchange effect once, refusing an unknown effect and a started effect on a row that never started |
| AttemptStore.ExecutionStore.RecordDeterministicRefusal | src/telegram_kol_research/authoritative_execution_attempts.py:301-369 | closes a running generation as a proved refusal, needing evidence, both rows or none |
| AttemptStore.ExecutionStore.FailSafeAttempt | src/telegram_kol_research/authoritative_execution_attempts.py:372-422 | closes a generation before its side effect, both rows or none |
| AttemptStore.ExecutionStore.RecordPreflightRefusal | src/telegram_kol_research/authoritative_execution_attempts.py:455-539 | closes an executing generation that the ledger proves wrote nothing |
| AttemptStore.ExecutionStore.MarkUncertain | src/telegram_kol_research/authoritative_execution_attempts.py:593-683 | freezes an executing generation as uncertain, both rows or none |
| AttemptStore.ExecutionStore.FinalizeRecorded | src/telegram_kol_research/authoritative_execution_attempts.py:769-837 | publishes the recorded automation of an outcome_recorded row to the decision, both rows or none |
| AttemptStore.ExecutionStore.ScannerVisit | src/telegram_kol_research/recognition_execution_scanner.py:308-437 | a visit closes exactly when the lease it saw has run out, the owner is known dead (a living or unknown one never loses its attempt), the row was not uncertain, and the stored row still has the token and stands where that closer needs it under a running generation; claimed then becomes failed_safe, outcome_recorded succeeded and anything else uncertain, both rows field by field; otherwise nothing changes |
| LeasedRunner.Observe | src/telegram_kol_research/authoritative_recognition.py:2990-3076 | over the answers of the calls: the adapter is called exactly when apply reports nothing, the barrier is open, there is no terminal no-op, a candidate exists and an executor is configured; every other branch, in the order of the code, ends with its own outcome and changes no row |
| LeasedRunner.Settle | src/telegram_kol_research/authoritative_recognition.py:3077-3187 | for each observed outcome, the closing operation, both rows it leaves and the exit: a refusal with evidence, an unknown outcome by the ledger's answer, and every other outcome published as it is |
| LeasedRunner.RunLeased | src/telegram_kol_research/authoritative_recognition.py:2978-3256 | over the answers of the calls: when the adapter is called, and the final attempt status, effect and published automation of every branch, in the order of the code (abandoned, blocked, deferred, three kinds of skipped, not configured, frozen, refused, closed_no_write, succeeded); no lost compare-and-set is reachable and the handler classifies all it sees |
| LeaseRows.GateIs | src/telegram_kol_research/authoritative_recognition.py:2725-2881 | the newest attempt decides: blocked, finalize first, already done while the decision shows its outcome, or proceed, each exactly under its own condition |
| LeaseRows.GateIsOpen | src/telegram_kol_research/authoritative_recognition.py:2725-2881 | a message without attempts goes on |
| LeaseRows.SavesAre | src/telegram_kol_research/recognition_decisions.py:68-260 | a save leaves a running or frozen decision and every attempt alone; otherwise what a pending and a terminal save store, review columns included |
| LeaseRetry.GateProceedsIff | src/telegram_kol_research/authoritative_recognition.py:2725-2881 | in the states reached by automatic retries the gate lets a call through exactly when every attempt of the message is failed_safe |
| LeaseCoupling.RunningExactlyWhileOneActive | src/telegram_kol_research/authoritative_execution_attempts.py:128-174 | in every reachable state, any interleaving with split closers, a decision runs a generation exactly when one attempt of it is active, and that attempt is unique |
| LeaseCoupling.TerminalForever | src/telegram_kol_research/authoritative_execution_attempts.py:614-663 | no step of any later run changes a terminal attempt row |
| LeaseCoupling.AtMostOneCloserPerGeneration | src/telegram_kol_research/authoritative_execution_attempts.py:328-369 | whatever the interleaving of the closers' reads and writes, at most one closer ever wins a generation and it closed that generation's row |
| LeaseCoupling.StaleCloserMissesLaterGeneration | src/telegram_kol_research/authoritative_execution_attempts.py:488-529 | a write with a stale read changes nothing unless its own generation still runs, and never another generation or row |
| LeaseFence.FailSafeNeverMeetsTheAdapter | src/telegram_kol_research/authoritative_recognition.py:3062-3071 | no attempt whose adapter was called is ever closed by the fail-safe, in either order, in any run: with scanners that close in one step at any time, owner alive or not, and split ones that wait until the owner is gone |
| LeaseTimes.RowsTellTheTruth | src/telegram_kol_research/authoritative_execution_attempts.py:223-245 | under any interleaving and any scanner, split ones at any time included: claimed rows have no start time, executing and uncertain rows do, and exactly the uncertain ones have an unknown outcome |
| LeaseFence.WrittenRowsTellTheTruth | src/telegram_kol_research/authoritative_execution_attempts.py:223-245 | a row behind which the venue was written has a start time and is never claimed, failed_safe, closed_no_write or not_started, with one-step scanners at any time |
| LeaseFence.SplitCloserIsAtomicIff | src/telegram_kol_research/authoritative_execution_attempts.py:383-422 | a split closer has the effect of the atomic one exactly when it loses the decision row or the row it read still passes its guard (and, finalizing, still carries the automation it read) |
| LeaseRetry.AtMostOneGenerationTakesEffect | src/telegram_kol_research/authoritative_recognition.py:2725-2881 | over any run of a message with automatic retries, crashes and scanners of both granularities, in which no succeeded attempt's decision is overwritten, at most one generation ends with a decisive effect or ever reached the venue |
| LeaseRetry.AtomicScannersLeaveOneEffect | src/telegram_kol_research/recognition_execution_scanner.py:308-437 | the same with scanners that close in one step under the attempt's token whenever they like, with nothing assumed of the owner |
| LeaseRetry.OverwriteReopensIff | src/telegram_kol_research/telegram_live_listener.py:775-838 | saving another decision over a message changes the gate's answer exactly when its newest attempt succeeded and the new decision no longer shows that outcome; the gate then answers proceed |
| LeaseRetry.EarlierAttemptsFailedSafe | src/telegram_kol_research/authoritative_recognition.py:2465-2467 | in the same runs every attempt but the newest is failed_safe with nothing started |
| LeaseRetry.SettledNeverRunsAgain | src/telegram_kol_research/authoritative_recognition.py:2551-2722 | in the same runs, once an attempt is succeeded, uncertain or closed its message is never run again: the row stays newest and unchanged, and only the owner of that very attempt, frozen between boundary and call, may still enter the adapter |
| LeaseWitness.ScannerBeforeOwnerGoneWritesTwice | src/telegram_kol_research/authoritative_execution_attempts.py:383-422 | a concrete run in which a scanner reads before the owner is gone and two generations write: the liveness condition cannot be dropped |
| LeaseWitness.ManualCallWritesTwice | src/telegram_kol_research/authoritative_recognition.py:2551-2722 | a concrete run in which a manual call skips the gate and a message is written twice: the automatic-only condition cannot be dropped |
| LeaseWitness.OverwrittenDecisionWritesTwice | src/telegram_kol_research/telegram_live_listener.py:775-838 | a concrete run in which the recovery guard overwrites a settled decision and the next automatic call writes a second time: the third condition cannot be dropped |
| LeasePolicy.PolicyIsSafeIff | src/telegram_kol_research/authoritative_recognition.py:2725-2881 | no run ever lets two generations of a message take effect exactly when split scanners wait for the owner to go, retries pass the gate and no succeeded attempt's decision is overwritten |
| LeasePolicy.FenceIff | src/telegram_kol_research/authoritative_execution_attempts.py:383-422 | in every run the rows show each write (start time, no no-write status or effect) exactly when split scanners wait for the owner to go; manual calls, overwrites and one-step scanners do not matter |
| LeasePolicy.RunWithin | src/telegram_kol_research/recognition_execution_scanner.py:308-437 | a run of a stricter policy is a run of every laxer one, to the same state |
| Terminalization.Database.MutatePlan | src/telegram_kol_research/batch150_management_terminalization.py:554-633 | the transactional call equals its specification in outcome and in every row, and rolls back on every refusal; what each outcome means is in the five rows of TerminalizationAnswers |
| Terminalization.Database.UpdateRows | src/telegram_kol_research/batch150_management_terminalization.py:681-708 | the compare-and-set loop reaches the specified rows or stops |
| TerminalizationAnswers.AlreadyIff | src/telegram_kol_research/batch150_management_terminalization.py:589-599 | the call is taken for already done exactly when the integrity check and the counts hold, every row shows its target under the policy and the target set is the closing one with nothing in motion |
| TerminalizationAnswers.DoneIff | src/telegram_kol_research/batch150_management_terminalization.py:554-633 | it completes exactly when both integrity checks hold, it starts, every update changes its one row, every row then equals its target in every column and the target set has moved |
| TerminalizationAnswers.RefusalsIff | src/telegram_kol_research/batch150_management_terminalization.py:569-630 | quick_check_failed, table_counts_changed, database_state_mixed, cas_rowcount_changed and postcondition_failed, each exactly under its own condition on the stored rows; a mixed state is one at neither image |
| TerminalizationAnswers.TargetRefusalsIff | src/telegram_kol_research/batch150_management_terminalization.py:643-662 | target_set_changed and management_window_not_quiet, each exactly when the set or the window is wrong at the point where it is asked: batch 150 alone to recover, the five moving statuses absent |
| TerminalizationAnswers.ImageIff | src/telegram_kol_research/batch150_management_terminalization.py:665-678 | a row is readable and equal to an image under the policy exactly when it has every column of the action and the compared ones hold the image's values |
| Terminalization.CasUpdateIs | src/telegram_kol_research/batch150_management_terminalization.py:681-708 | when the row equals the before-image up to ignored columns the update succeeds and changes exactly that row's changed columns |
| Terminalization.HitsOwnRow | src/telegram_kol_research/batch150_management_terminalization.py:681-708 | the WHERE clause of an action can only ever hit the row of its own key |
| Terminalization.MatchesIffEqual | src/telegram_kol_research/batch150_management_terminalization.py:719-739 | a row matches the generated WHERE clause exactly when it equals the before-image under the policy |
| TerminalizationTheorems.OpeningChecksDecide | src/telegram_kol_research/batch150_management_terminalization.py:569-631 | once the opening checks pass, a call with sound integrity checks completes exactly when every ignored column is written or already right; no rowcount, count or target-set refusal is reachable |
| TerminalizationTheorems.AllOrNothing | src/telegram_kol_research/batch150_management_terminalization.py:554-633 | a call leaves the database unchanged, or every action row exactly at its target, every other row untouched and the target set moved |
| TerminalizationTheorems.SecondCallIsAlready | src/telegram_kol_research/batch150_management_terminalization.py:589-599 | repeating a completed call answers already and changes nothing |
| TerminalizationTheorems.ApplyThenRollbackRestores | src/telegram_kol_research/batch150_management_terminalization.py:511-551 | apply then rollback restores every action row to its before-image and everything else exactly, up to ignored columns |
| TerminalizationTheorems.RollbackScriptAgrees | src/telegram_kol_research/batch150_management_terminalization.py:370-403 | the rendered SQL script has, on any database, exactly the row effect of the engine's reversed updates, failing when they fail |
| TerminalizationTheorems.RollbackScriptAfterApply | src/telegram_kol_research/batch150_management_terminalization.py:370-403 | after an apply the script leaves what the engine's rollback leaves |
| TerminalizationTheorems.TargetSetMoves | src/telegram_kol_research/batch150_management_terminalization.py:643-662 | settling the batch row closes the target set, and rolling it back reopens it to exactly batch 150 |
| Batch150.BuiltPlanIsWellFormed | src/telegram_kol_research/batch150_management_terminalization.py:742-963 | the built plan has eight actions with distinct keys, each changing its status column and none comparing away its id |
| Batch150.BuiltApplyCompletesIff | src/telegram_kol_research/batch150_management_terminalization.py:871-949 | an opened apply of the built plan completes exactly when the repair time differs from leg 553's planned time or the leg already carries it |
| Batch150Input.MovedLegIsRefused | src/telegram_kol_research/batch150_management_terminalization.py:604-612 | for any plan built at the very time leg 553 was last updated, moving that column before the apply leaves every opening check passing and the apply refused with postcondition_failed, nothing changed |
| Batch150Input.SampleApplyIsRefused | src/telegram_kol_research/batch150_management_terminalization.py:742-963 | a concrete database in the repair's shape, its built plan, and an opened apply that is refused |
| Batch150.BuiltRoundTrip | src/telegram_kol_research/batch150_management_terminalization.py:719-739 | apply, repeated apply and rollback of the built plan: done, already, done, and only leg 553's updated_at may differ from the start |
| AiConfig.NormalizeProviders | src/telegram_kol_research/ai_recognition_config.py:606-621 | the loop refines the normalisation of providers, in order, with its errors; item by item in AiNormal.ProvidersExactly |
| AiConfig.NormalizeModels | src/telegram_kol_research/ai_recognition_config.py:622-656 | the loop refines the normalisation of models against the kept providers; item by item in AiNormal.ModelsExactly |
| AiConfig.NormalizeStages | src/telegram_kol_research/ai_recognition_config.py:659-704 | the loop refines the normalisation of every stage chain of the catalogue; member by member in AiNormal.ChainExactly |
| AiConfig.ResolveStageModels | src/telegram_kol_research/ai_recognition_config.py:506-548 | the loop with its seen set computes the models a stage can call; which those are is AiResolve.ResolvedExactly |
| AiResolve.ResolvedExactly | src/telegram_kol_research/ai_recognition_config.py:486-548 | a stage calls a bound model exactly when an id of its chain names the last model of that id, model and last provider are enabled, the model has the stage's modalities, endpoint and name are not blank, and every field is theirs; each once, in the order the chain first names them |
| AiNormal.NormalExactly | src/telegram_kol_research/ai_recognition_config.py:584-712 | a whole structure: providers, models against the kept providers, and exactly five stages against the kept models |
| AiNormal.ProvidersExactly | src/telegram_kol_research/ai_recognition_config.py:606-621 | each raw provider is kept, field by field, or dropped with its problem, by its own id and the ids before it; order kept |
| AiNormal.ModelsExactly | src/telegram_kol_research/ai_recognition_config.py:622-656 | each raw model is kept, field by field, or dropped with its problem, by its id, the earlier models that took it, and its provider; order kept |
| AiNormal.ChainExactly | src/telegram_kol_research/ai_recognition_config.py:659-704 | each raw chain member is kept at its first place, reported when it cannot serve the stage, or passed over when blank, repeated or unknown; order kept |
| AiNormal.TrimUrlIs | src/telegram_kol_research/ai_recognition_config.py:551-552 | a trimmed URL is the stripped one without its closing slashes |
| AiConfig.TrimUrlIdempotentIff | src/telegram_kol_research/ai_recognition_config.py:551-552 | trimming a base URL twice is trimming it once exactly when no space hides behind the closing slashes |
| AiConfigSave.PromoteHeads | src/telegram_kol_research/ai_recognition_config.py:1125-1159 | the loop over the legacy fields refines the three promotions; what each does to its chain is AiLegacyAnswers.HeadsArePromoted |
| AiLegacyAnswers.HeadsArePromoted | src/telegram_kol_research/ai_recognition_config.py:1125-1159 | each v1 head that names a model fitting its stage stands in front of the stage's chain, the others behind it in their order; every other chain stays |
| AiConfigSave.NormalIsShaped | src/telegram_kol_research/ai_recognition_config.py:584-712 | whatever the file, normalisation leaves distinct valid ids, known providers, and duplicate-free chains of models that can serve their stage |
| AiConfigSave.NormalAgain | src/telegram_kol_research/ai_recognition_config.py:584-712 | normalising a normalised structure raises nothing and can only trim base URLs further |
| AiConfigSave.NormalAgainIsSameIff | src/telegram_kol_research/ai_recognition_config.py:551-566 | ... and changes nothing exactly when every base URL is trimmed already |
| AiConfigSave.PromotionKeepsRoutes | src/telegram_kol_research/ai_recognition_config.py:1130-1159 | promoting the first routable model reorders the stored chain past disabled members but not the models that are called |
| AiConfigSave.HiddenSpaceLosesTheEndpoint | src/telegram_kol_research/ai_recognition_config.py:552 | a concrete URL that one trim keeps configured and a second trim empties |
| AiConfigFile.SaveKeepsEveryRouteIff | src/telegram_kol_research/ai_recognition_config.py:1204-1224 | saving a just-loaded file, in the form its models call for, never raises, and keeps the models and what every stage calls exactly when there are models and the URLs they are called with are trimmed |
| AiConfigFile.SaveIsAFixpointIff | src/telegram_kol_research/ai_recognition_config.py:1204-1248 | with no hidden space in the file's URLs, one load and save reaches a fixpoint (providers, models and heads kept, loading or saving again changes nothing, v1 mirror included) exactly when a model of the file survives |
| AiFileAnswers.SaveIs | src/telegram_kol_research/ai_recognition_config.py:1343-1374 | which form a save takes, when it raises, and what the saved structure and its v1 mirror are made of: the normalised providers and models, and the normalised chains with the v1 heads promoted |
| AiFileAnswers.LoadIs | src/telegram_kol_research/ai_recognition_config.py:1069-1122 | loading normalises the structure whatever its problems, and mirrors it |
| AiFileAnswers.ViewMirrors | src/telegram_kol_research/ai_recognition_config.py:855-889 | the v1 mirror: the list, the id and endpoint of the first model each legacy stage calls, or nothing and the given endpoint |
| AiFileAnswers.ViewIs | src/telegram_kol_research/ai_recognition_config.py:873-877 | the mirrored list: each model with a provider adds its entry, joined with the last provider of its id, in the order of the models |
| AiEmptyFile.EmptyFileGetsTheDefaults | src/telegram_kol_research/ai_recognition_config.py:453-478 | a file without models calls nothing; loading and saving it binds four stages to the default models, which are called from then on |
| AiConfigFile.SaveLegacy | src/telegram_kol_research/ai_recognition_config.py:1269-1340 | the save of a configuration with v1 fields alone refines its specification, from the merged list to the normalised structure |
| AiLegacySave.NormalizeEntries | src/telegram_kol_research/ai_recognition_config.py:1531-1577 | the loops over the v1 list and over the defaults refine the merged list, places and overrides included |
| AiLegacySave.SelectActive | src/telegram_kol_research/ai_recognition_config.py:1606-1625 | the three loops refine the selection: the named model if it can serve, else the fallback endpoint's, else the first that can |
| AiLegacyAnswers.SelectedExactly | src/telegram_kol_research/ai_recognition_config.py:1606-1625 | the named entry if it has capability, endpoint and model name; else the first such entry on the fallback's endpoint, if it has one; else the first such entry, or none |
| AiLegacyAnswers.MergedExactly | src/telegram_kol_research/ai_recognition_config.py:1531-1577 | the merged list holds the named ids in order of first mention, then the missing defaults; under each id what was written last, tidied, or the default merged with it and with the provider that speaks for it |
| AiLegacyAnswers.SavedV1Is | src/telegram_kol_research/ai_recognition_config.py:1269-1340 | the v1 fields a v1-shaped save leaves: the merged list, the three selected ids, and the endpoints of the selected text and image entries or the given ones tidied |
| AiPreserve.PreserveStageChains | src/telegram_kol_research/ai_recognition_config.py:1162-1201 | the loop keeps the stored chain of each stage or the rebuilt one, as specified, for every stage of the table |
| AiLegacyAnswers.PreservedIs | src/telegram_kol_research/ai_recognition_config.py:1182-1200 | the chain on disk, without members that are no models any more, is kept exactly when nothing was rebuilt or when it starts with the rebuilt model and goes on behind it |
| AiFallbacks.RebuiltIs | src/telegram_kol_research/ai_recognition_config.py:789-811 | what a v1-shaped save rebuilds: the selected model for each legacy stage, nothing only when no entry can serve it; always the mimo entry for the authoritative stage; nothing for the alerts |
| AiFallbacks.FallbacksSurviveIff | src/telegram_kol_research/ai_recognition_config.py:1162-1201 | exactly when a v1-shaped save keeps a stage's whole chain, for any list and any file: the alert chain always, the authoritative one when the mimo entry leads it, a legacy one when the selected model leads it or no entry can serve |
| AiFallbacks.StoredChainIs | src/telegram_kol_research/ai_recognition_config.py:1307-1310 | the chain stored for every stage is the kept one without the members that cannot serve it any more |
| AiFallbacks.MirrorFallbacksSurviveIff | src/telegram_kol_research/ai_recognition_config.py:1269-1310 | when each stage is led by the model it calls, a save of the v1 mirror keeps a called stage's chain exactly when its head still serves after the defaults are merged in, or nothing does |
| AiLegacyInputs.SavedFallbacksSurvive | src/telegram_kol_research/ai_recognition_config.py:1130-1159 | after a save of the new form a v1-shaped save keeps the whole chain of each legacy stage that is called and whose head is not one of the defaults |
| AiLegacyInputs.ShelvedChainIsReplaced | src/telegram_kol_research/ai_recognition_config.py:1606-1625 | a text chain of two disabled models: nothing calls it, and a v1-shaped save replaces it by the first capable model of the list |
| FreshNames.FindFresh | src/telegram_kol_research/ai_stage_catalog.py:252-258 | the suffix loop ends (each pass uses up one taken id) and returns the base or the base with the least free suffix from 2 |
| FreshNames.FreshIsUnique | src/telegram_kol_research/ai_stage_catalog.py:252-258 | there is only one such name, and it is not taken |
| FreshNames.SlugifyIsValid | src/telegram_kol_research/ai_stage_catalog.py:73-81 | slugify answers any text with an id the slug rule accepts |
| FreshNames.DecimalReadsBack | src/telegram_kol_research/ai_recognition_config.py:849-852 | the suffix of a repaired id is written in decimal digits that read back as the number, without a leading zero |
| FreshNames.SlugifyIs | src/telegram_kol_research/ai_stage_catalog.py:73-81 | a text with a letter or digit becomes exactly its letters and digits in lower case, single dashes between them, neither end a dash, dot or underscore, cut at 64; any other text becomes the fallback |
| AiMigration.MigrateEntries | src/telegram_kol_research/ai_recognition_config.py:743-783 | the loop over the v1 entries refines the migration of providers and models |
| AiMigration.MigrateConfig | src/telegram_kol_research/ai_recognition_config.py:715-811 | the whole migration with its stage chains |
| AiMigrationAnswers.MigrationAdds | src/telegram_kol_research/ai_recognition_config.py:743-783 | each step of the migration: an entry without an id is passed over; any other gets a model with its own fields under its id or the least free repair of it, on the provider of its endpoint, and a new endpoint a provider named after its host |
| AiMigrationAnswers.ChainsAre | src/telegram_kol_research/ai_recognition_config.py:787-811 | the five chains of a migrated structure, each of at most one model: the first mimo entry, the heads, the context head or else the text head, nothing for the alerts |
| AiMigration.ProviderIdsDistinct | src/telegram_kol_research/ai_recognition_config.py:755-778 | whatever the entries, migrated provider ids are pairwise distinct and each endpoint has the provider that serves it |
| AiMigration.ModelIdsDistinctIff | src/telegram_kol_research/ai_recognition_config.py:834-852 | for any list, repeats included: two models share an id exactly when a valid source id repeats an earlier one or spells out an earlier repair, or when an invalid one gets a repair that a repeat of its first owner made the table forget; read off the source ids alone |
| AiMigrationRoundTrip.EndpointsArePreserved | src/telegram_kol_research/ai_recognition_config.py:743-783 | for any list, each kept entry becomes one model called with that entry's own URL, key, timeout and model name |
| AiMigrationRoundTrip.ViewOfMigration | src/telegram_kol_research/ai_recognition_config.py:855-889 | the v1 list read back off the migration of a normalised list is that list, each entry under the id its model was given; with valid ids, the very same list |
| AiMigrationRoundTrip.MigrateAgainIsSameIff | src/telegram_kol_research/ai_recognition_config.py:715-811 | for a normalised list, repaired and repeated ids included: migrating the derived view gives the same providers and models, and the same stages exactly when each named entry can serve its stage, no unknown context head hides a text head, and the repairs leave the mimo entry where it was; all read off the entries and heads |
| AiMigrationRoundTrip.HeadsServeIff | src/telegram_kol_research/ai_recognition_config.py:789-811 | each bound stage of the migrated structure can be called exactly when the entry its head names has the capability, an endpoint and a model name |
| AiMigrationRoundTrip.RepairMakesMimo | src/telegram_kol_research/ai_recognition_config.py:789-799 | an id whose repair is the mimo id: the list has no mimo entry, its view has one, so the two migrations bind the authoritative stage differently |
| AiMigrationRoundTrip.UnconfiguredHeadIsLost | src/telegram_kol_research/ai_recognition_config.py:855-889 | an entry without an endpoint that is named for the text stage: the first migration binds it and the second one drops it |
| AiMigrationRoundTrip.SpelledOutCollides | src/telegram_kol_research/ai_recognition_config.py:845-846 | for every invalid id, a later entry spelling out its repair gets the same model id |
| AiMigrationRoundTrip.ThirdRepeatCollides | src/telegram_kol_research/ai_recognition_config.py:751-754 | for every invalid id repeated three times, the third model gets the first one's id again, because the table forgot it |
| AdjacentEntry.SelectAdjacentEntryFragments | src/telegram_kol_research/adjacent_entry_assembly.py:142-281 | the segment, the filters and the scan loop compute the decision; which facts count and what the decision takes from them is in AdjacentEntryAnswers and AdjacentEntryRefusals |
| AdjacentEntryTheorems.SegmentIsExactly | src/telegram_kol_research/adjacent_entry_assembly.py:105-139 | the segment is exactly the facts up to the cutoff with no hard boundary at or between them and the strategy, in source order |
| AdjacentEntryTheorems.HiddenFactChangesNothing | src/telegram_kol_research/adjacent_entry_assembly.py:105-139 | a fact after the cutoff changes nothing, and one behind the nearest boundary changes nothing but boundary evidence |
| AdjacentEntryTheorems.PermutingFactsChangesNothing | src/telegram_kol_research/adjacent_entry_assembly.py:24-34 | with distinct source keys the order in which facts arrive changes nothing |
| AdjacentEntryReady.ReadyIff | src/telegram_kol_research/adjacent_entry_assembly.py:142-281 | a decision is ready exactly when the selected fragments agree and nothing is pending |
| AdjacentEntryReady.ReadyPromises | src/telegram_kol_research/adjacent_entry_assembly.py:172-281 | a ready decision has one agreed multiplier in (0,1], allocations empty or positive summing to exactly one, and at most three distinct positive prices, exactly those offered |
| AdjacentEntryAnswers.ReadyExactly | src/telegram_kol_research/adjacent_entry_assembly.py:142-281 | a decision is ready exactly when nothing in the segment is unresolved and the facts that count (fragments with an id, of the strategy's symbol and side up to case and outer spaces) agree on one multiplier, one list of shares and at most three prices; it then takes exactly those |
| AdjacentEntryAnswers.ReadyNames | src/telegram_kol_research/adjacent_entry_assembly.py:243-281 | a ready decision names the counting facts by their positive ids and, apart, the negative ones, in segment order, and its prices stand in the order they are first given |
| AdjacentEntryRefusals.NotReadyExactly | src/telegram_kol_research/adjacent_entry_assembly.py:155-272 | every other answer: pending with the unresolved rows, blocked by the first fact that stops the scan and for what, or blocked with the whole scan done for too many prices or two multipliers |
| AdjacentEntryAnswers.OtherFragmentChangesNothing | src/telegram_kol_research/adjacent_entry_assembly.py:91-102 | inserting a fragment of another symbol or the other side, or one without an id, changes nothing of the decision |
| AdjacentEntryAnswers.SegmentHolds | src/telegram_kol_research/adjacent_entry_assembly.py:105-139 | a fact is in the segment exactly when it is no later than the cutoff, not at the strategy's place, and none of the five boundary kinds stands at it or between it and the strategy |
| AdjacentEntryAnswers.EvidenceIs | src/telegram_kol_research/adjacent_entry_assembly.py:119-138 | the boundary evidence is every boundary before the strategy in source order, then the nearest after it |
| AdjacentEntryAnswers.SourceOrderIs | src/telegram_kol_research/adjacent_entry_assembly.py:24-34 | source order: the time, a missing one first, then the message, then the raw row |
| AdjacentEntryReady.ScanCompletesIff | src/telegram_kol_research/adjacent_entry_assembly.py:172-240 | the scan reaches its end exactly when no fragment contradicts another, and then collects exactly what was offered |
| ChatJobs.EvaluateSameChatJobs | scripts/archive/per_chat_phase7_observer.py:167-200 | the grouped evaluation refines its specification and reports nothing exactly when every chat is in order |
| ChatJobs.ViolationsIff | scripts/archive/per_chat_phase7_observer.py:167-200 | no violation exactly when each chat has at most one claimed job and it carries the id of the chat's least open (raw id, job id) |
| ChatJobs.ClaimedIsLeast | scripts/archive/per_chat_phase7_observer.py:189-196 | with distinct job ids the claimed job is the chat's least open job |
| ChatJobs.ViolationsReport | scripts/archive/per_chat_phase7_observer.py:167-200 | one report for each chat that is not in order and for no other, ascending by chat: all its claimed jobs in raw order where there are several, else the least open job and the claimed one that is not it |
| Acceptance.AcceptanceTracker.ObserveSample | scripts/archive/per_chat_phase7_observer.py:621-703 | one sample moves the tracker and answers as specified, every branch |
| Acceptance.AcceptanceTracker.FinalizeRun | scripts/archive/per_chat_phase7_observer.py:705-722 | the final verdict as specified |
| AcceptanceAnswers.SampleAnswers | scripts/archive/per_chat_phase7_observer.py:621-703 | the answer to a sample while nothing has failed: the first thing wrong with it in the order of the checks (runtime, loop health, chats, stall events, counters) with the state to fall back to, or every counter it moves |
| AcceptanceAnswers.VerdictAnswers | scripts/archive/per_chat_phase7_observer.py:705-722 | the verdict passes exactly when the minimum was met, and else fails with the fallback state |
| AcceptanceAnswers.TableHas | scripts/archive/per_chat_phase7_observer.py:762-795 | the health row that counts for a role is the last one |
| AcceptanceTheorems.PassesIff | scripts/archive/per_chat_phase7_observer.py:621-795 | a run passes exactly when no retry was exhausted, no two neighbouring samples were incomplete, every complete sample was clean, the loop counters of any two fresh readings agree, and the traffic minimum was met |
| AcceptanceTheorems.PassedRunsKeepOrder | scripts/archive/per_chat_phase7_observer.py:646-648 | in every complete sample of a passed run a claimed job is alone in its chat and the least open one |
| AcceptanceTheorems.FailureIsSticky | scripts/archive/per_chat_phase7_observer.py:622-623 | after a recorded failure every later sample and the verdict answer with that same failure |
| Convergence.ConvergenceTracker.ObserveReading | scripts/archive/per_chat_phase7_observer.py:520-550 | one reading moves the streak and answers as specified |
| Convergence.RunSamples | scripts/archive/per_chat_phase7_observer.py:847-899 | the sample loop refines its specification, reports convergence exactly when some sample completes a converged run, and failure exactly when a late sample comes first |
| Convergence.ConvergedIff | scripts/archive/per_chat_phase7_observer.py:847-899 | convergence is reported exactly when at some sample, with nothing late and no two neighbouring incomplete samples before it, the latest complete samples showed the wanted state, processes, lanes and applied limit the required number of times |
| Convergence.FailedIff | scripts/archive/per_chat_phase7_observer.py:847-899 | the loop fails exactly when a sample after the deadline comes before anything has converged and before two neighbours were incomplete |
| Convergence.JudgeIs | scripts/archive/per_chat_phase7_observer.py:520-581 | one reading: after the deadline the tracker fails, an incomplete one is passed over, one that has not arrived restarts the streak, one that has may complete it |
| HistoryPages.ReadHistory | scripts/deepcoin_trigger_lineage_lab.py:159-181 | the paging loop refines its specification for any server |
| HistoryPages.CompleteNeverRepeats | scripts/deepcoin_trigger_lineage_lab.py:166-171 | from any server a history called complete has numbered rows and repeats none |
| HistoryPages.AnyServerIsReadSo | scripts/deepcoin_trigger_lineage_lab.py:159-181 | from any server the result is the pages asked for, each below the least id of the one before; complete exactly when the last page is fresh and short or too old, and else it repeated or misnumbered a row or the pages ran out |
| HistoryPages.CompleteIsEverything | scripts/deepcoin_trigger_lineage_lab.py:159-181 | against an honest server without a window: complete exactly when the history is shorter than the pages allowed, and then it is the entire history; otherwise exactly max_pages full pages |
| HistoryPages.CompleteCoversTheWindow | scripts/deepcoin_trigger_lineage_lab.py:174-180 | with a window and times that do not increase toward older rows: the result is the newest rows, complete means every omitted row predates the window, incomplete means max_pages full pages, none of which lies between September 2001 and the window in all its rows |
| BackupStop.RepairDesk.MakePlan | src/telegram_kol_research/backup_stop_repair.py:74-256 | the planning loop refines its specification |
| BackupStop.RepairDesk.ApplyAction | src/telegram_kol_research/backup_stop_repair.py:259-427 | one apply, wherever it crashes, moves rows, tokens and submissions as specified |
| BackupStop.PlannedIff | src/telegram_kol_research/backup_stop_repair.py:94-243 | the plan holds exactly the actions of the legs that are verified, unique and safe on the exchange and for whose position nothing speaks yet |
| BackupStop.PlanSkipsReserved | src/telegram_kol_research/backup_stop_repair.py:172-216 | a plan never contains an action for a position that a stored row still speaks for |
| BackupStopAnswers.PlanOneMore | src/telegram_kol_research/backup_stop_repair.py:74-256 | how each leg extends a plan, in the order of the legs: what is remembered of it, and which of ten conflicts, the cover or the action it is reported as, each under its own condition |
| BackupStopAnswers.OneAnswer | src/telegram_kol_research/backup_stop_repair.py:110-216 | conflicts, cover and action exclude one another |
| BackupStopAnswers.ExistingIsOldest | src/telegram_kol_research/backup_stop_repair.py:463-471 | the row that speaks for a position is the oldest in one of the four blocking statuses |
| BackupStopAnswers.SelectedIff | src/telegram_kol_research/backup_stop_repair.py:283-322 | a call goes past its checks exactly when position and token are given, the token is unspent, the reviewed plan is the expected and the current one, and it names exactly one action of each |
| BackupStopAnswers.ApplyLeaves | src/telegram_kol_research/backup_stop_repair.py:323-427 | for each way a call can go, from dying after its token to a confirmed order: the rows, the token, the submission and the answer it leaves, field by field |
| BackupStop.AtMostOneSubmission | src/telegram_kol_research/backup_stop_repair.py:259-427 | over any sequence of calls with any plans, worlds and crashes, each position receives at most one submission and keeps a row that blocks the next |
| BackupStop.SubmittedIsReviewed | src/telegram_kol_research/backup_stop_repair.py:283-335 | what is submitted is the payload of the one reviewed action that was named |
| BackupStop.TokensAreSpentOnce | src/telegram_kol_research/backup_stop_repair.py:296-322 | a confirmation token that was spent refuses every later call that offers it |
| BackupStopRaces.CoveringIndexIsSafe | src/telegram_kol_research/backup_stop_repair.py:323-341 | for overlapping applies, an index over every blocking status rules out two orders for one position under any interleaving |
| BackupStopRaces.IndexIsSafeIff | src/telegram_kol_research/backup_stop_repair.py:323-341 | ... and only such an index does: with any blocking status missing, two overlapping applies send two orders |
| BackupStopRaces.StoredIndexAllowsTwoOrders | src/telegram_kol_research/models.py:2965-2971 | the stored index leaves out rows waiting for read-back, and two overlapping applies then send two orders as far as this table is concerned |
| ModelRouter.RunWithFallback | src/telegram_kol_research/ai_model_router.py:210-274 | the synchronous loop refines the shared specification |
| ModelRouter.AsyncRunWithFallback | src/telegram_kol_research/ai_model_router.py:147-207 | the awaiting form, resumed outcome by outcome, gives the same result |
| ModelRouter.AwaitingRouter.Resume | src/telegram_kol_research/ai_model_router.py:184-202 | each resumption keeps the remaining run equal to the specification |
| ModelRouter.ChainIsSplit | src/telegram_kol_research/ai_model_router.py:231-274 | every run cuts the chain exactly: the first models tried in order, each worth starting, with exactly what was left of the budget (between nothing and the whole) and reported with its own error, then the answering model with its answer, the models skipped because too little was left, a classifier stop or the end |
| ModelRouter.BudgetHolds | src/telegram_kol_research/ai_model_router.py:22-28 | if each attempt overruns its deadline by at most e, the chain takes at most the budget plus e (plus the size of a negative least time), and only the last attempt can have overrun when the least time is not negative |
| ModelRouter.FirstAlwaysRuns | src/telegram_kol_research/ai_model_router.py:226-227 | a nonempty chain always starts its first model |
| BreakEven.ConvergenceTable.PlanOrAdopt | src/telegram_kol_research/break_even_convergence_planner.py:52-266 | the planner with its two chances to adopt refines its specification |
| BreakEven.DraftsIff | src/telegram_kol_research/break_even_convergence_planner.py:94-174 | a draft succeeds exactly when the binding and its lifecycle are unique, a leg is active or partly filled with a verified attribution and a named position, and every such leg's latest observation is complete, priced and no older than the trigger |
| BreakEven.DraftFreezes | src/telegram_kol_research/break_even_convergence_planner.py:146-226 | what a draft stores: the request's key, evidence and mode, one target for each live leg with every field of its observation, the reservation rows unless disabled, and the waiting legs; live and waiting legs each stay in the order of the legs |
| BreakEven.CheckedIs | src/telegram_kol_research/break_even_convergence_planner.py:64-77 | what a request must be, which of its faults is reported first, and what is left of it |
| BreakEven.LegsAreSorted | src/telegram_kol_research/break_even_convergence_planner.py:129-144 | which legs are live and which wait, by status, attribution and position |
| BreakEven.LatestIs | src/telegram_kol_research/break_even_convergence_planner.py:147-160 | the observation that counts: of the leg, at its position, the latest, then the greatest id |
| BreakEven.DraftFailsWith | src/telegram_kol_research/break_even_convergence_planner.py:94-174 | why a draft fails, the first fault in the order of the checks; of the live legs the first unproven one decides |
| BreakEven.PickedInPlace | src/telegram_kol_research/break_even_convergence_planner.py:124-142 | cut at any leg, the picked legs are those picked before it, the leg itself if it qualifies, and those picked after it |
| BreakEven.PlannersAgree | src/telegram_kol_research/break_even_convergence_planner.py:77-92 | over any interleaving of any number of planners each trigger has at most one convergence, and all that were given one got the same frozen targets for the same evidence and mode |
| BreakEven.LateComersAreServedIff | src/telegram_kol_research/break_even_convergence_planner.py:248-266 | once planned, a planner is served exactly when its evidence and mode match, at the first read or at the insert alike, and nothing frozen changes |
| BreakEven.FirstInsertPlansIff | src/telegram_kol_research/break_even_convergence_planner.py:227-253 | an unplanned trigger whose targets can be frozen is planned, with its first status by mode, exactly when the mode is disabled or no two live legs of its binding share a position; otherwise the insert is refused and nothing is stored |
| BreakEven.IndexRulesOutTheConflict | src/telegram_kol_research/models.py:2142-2148 | while the position index holds and the legs are of one venue, no planner, alone or late, meets the reservation conflict |
| BreakEven.LegacyPositionsConflict | src/telegram_kol_research/db.py:1339-1352 | on a legacy database without that index, two live legs at one position make the first plan fail although nobody else planned it |
| Instructions.NormalizeInstructions | src/telegram_kol_research/authoritative_instructions.py:57-86 | the loops refine the normalisation, first error included |
| Instructions.AllDistinct | src/telegram_kol_research/authoritative_instructions.py:76-81 | the seen-set loop decides pairwise distinct identities |
| InstructionsTheorems.AcceptedInstructionsAre | src/telegram_kol_research/authoritative_instructions.py:57-86 | accepted instructions are at most eight, pairwise distinct, and the stable permutation of the normalised rows sorted by priority |
| InstructionsRows.RowIsAcceptedIff | src/telegram_kol_research/authoritative_instructions.py:89-131 | a row is accepted exactly when there is an instruction it stands for, in kind (older names included), confidence, strategy, targets, parameters and reason, and then as that one |
| InstructionsRows.RowFailsWith | src/telegram_kol_research/authoritative_instructions.py:89-131 | the fault a refused row is reported with, the first in the order of the contract |
| InstructionsRows.MessageIsAcceptedIff | src/telegram_kol_research/authoritative_instructions.py:57-86 | a message is accepted exactly when it has at most eight rows, each standing for an instruction, none repeating another; the answer is those instructions by place: replacements behind the rest, then holds, then entries |
| InstructionsRows.MessageFailsWith | src/telegram_kol_research/authoritative_instructions.py:57-86 | a refused message is refused for its length first, then for its first faulty row, then for a repeat |
| InstructionsTheorems.NormalRowAgainIff | src/telegram_kol_research/authoritative_instructions.py:89-131 | an accepted instruction normalises to itself exactly when no strategy field came out empty and its cut reason ends without a space; with the fields kept, nothing but the reason can differ |
| InstructionsTheorems.SpacesBecomeNull | src/telegram_kol_research/authoritative_instructions.py:201-231 | a take profit of two spaces comes out as an empty text and the second time as none |
| InstructionsTheorems.NormalizeAgainIff | src/telegram_kol_research/authoritative_instructions.py:201-231 | writing the accepted instructions back and normalising them again gives the same list exactly when each of them was kept |
| Texts.StripIsTheMiddle | src/telegram_kol_research/ai_recognition_config.py:551-552 | stripping takes the longest run of spaces off each end and touches nothing else |

## Left out

- Text bounding and secret redaction of stored reasons and evidence.
- Notification code that saves a decision's own automation values again, and incident capture. Saving other values over a decision is modelled as `Overwrite`.
- The retry gate's test that the stored decision payload and prompt versions are JSON objects, which every save writes; on other text the program's gate proceeds.
- The legacy execution path without an owner identity, and the operator closeout of uncertain attempts.
- Lease expiry inside the step system: a scanner may act at any time, which covers every expiry and heartbeat schedule.
- The message pipeline before the claim (assessment, context resolution, projection): the runner takes its results as parameters.
- Fingerprint, token and path checks around the batch plan, exchange evidence validation and the read-only evidence rows: one flag says whether they hold.
- How the rollback script is run: the model takes a failed CHECK of its guard table to end the whole script without a commit.
- Warnings, prompts, mode and YAML of the AI configuration; the `/v1` guess, the host read off a base URL and the display name of a provider are function parameters.
- Loading a file of the first schema, or none: it selects and migrates as the v1 save does, without chains on disk.
- AiMigrationRoundTrip.MigrateAgainIsSameIff: lists in which a suffix makes a repaired id longer than the 64 characters of a valid one, because their second migration repairs that id again.
- Infinite JSON numbers, whose conversion overflows: a conversion that fails answers no value.
- Unicode case and space rules, JSON encoding, decimal context rounding.
- The printed records and the database and health collection of the rollout observer.
- Request signing, HTTP and the live probes around the paged history; ids with leading zeros.
- The mutation gateway behind a backup stop submission, which has its own authority and idempotency checks: here it raises before sending, raises after sending, or answers.
- The sort of planned backup stops by position id: actions stay in leg order, which only changes the text of a fingerprint.
- Error texts of the model router (`describe`, `error_message`) and the clock's own reading cost.
- The rows built from the legacy recognition fields: the instruction contract is proved for any rows.
- The names of wrong fields in instruction errors: an error carries its kind and row number.
- HistoryPages.CompleteCoversTheWindow: rows without a usable time are not ranked against the window, because the server promises nothing about them.
