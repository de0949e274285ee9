# noti-mapper, modelled and proved in Dafny

noti-mapper is a daemon that latches notifications. Inputs (a watched folder, a mailbox) observe events; rules connect
inputs to outputs; an event from any input of a rule sets the rule's latch, and an unlatch from any of its outputs clears
it. An output should show the OR of the latches of the rules that list it. A single core thread owns the latches and a
table of pending pushes; a pool of workers applies pushes to remote ends and reports back on the core's queue.

This project models that machinery and proves what it is for. Through coalescing, backoff, in-flight suppression, late
results and reloads, an output at rest shows the OR of its latches, on a condition that is stated exactly; and after a
drain whose applies succeed every live output shows it.

`dafny verify dfyconfig.toml` checks everything.

## Layout

| file | what it holds |
|---|---|
| `Base.dfy`, `Configuration.dfy`, `Records.dfy`, `Messages.dfy` | vocabulary: names, time, tables, configurations, database rows, queue messages |
| `Rules.dfy` | the rule graph: construction from a configuration, lookups, the OR, the frame lemma |
| `Reconcile.dfy` | what one latch should be after downtime |
| `Core.dfy` | the core thread as a transition system over values, and the invariants every step keeps |
| `Storage.dfy` | the state database as a class over in-memory tables |
| `Loop.dfy` | what the core loop does with messages and timers: the steps and timers of each, rounds, convergence |
| `Engine.dfy` | the engine as a class whose handlers and loops are proved to take exactly the steps of `Core.dfy` |
| `Protocol.dfy` | core, queue, workers and remotes as one concurrent step system, and what holds over every run |
| `Refinement.dfy` | what the engine class does is a run of that system, and where the remotes are after a drain |
| `Counterexample.dfy` | runs in which an untruthful start or a missing plugin leaves an output wrong |
| `History.dfy` | whole paths of the core: latch history, trigger conservation, unlatch echoes, backoff |
| `Effects.dfy` | what every step and every message does to latches, rows, timers and updates, said outright |
| `Startup.dfy` | what startup reconciliation decides over all inputs and outputs |
| `Loader.dfy` | the configuration loader: which documents are acceptable and what they mean, and the class that decides it |
| `FileInput.dfy`, `ImapInput.dfy`, `Pairing.dfy` | the debounce, the UID cursor, and the HomeKit setup payload |

## How the pieces fit

* A core step is described point by point: the latch of each rule and the row of each output after it are functions of
  the state before it (`Core.LatchAfter`, `Core.RowAfter`). Invariants are proved once, of that relation.
* The methods of `Engine` run the source's loops over mutable fields. Each ends in exactly one such step, or in a path of
  them (`Core.Leads`), so what is proved of steps and paths holds of the code.
* The functions steps and contracts are defined with are themselves pinned down: `Effects.dfy`, and the lemmas named
  `...Means`, `...Exactly` and `...Are` elsewhere, say what they compute without using them.
* `Protocol.System` adds the dispatcher's queue, the workers, the remotes and the unhandled messages. Nothing bounds the
  number of workers, outputs, messages or steps, and timers may fire at any moment.
* `Engine.Drain` asks that every output in flight has its result queued (`Attended`). With an inline dispatcher that is
  so in every reachable state: the constructor establishes it, and `Submit`, `ReconcileInline` and `Drain` keep it.
* Answers of plugins (`catch_up`, `query`, `apply`) and the clock are parameters or arbitrary values. Time is an integer
  number of microseconds. A transaction is atomic. A loop over `sorted(...)` is a loop over an arbitrary duplicate-free
  listing, of which the sorted one is an instance.

## Boundaries found in the code

* **An output at rest can be wrong.** `_sync_output` trusts `last_applied`. A forced startup push that fails is dropped
  when the persisted `last_applied` already equals the desired state, so if that value was not truthful the remote stays
  wrong. `Protocol.QuiescentAgreement` is therefore an equivalence: an output at rest shows the OR of its latches if and
  only if its persisted value was truthful at the start or some apply to it has succeeded since.
  `Counterexample.UntruthfulStartStaysWrong` is a run that shows it. At rest includes having a plugin, because a due push
  to an output without one is dropped (`Counterexample.MissingPluginStaysWrong`).
* **A file can be reported twice in a row with the same fingerprint.** `catch_up` remembers a version older than the last
  run without reporting it; when the previous version is then restored, polls report it again
  (`FileInput.RestoredFileReportedTwice`). `FileInput.NextEventDiffersExactly` says exactly when the next event must
  differ: modifications are not reported at all, or no catch-up since was silent, or the last silent one remembered the
  same fingerprint.
* **Setup codes from 2^27 on collide.** The last field is shifted by 27 bits but masked to 31, so four bits of a longer
  code land in the flags. `Pairing.ComesBackExactly` gives the exact range, `Pairing.SameUriExactly` says exactly which
  setups share a URI, and every eight-digit code is in range.
* **A downtime flood loses mail.** `catch_up` examines only the newest messages and moves the cursor over the rest
  (`ImapInput.FloodLosesMail`). `ImapInput.EvaluatedExactly` says which messages are evaluated: all but those that were
  above the cursor, with at least the limit of UIDs above them, when some catch-up of the epoch began.

## Model

| member | source | states |
|---|---|---|
| `Protocol.QuiescentAgreement` | src/noti_mapper/engine.py:549-610 | in every run of core and workers, an output with a plugin, no pending row and no push in flight shows the OR of the latches of its rules if and only if its persisted last_applied was truthful at the start or an apply to it succeeded since |
| `Protocol.RemoteIsOrOfLatches` | src/noti_mapper/engine.py:472-501 | from truthful tables, every output at rest shows true exactly when some rule listing it is latched in the stored table |
| `Protocol.RunInvariant` | src/noti_mapper/engine.py:584-610 | every reachable state has a well-built graph, a coherent cache, table agreement once started, one outstanding push per in-flight output, and a bounded gap between last_applied and the remote |
| `Protocol.SingleOutstandingKept` | src/noti_mapper/dispatcher.py:105-158 | every step keeps: an output has exactly one push across the work queue, the workers and the unhandled results when it is in flight, and none otherwise |
| `Protocol.RemotesKnownKept` | src/noti_mapper/dispatcher.py:116-158 | every step keeps: an unlearned success is what the remote shows, a touched remote with none unlearned shows last_applied, and an untouched remote is as it was |
| `Protocol.RunInOrder` | src/noti_mapper/dispatcher.py:105-158 | however many workers run, the pushes performed for an output are those dispatched for it, in dispatch order, less at most one still open |
| `Protocol.FailedForcedPushIsDropped` | src/noti_mapper/engine.py:498-501 | a push that fails while last_applied equals the desired state leaves no row behind |
| `Counterexample.UntruthfulStartStaysWrong` | src/noti_mapper/engine.py:564-567 | for all settings and names, a run from an untruthful last_applied that ends with the output at rest, no latch set, and the remote still true |
| `Counterexample.MissingPluginStaysWrong` | src/noti_mapper/engine.py:594-596 | for all settings, names and events, a run from a truthful start in which an output without a plugin has no row and nothing in flight while its remote ignores a latched rule |
| `Refinement.HandlingIsARun` | src/noti_mapper/engine.py:300-316 | handling a queued message as the engine class does it is a run of the concurrent system |
| `Refinement.TickIsARun` | src/noti_mapper/engine.py:265-270 | a tick is a run that ends with the requests on the dispatcher's queue |
| `Refinement.ReconcileIsARun` | src/noti_mapper/engine.py:706-753 | startup reconciliation is a run that starts the system |
| `Refinement.MirroringIsARun` | src/noti_mapper/storage.py:424-479 | mirroring a configuration into the rule table is a run that changes no latch |
| `Refinement.DrainIsARun` | src/noti_mapper/engine.py:208-237 | a drain with an inline dispatcher is a run: each message handled, each timer fired, each request sent, taken, looked up, applied and reported |
| `Refinement.DrainedRemotesAgree` | src/noti_mapper/engine.py:208-237 | from any started state a run from truthful tables reaches, with every row due, a drain whose applies succeed ends with every live output of the graph showing the OR of the stored latches |
| `Core.TableAgreementKept` | src/noti_mapper/engine.py:549-610 | every step keeps, and startup or a reload establishes: each live output of the graph has a row targeting its desired state, or no row and last_applied equal to it |
| `Core.ResyncedAgrees` | src/noti_mapper/engine.py:549-582 | an output whose row a step re-synchronises agrees afterwards, whatever the row was |
| `Core.DesiredFrame` | src/noti_mapper/engine.py:320-351 | a step leaves the desired state of every output it does not re-synchronise unchanged |
| `Core.CoherenceKept` | src/noti_mapper/engine.py:933-950 | every step keeps cache and latch table equal, so desired states computed from either are the same |
| `Core.StartupForces` | src/noti_mapper/engine.py:744-746 | after startup every output of the graph is owed a push of its desired state, due at once with no attempts, whatever was applied or pending; no other row changes |
| `Core.StartupSends` | src/noti_mapper/engine.py:744-753 | so the dispatch that follows sends its desired state to every live output of the graph that is not in flight |
| `History.LatchesMatchHistory` | src/noti_mapper/engine.py:320-468 | for any sequence of events and unlatches a latch is set exactly when the last relevant operation was an event, with set_at the last event's time and cleared_at the last effective clear's |
| `History.TriggerConservation` | src/noti_mapper/engine.py:353-414 | over any path of any steps a rule's stored trigger count is its first value plus the events delivered to it, each once |
| `History.BackoffCountsFailures` | src/noti_mapper/engine.py:503-533 | while an output wants a value it does not have and pushes keep failing, its row keeps the target and counts exactly the failures, due the backoff for that count after the last; nothing in between resets it |
| `History.BackoffShape` | src/noti_mapper/engine.py:535-541 | the delay after failure k is the initial one doubled k - 1 times up to the cap; delays are positive and never shrink |
| `History.ClearedBySet` | src/noti_mapper/engine.py:418-468 | after a burst of unlatches a rule is set exactly when it was set and none of its outputs asked |
| `History.EchoOrderInsensitive` | src/noti_mapper/engine.py:418-468 | bursts from the same outputs, in any order and repetition, leave the same latches set |
| `History.ClearsAtMostOnce` | src/noti_mapper/engine.py:424-446 | once clear, a rule's record is untouched by any further unlatches |
| `History.EchoesAreNoOps` | src/noti_mapper/engine.py:418-439 | once the asking outputs' rules are clear, echoes change no latch, no stored row, no pending row, no applied value and nothing in flight |
| `Effects.EventSets` | src/noti_mapper/engine.py:353-414 | an event sets exactly the rules that list its input, with its time, one more trigger, its input as cause and its summary as detail; nothing else of any latch changes |
| `Effects.UnlatchClears` | src/noti_mapper/engine.py:418-446 | an unlatch clears exactly the set rules that list its output, now and with it as cause; nothing else of any latch changes |
| `Effects.LateAnswerSettles` | src/noti_mapper/engine.py:881-898 | a late CLEARED clears exactly the rules that list its output, dated as it says or now, keeping when, how often and why they were set; any other answer changes no latch |
| `Effects.ReloadRereads` | src/noti_mapper/engine.py:649-668 | a reload reads every latch back from the table and takes over graph and plugins |
| `Effects.NoLatchChanges` | src/noti_mapper/engine.py:472-501 | results, dispatches and mirrored configurations change no latch |
| `Effects.EventOwes` | src/noti_mapper/engine.py:341-351 | an event looks at the outputs of the rules that list its input and no other: no row if the desired state is applied, the old row if it has the desired target, else a new one due at once |
| `Effects.UnlatchOwes` | src/noti_mapper/engine.py:447-468 | the same for an unlatch that clears something, at the outputs of all rules listing its output |
| `Effects.LateAnswerOwes` | src/noti_mapper/engine.py:892-898 | the same for a late answer |
| `Effects.ReloadOwes` | src/noti_mapper/engine.py:649-675 | the same for a reload, at the outputs of the old and of the new graph |
| `Effects.SuccessRecords` | src/noti_mapper/engine.py:476-501 | a success is recorded as applied, confirmed and synchronised now, takes the output out of flight and touches no other row |
| `Effects.FailureRecords` | src/noti_mapper/engine.py:498-533 | a failure leaves a row with its count, error and time, unless the desired state is applied or has changed meanwhile |
| `Effects.DispatchActs` | src/noti_mapper/engine.py:584-610 | a due row not in flight is brought up to date, keeping count, time and error, and its output sent and put in flight, or goes when there is no plugin; no other row changes |
| `Effects.SentInOrder` | src/noti_mapper/storage.py:736-749 | requests go out by due time, and by the first character in which their names differ where those are equal |
| `Effects.UpdateMeans` | src/noti_mapper/engine.py:612-645 | an update names exactly the latched rules listing the output, sums their triggers, and gives time, cause and detail of the one set last, the first listed of several |
| `Effects.MessageSteps` | src/noti_mapper/engine.py:300-316 | handling a message is exactly the step it stands for, or nothing |
| `Effects.LogDeliversAll` | src/noti_mapper/engine.py:222-230 | handling a queue without a reload raises every trigger count by exactly the events its messages deliver to the rule |
| `Effects.SilentPluginsAreAskedAgain` | src/noti_mapper/engine.py:854-880 | a plugin that does not answer is asked again, one attempt further, 30 s doubled per attempt up to 900 s later; one that answers or is gone is not |
| `Effects.HealthIsPolled` | src/noti_mapper/engine.py:679-686 | health is polled every 30 s, and no other message sets a timer |
| `Effects.PluginsMean` | src/noti_mapper/engine.py:653-657 | a reload that brings plugins replaces them, and nothing else does |
| `Startup.StartupDecides` | src/noti_mapper/engine.py:706-753 | after startup a rule with a CLEARED output is set exactly when some downtime event of its inputs is later than every dated clear; any other exactly when it was set or had a downtime event |
| `Startup.StartupTimesCleared` | src/noti_mapper/engine.py:755-773 | for a rule with a CLEARED output cleared_at is the latest dated clear, else now if it is cleared and kept if not; set_at is the latest event if it is set and kept if not |
| `Startup.StartupTimesUncleared` | src/noti_mapper/engine.py:755-773 | for any other rule cleared_at is kept, and set_at moves forward to the latest event |
| `Startup.StartupKeeps` | src/noti_mapper/engine.py:755-773 | cause and detail are kept, and rules outside the graph are untouched |
| `Effects.StartupFromAnswers` | src/noti_mapper/engine.py:706-753 | the decision for a rule in terms of what the plugins of its own inputs and outputs answer |
| `Effects.StartupRetries` | src/noti_mapper/engine.py:798-843 | one retry, 30 s later, for exactly each input whose plugin failed and each output whose plugin does not know |
| `Effects.RetriesAreAdded` | src/noti_mapper/engine.py:284-286 | the timers there were stay where they are, followed by each retry once |
| `EngineThread.Engine.constructor` | src/noti_mapper/engine.py:100-132 | starts from the stored tables with an equal cache, nothing in flight, an empty queue and one health timer |
| `EngineThread.Engine.Submit` | src/noti_mapper/engine.py:166-168 | queues a message and changes nothing else; every output in flight still has its result queued if it had |
| `EngineThread.Engine.LatchFor` | src/noti_mapper/engine.py:933-946 | reads a latch, caching the cleared record for an unknown rule, which changes no latch |
| `EngineThread.Engine.SyncOutput` | src/noti_mapper/engine.py:549-582 | makes one row what synchronisation wants and touches no other |
| `EngineThread.Engine.SyncOutputs` | src/noti_mapper/engine.py:545-547 | does so for each named output |
| `EngineThread.Engine.ApplyTrigger` | src/noti_mapper/engine.py:353-414 | set or not, the latch becomes set with the event's time, cause and detail and one more trigger, in cache and table |
| `EngineThread.Engine.HandleInputEvent` | src/noti_mapper/engine.py:320-351 | takes the trigger step and keeps the engine valid |
| `EngineThread.Engine.HandleUnlatch` | src/noti_mapper/engine.py:418-468 | takes the unlatch step, which does nothing when no listed rule is set |
| `EngineThread.Engine.HandlePushResult` | src/noti_mapper/engine.py:472-501 | takes the result step: out of flight, applied or counted as a failure, row re-synchronised |
| `EngineThread.Engine.RecordPushFailure` | src/noti_mapper/engine.py:503-533 | writes the failure row with one more attempt and its backoff |
| `EngineThread.Engine.BuildUpdate` | src/noti_mapper/engine.py:612-645 | describes the desired state: driving rules, their triggers in all, and cause, detail and time of the one set most recently, the first listed of several |
| `EngineThread.Engine.DispatchDuePushes` | src/noti_mapper/engine.py:584-610 | takes the dispatch step: exactly the due, live outputs not in flight are sent, once each, by due time and name, with the state of this moment |
| `EngineThread.Engine.HandleReload` | src/noti_mapper/engine.py:649-675 | takes the reload step with the graph of the new configuration and its plugins, if it brings any |
| `EngineThread.Engine.ApplyReconcileOutcome` | src/noti_mapper/engine.py:755-773 | rewrites one latch, written through only when it changes |
| `EngineThread.Engine.CollectDowntimeEvents` | src/noti_mapper/engine.py:798-820 | collects exactly the answers of graph inputs with a plugin; the timers are kept and followed by one retry for each that failed |
| `EngineThread.Engine.CollectRemoteStates` | src/noti_mapper/engine.py:822-843 | collects exactly the known answers of live graph outputs; the timers are kept and followed by one retry for each UNKNOWN |
| `EngineThread.Engine.Reconcile` | src/noti_mapper/engine.py:706-753 | takes the startup step on what was collected, then the dispatch step, which sends to every live output of the graph not in flight; the timers are kept and followed by exactly the retries |
| `EngineThread.Engine.ReconcileInline` | tests/support.py:163-220 | startup with an inline dispatcher leaves table agreement and a queued result for every output in flight |
| `EngineThread.Engine.HandleReconcileRetry` | src/noti_mapper/engine.py:854-898 | settles the output's rules from its late answer, or adds another try, or drops it when the plugin is gone |
| `EngineThread.Engine.HandleCatchUpRetry` | src/noti_mapper/engine.py:900-929 | replays the missed events one trigger step each, or schedules another try |
| `EngineThread.Engine.HandleMessage` | src/noti_mapper/engine.py:300-316 | takes exactly the steps its message calls for, keeps the timers and adds exactly the ones it calls for, and changes plugins and in-flight outputs only on a reload and a result |
| `EngineThread.Engine.FireDueTimers` | src/noti_mapper/engine.py:272-282 | handles exactly the due timers, in order, each with the steps it calls for; the others stay in order, followed by what the handling adds |
| `Loop.NoTimerLost` | src/noti_mapper/engine.py:272-286 | a timer in the future stays, and a due one is handled and leaves the retry its handling calls for |
| `EngineThread.Engine.Tick` | src/noti_mapper/engine.py:265-270 | handles the due timers so, then takes the dispatch step |
| `EngineThread.Engine.HandleAll` | src/noti_mapper/engine.py:222-230 | handles the whole queue in order, each message with the steps and timers it calls for under the plugins there are by then |
| `EngineThread.Engine.Drain` | src/noti_mapper/engine.py:208-237 | with a frozen clock and positive delays settles within three rounds, each handling its whole queue and firing its due timers: empty queue, nothing in flight, no due row or timer, the cap not reached; agreeing tables stay so, and from agreeing tables with every row due, when every apply succeeds, no row is left and every live output has its desired state applied |
| `Loop.SettledPathConverges` | src/noti_mapper/engine.py:208-237 | from agreeing tables with every row due, any path of successes that leaves nothing due leaves no row and every live output with its desired state applied |
| `EngineThread.Engine.ApplyInline` | tests/support.py:190-220 | the inline dispatcher adds one result per request, in order, with the pushed value |
| `EngineThread.ResultSettles` | src/noti_mapper/engine.py:472-541 | the result of an up-to-date push leaves nothing due for its output and touches no other row |
| `EngineThread.DispatchArms` | src/noti_mapper/engine.py:584-610 | after an inline dispatch everything due is in flight with its up-to-date result queued, once |
| `EngineThread.Summarize` | src/noti_mapper/engine.py:1006-1017 | the latest downtime event across the inputs and how many there were |
| `Loop.RetryDelayDoubles` | src/noti_mapper/engine.py:861-864 | the delay starts at 30 s and doubles with every attempt until it stays at 900 s |
| `Reconcile.ResolveRule` | src/noti_mapper/reconcile.py:51-115 | computes the declarative outcome of persisted state, event and reports |
| `Reconcile.ResolveWithClear` | src/noti_mapper/reconcile.py:118-149 | the outcome when some output reports CLEARED, from the latest dated clear |
| `Reconcile.ResolvedState` | src/noti_mapper/reconcile.py:51-149 | with a clear, set exactly when the event is later than every dated clear; without, exactly when it was set or there was an event |
| `Reconcile.ResolvedTimes` | src/noti_mapper/reconcile.py:51-155 | after a clear that wins cleared_at is the latest dated clear or now, and set_at is kept; after a newer event set_at is the event and cleared_at the latest dated clear or kept; without a clear set_at is the later of event and persisted if it was set, the event if not, and kept without an event |
| `Reconcile.OrderInsensitive` | src/noti_mapper/reconcile.py:51-155 | permuting or repeating reports, and adding or removing ACTIVE or UNKNOWN ones, changes neither state nor times |
| `Reconcile.LaterEventKeepsSet` | src/noti_mapper/reconcile.py:130-149 | a later event never turns set into clear |
| `Reconcile.FurtherClearKeepsClear` | src/noti_mapper/reconcile.py:118-149 | a further clear, dated or not, never turns clear into set |
| `Rules.BuildGraph` | src/noti_mapper/rules.py:46-56 | both indices equal a scan over the rules with repeats; for clean rules they are exact and repeat nothing |
| `Rules.FromConfiguration` | src/noti_mapper/rules.py:58-92 | the graph holds exactly the enabled rules without their disabled instances, well indexed |
| `Rules.GraphRulesMean` | src/noti_mapper/rules.py:66-92 | the graph holds exactly the enabled rules, each with exactly its enabled members in their order |
| `Effects.GraphOfDocuments` | src/noti_mapper/rules.py:58-92 | the graph of loaded documents holds exactly the rules they define and do not say are disabled |
| `Rules.LookupsAreScans` | src/noti_mapper/rules.py:103-115 | lookups equal a naive scan, and an instance is indexed exactly when some rule lists it |
| `Rules.DesiredIsOr` | src/noti_mapper/rules.py:120-122 | the desired state is the OR over the latched rules listing the output |
| `Rules.OutputsAffectedBy` | src/noti_mapper/rules.py:124-132 | the union of the outputs of the named rules that exist |
| `Rules.OnlyAffectedChange` | src/noti_mapper/rules.py:120-132 | changing some latches alters only the outputs affected by them |
| `Storage.Store.SyncRules` | src/noti_mapper/storage.py:424-479 | mirrors the configuration rule by rule, the last record of a name counting, and returns the exact newly orphaned and readopted rules, each once |
| `Storage.MirroringMeans` | src/noti_mapper/storage.py:424-479 | a rule is orphaned exactly when the configuration lacks it, no rule is dropped, and no latch is altered or lost |
| `Storage.MirroredContents` | src/noti_mapper/storage.py:438-470 | a configured rule has the flag and members of its record and, if new, a cleared latch without triggers; any other keeps its flag and members |
| `Storage.LastOfIsLast` | src/noti_mapper/storage.py:438-453 | of several records of a name the last counts |
| `Storage.MirrorLifecycle` | src/noti_mapper/storage.py:424-479 | over any sequence of configurations latches are never altered or lost, foreign keys hold, and a rule is orphaned exactly when the latest configuration lacks it |
| `Storage.Store.RenameRule` | src/noti_mapper/storage.py:572-608 | renames with members and latch, or refuses an unknown or taken name and changes nothing |
| `Storage.RenameKeepsKeys` | src/noti_mapper/storage.py:591-608 | no statement of a rename leaves a child row without its rule |
| `Storage.RenameRoundTrip` | src/noti_mapper/storage.py:572-608 | renaming back restores every table except that the orphan flag is cleared |
| `Storage.RenamedMeans` | src/noti_mapper/storage.py:591-608 | a rename carries flag, latch and members over to the new name, orphaned no more, and leaves other rules alone |
| `Storage.Store.PurgeOrphans` | src/noti_mapper/storage.py:610-639 | removes exactly the orphaned rules and instances with what refers to them, and keeps the foreign keys |
| `Storage.PurgeMeans` | src/noti_mapper/storage.py:610-639 | exactly the purged rules go, with their latches and members |
| `Storage.Store.PendingPushesDue` | src/noti_mapper/storage.py:736-749 | exactly the rows due by the moment, each once, by due time and then by name |
| `Loader.ConfigLoader.Load` | src/noti_mapper/config.py:257-271 | returns a configuration exactly when the documents are acceptable, and then exactly what they mean |
| `Loader.MeaningIsWellFormed` | src/noti_mapper/config.py:545-695 | acceptable documents mean unique names under the key and rules with non-empty, duplicate-free, disjoint members of the right direction |
| `Loader.AcceptableExactly` | src/noti_mapper/config.py:257-316 | exactly which documents are accepted: all parse, known sections only, at most one daemon block, names unique under the key, and every instance and rule right |
| `Loader.InstanceExactly` | src/noti_mapper/config.py:449-512 | exactly which instance bodies are right: known keys, a known plugin, settings without problems, a boolean flag |
| `Loader.RuleExactly` | src/noti_mapper/config.py:553-695 | exactly which rule bodies are right: known keys, non-empty lists of existing instances of the right direction, none twice or in both, a boolean flag |
| `Loader.LoadedInstance` | src/noti_mapper/config.py:475-494 | an instance is loaded with its normalised name, its plugin and its directions, enabled unless it says otherwise |
| `Loader.LoadedRule` | src/noti_mapper/config.py:584-598 | a rule is loaded with its normalised name and members in order, enabled unless it says otherwise |
| `Loader.NothingElseLoaded` | src/noti_mapper/config.py:439-447 | nothing is loaded that no document defines |
| `Loader.ConfigLoader.CollectDocument` | src/noti_mapper/config.py:295-332 | adds exactly the document's entries, and an error exactly when a section, a second daemon block or a name is bad |
| `Loader.ConfigLoader.CollectNamed` | src/noti_mapper/config.py:397-435 | no error exactly when every name is valid, new under its key in its namespace across files, and has an object |
| `Loader.ConfigLoader.BuildInstance` | src/noti_mapper/config.py:449-512 | no error exactly when the body is a good instance, and then returns it |
| `Loader.ConfigLoader.BuildInstances` | src/noti_mapper/config.py:439-447 | without errors, the instances are exactly those of the entries |
| `Loader.ConfigLoader.BuildRule` | src/noti_mapper/config.py:553-598 | without errors exactly when the body is a good rule, and then returns it with its members in order |
| `Loader.ConfigLoader.BuildRules` | src/noti_mapper/config.py:545-551 | without errors, the rules are exactly those of the entries |
| `Loader.ConfigLoader.RuleMembers` | src/noti_mapper/config.py:600-633 | a missing, non-list or empty member list is an error |
| `Loader.ConfigLoader.ResolveMembers` | src/noti_mapper/config.py:635-695 | error-free exactly when the list names instances of the direction, none twice, even though a broken instance adds no error of its own |
| `FileInput.FileWatcher.PollOnce` | plugins/file_input/__init__.py:165-199 | moves every path by one poll and fires for exactly the settled ones; what stays held back is new and just observed |
| `FileInput.FileWatcher.PollPath` | plugins/file_input/__init__.py:177-195 | one path of a poll, leaving every other path alone |
| `FileInput.FileWatcher.CatchUp` | plugins/file_input/__init__.py:142-161 | remembers every new version and reports exactly those that do not predate the last run |
| `FileInput.HeldSince` | plugins/file_input/__init__.py:182-190 | what is held back was seen unchanged at every poll since the one it is timed from, with no restart since |
| `FileInput.FiresOnlyWhenSettled` | plugins/file_input/__init__.py:182-195 | an event ends an unbroken run of equal observations spanning the debounce time, at the first such poll |
| `FileInput.SettledFires` | plugins/file_input/__init__.py:182-195 | a new file seen unchanged for the debounce time is reported by then |
| `FileInput.FirstVersionIsReported` | plugins/file_input/__init__.py:228-235 | a file with nothing on record is reported once it settles, whether or not modifications are |
| `FileInput.ChangedVersionIsReported` | plugins/file_input/__init__.py:228-235 | a changed version is reported once it settles exactly when modifications are |
| `FileInput.CatchUpReports` | plugins/file_input/__init__.py:142-161 | a file with nothing on record is reported by a catch-up exactly when it does not predate the last run, and remembered anyway |
| `FileInput.NextEventDiffersExactly` | plugins/file_input/__init__.py:228-243 | over any looks and restarts, after an event the next one must have a different fingerprint if and only if modifications are not reported, or no catch-up since was silent, or the last silent one remembered the same fingerprint |
| `FileInput.ConsecutiveEventsDiffer` | plugins/file_input/__init__.py:228-243 | so consecutive events without a silent catch-up between them have different fingerprints |
| `FileInput.RestoredFileReportedTwice` | plugins/file_input/__init__.py:150-161 | for all versions, one of them older than the last run, and any poll times, the looks and the restart by which the other is reported twice in a row |
| `FileInput.AtMostOneEvent` | plugins/file_input/__init__.py:228-237 | without emit_on_modify a path has at most one event ever, counting catch-up and across restarts |
| `ImapInput.EvaluatedExactly` | plugins/imap_input/__init__.py:149-179 | in every run that ends with a live pass, a message still there above the baseline has been evaluated if and only if no catch-up of the epoch began with it above the cursor and at least the limit of UIDs above it |
| `ImapInput.ExactlyOnce` | plugins/imap_input/__init__.py:251-268 | over any run of arrivals, expunges, rebuilds, reconnections and passes no UID of an epoch is evaluated twice, none that overflowed a catch-up is evaluated, and no other between baseline and cursor is missed |
| `ImapInput.SelectBaselines` | plugins/imap_input/__init__.py:346-377 | selecting in a new epoch leaves no message above the cursor and evaluates nothing; in the same epoch it changes nothing |
| `ImapInput.BaselinedNeverEvaluated` | plugins/imap_input/__init__.py:346-377 | in every run a message that was there when its epoch was baselined is never evaluated in that epoch |
| `ImapInput.NewestAreExact` | plugins/imap_input/__init__.py:166-173 | the UIDs a limited catch-up examines are exactly those above the cursor with fewer than the limit above them |
| `ImapInput.PassedOverExactly` | plugins/imap_input/__init__.py:166-177 | the messages passed over in a run are exactly those that overflowed one of its catch-ups when it began |
| `ImapInput.FloodLosesMail` | plugins/imap_input/__init__.py:166-177 | for every limit, a mailbox with one message more and a run that never evaluates the oldest, though it is still there at a live pass |
| `ImapInput.HappeningKeepsInvariant` | plugins/imap_input/__init__.py:346-380 | every happening keeps that, and within an epoch the cursor never decreases |
| `ImapInput.FilterIsExact` | plugins/imap_input/__init__.py:260-268 | filtering the result of an N:* search, which may return a UID below N, leaves exactly the UIDs above the cursor |
| `ImapInput.ImapReader.ReconcileUidvalidity` | plugins/imap_input/__init__.py:346-377 | keeps the cursor within an epoch and baselines it on the highest UID otherwise |
| `ImapInput.ImapReader.NewUids` | plugins/imap_input/__init__.py:260-268 | exactly the UIDs above the cursor, ascending, or none without a cursor |
| `ImapInput.ImapReader.ProcessNew` | plugins/imap_input/__init__.py:251-256 | evaluates them all and moves the cursor to the greatest |
| `ImapInput.ImapReader.CatchUp` | plugins/imap_input/__init__.py:149-179 | evaluates the newest up to the limit and moves the cursor over all of them |
| `ImapInput.HighestUid` | plugins/imap_input/__init__.py:403-407 | the greatest UID of a search result, 0 for an empty one |
| `Pairing.Base36Encode` | plugins/homekit_output/pairing.py:37-46 | the loop computes the base 36 numeral, which decodes to the value and has no leading zero |
| `Pairing.BuildPayload` | plugins/homekit_output/pairing.py:58-67 | for all inputs, the shifted and or-ed payload is three fields side by side |
| `Pairing.SetupUri` | plugins/homekit_output/pairing.py:49-70 | fails exactly when int() does not read the code; otherwise builds the URI of what is carried, which reads back as that |
| `Pairing.UriCarries` | plugins/homekit_output/pairing.py:69-70 | round trip: every payload fits nine digits, and the URI reads back as category, flags, code and id |
| `Pairing.UriShape` | plugins/homekit_output/pairing.py:69-70 | a URI is the scheme, nine digits and the setup id, and in range its flags say IP |
| `Pairing.NumeralsByExample` | plugins/homekit_output/pairing.py:37-46 | numerals are base 36 with the most significant digit first |
| `Pairing.DigitsAre` | plugins/homekit_output/pairing.py:37-46 | the digits are the figures followed by the capital letters |
| `Pairing.SameUriExactly` | plugins/homekit_output/pairing.py:49-70 | for all inputs two setups have the same URI if and only if the same is carried |
| `Pairing.DistinctSetupsDistinctUris` | plugins/homekit_output/pairing.py:49-70 | in range, two setups have the same URI if and only if they are equal |
| `Pairing.ComesBackExactly` | plugins/homekit_output/pairing.py:58-67 | a setup comes back as it was if and only if the category is below 256 and the code below 2^27 |
| `Pairing.OverlongCodesCollide` | plugins/homekit_output/pairing.py:65-67 | every code in range shares its URI with the code 2^28 above it |
| `Pairing.EightDigitsFit` | plugins/homekit_output/pairing.py:56-67 | every setup code of eight digits and any dashes is read and in range |
| `Pairing.OrParts` | plugins/homekit_output/pairing.py:58-67 | or works on the high and the low part of a number separately |

## Left out

- Network and device code: HTTP servers, the IMAP connection, the HAP driver, PagerDuty payloads and systemd sockets are I/O.
- SQLite itself: write-ahead logging, per-thread connections, busy timeouts and ISO timestamp text; a transaction is atomic.
- Event log rows, the health table, heartbeat and last-seen writes, log text, error wording and the reason text of a reconcile outcome.
- Daemon lifecycle: signals, the watchdog, startup ordering and plugin discovery in src/noti_mapper/runtime.py.
- The blocking wait of `run` and `_next_timeout`: in the concurrent system a timer may fire at any moment.
- Starting and stopping the dispatcher: its workers are steps of the concurrent system rather than a class with an endless loop.
- Regular expressions, header decoding, Unicode normalisation and case folding: the uniqueness key is an arbitrary function.
- Settings validators, secrets and JSON parsing: the number of problems they report is a parameter of the loader.
- `sync_instances`: the same mirroring as `sync_rules` without latches and members.
- Sort orders of listings other than the due pushes, whose names are compared character by character and whose due times as numbers.
- Float rounding and overflow of the two backoffs: delays are exact integers.
- Remotes that change other than through apply, and a reload that puts another plugin behind a name: a name stands for one remote, and a failed apply has no effect.
- A rule that lists a member twice, which the member tables refuse: the loader never passes one, and members are sets here.
- Mail passes that overlap or raise: they are serialised, and the catch-up limit is positive as the settings demand.
- A mailbox rebuilt while a session is open, or with a smaller UIDVALIDITY: section 2.3.1.1 of RFC 3501 forbids UIDs to change within a session and makes a new UIDVALIDITY greater than the old.
- Which spellings of a setup code int() accepts: reading the code is a parameter, required to read plain digits as a decimal where that matters.
