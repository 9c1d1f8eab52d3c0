# ModelFuzz-NG: verified models of its hard parts

ModelFuzz-NG runs coverage-guided fuzzing experiments against an etcd-raft cluster. This project
models the parts of it that are hardest to get right and proves what they are for, over all inputs
and all runs.

* **The crash-recoverable feedback scheduler.** `SchedulerSpec` is the coordinator loop as functions on a
  value, `Scheduler.Coordinator` is the loop itself with its variables as fields, `SchedulerInvariant` is
  the invariant every step keeps, `SchedulerRecovery` connects it with `Checkpoint.Validate` (`Lifecycle`),
  the report aggregates (`Aggregation`) and the corpus (`Corpora`). `ExperimentStore` puts the loop, two
  append-only journals and one atomically replaced checkpoint into one system in which the process may
  die at any point, also in the middle of a write; `Journal` is the same recovery on bytes. What the loop's
  state and its journals mean is told apart from how they are computed: `Admission` says when an execution
  is kept, `LaunchOrder` who runs in which turn, `Lineage` who descends from whom, `ReportMeaning` what the
  report counts, `QueueMeaning` what feeds the queue, `CheckpointMeaning` what any accepted checkpoint is good for;
  `HistoryMeaning` carries turns, descent and figures through every history.
* **The Raft mapper and its pre-check.** `AppendExpansion` proves that the single-entry model events emitted
  for a delivered append mean what the append means; `ElectionBudget` that the arithmetic bound on elections
  is safe and tight.
* **The deterministic network, the batch resolver and the runtime.** `Networks`, `Resolver`, `Traces`, `Runtimes`;
  `Executions` says what a trace tells about the execution behind it.
* **Digests, snapshots, the online oracle and the injected quorum fault.** `Snapshots`, `Oracles`, `VoteFaults`.
* **Self-contained algorithms.** `SplitMix`, `TlaTuples`, `Coverage`, `CoverageText`, `NodeLifecycle`;
  `CoverageMeaning` and `LifecycleMeaning` say which states coverage takes for the same and which plans are legal.

`Keys` and `Arithmetic` hold what the others share. Objects whose methods change their fields are classes;
each method's contract ties its new state to a specification function, and the theorems are lemmas about
those functions. `dafny verify dfyconfig.toml` checks everything.

The append receiver is the rule of section 5.3 and Figure 2 of Ongaro and Ousterhout, "In Search of an
Understandable Consensus Algorithm"; Election Safety is its section 5.2. SHA-256 is a free constructor,
so equal digests mean equal contents. What worker goroutines, the system under test and random draws do
is a parameter of each step, so every theorem holds for every schedule and every draw.

Conservation of candidates is stated against a tally the program does not keep (`SchedulerSpec.Losses`,
a ghost field of the coordinator): what the full queue evicted, what was cut from the initial population
or left in the queue at the end, and the plans discarded for want of a run index.

Three promises hold under a condition only, which is stated exactly: opening an experiment directory
fails when a committed corpus line does not fit the 16 MiB scanner buffer, though appending such a line
succeeds (`ExperimentStore.OpensWhenReadable`, `ExperimentStore.TooLongForEver`); the tuple splitter does
not know quotes (`TlaTuples.SplitInvertsPrinting`, `TlaTuples.QuotedCommaSplits`); and a snapshot from a
diverging log is noticed only at the index a node has applied (`Snapshots.InstallNoticesDivergence`).

Where the code and its comments differ, the model follows the code. Two such points are stated as lemmas:
the weakened vote quorum differs from a majority for two voters as well as from four voters on, while the
configuration's message speaks of "at least four" (`VoteFaults.FaultyQuorumIsSmaller`); and a
configuration change that was applied before would stop a node if it were delivered again right after a
snapshot (`Snapshots.RepeatedConfChange`), which is why the runs of `Snapshots.Run` hand each out once.

## Model

| member | source | states |
|---|---|---|
| ExperimentStore.ExactlyOnce | internal/experiment/runner.go:551-627 | after any sequence of events, crashes in the middle of writes and resumes included, an experiment whose runs are all completed has every run index 0..Runs-1 exactly once in runs.jsonl and exactly the corpus entries, in ID order, in corpus.jsonl |
| ExperimentStore.AlwaysRecoverable | cmd/modelfuzz-ng/experiment_store.go:106-206 | from an empty directory, whatever happens, both journals are at least as long as the checkpoint's watermarks, the checkpoint is valid, and what recovery would read is a reachable scheduler state |
| ExperimentStore.CommittedSurvives | cmd/modelfuzz-ng/experiment_store.go:152-186 | no event loses, changes or reorders a record that a checkpoint has committed, and checkpoints never commit less than before |
| ExperimentStore.RecoveryRestoresCheckpoint | cmd/modelfuzz-ng/experiment_store.go:106-150 | after any crash the opening sequence cuts both journals to exactly the committed records; it then gives back the checkpointed loop state exactly when every committed corpus line fits the scanner, and otherwise ends with an error |
| ExperimentStore.TooLongForEver | cmd/modelfuzz-ng/experiment_store.go:120-124 | once a committed corpus line is longer than the scanner allows, no later event makes the process run again |
| ExperimentStore.OpensWhenReadable | cmd/modelfuzz-ng/experiment_store.go:106-122 | opening at the checkpoint's own watermarks succeeds exactly when the committed entries are readable; it always leaves exactly the committed records, and opening again after a crash in between changes nothing more |
| ExperimentStore.BooksBalanceAlways | internal/experiment/runner.go:509-662 | in every state of every history, resumes included, every candidate ever made is completed, outstanding, queued, evicted or abandoned, and every admitted mutation, generated plan and discarded plan is accounted for against an independent tally of evictions |
| ExperimentStore.NothingElseIsLost | internal/experiment/runner.go:637-671 | only a mutation result or the final reset adds to that tally; a resumed process has the tally of its checkpoint |
| HistoryMeaning.AlwaysMeant | internal/experiment/runner.go:509-662 | in every state of every history, crashes and resumes included, candidates have been served in turn, parents and generations are right, the report counts exactly the journaled runs, and the same holds of what recovery would resume from |
| HistoryMeaning.JournalsTellTheStory | internal/experiment/runner.go:551-627 | after any history: of two journaled runs that came through the queue the one with the smaller index has the smaller candidate ID, every kept run has its entry in corpus.jsonl with its own seed, parent, depth and new states, runs are marked new exactly when nothing earlier had their digest, and the report counts those very runs |
| HistoryMeaning.NextMeant | internal/experiment/runner.go:509-662 | every single event, a crash, a torn write or an opening step included, keeps all of this |
| ExperimentStore.HistoryKeepsInv | internal/experiment/runner.go:509-662 | the system invariant holds after every history of events that starts in it |
| ExperimentStore.NextKeepsInv | internal/experiment/runner.go:551-627 | every single event, a crash or a torn write included, keeps journals, checkpoint and loop state in agreement |
| ExperimentStore.OpenKeepsInv | internal/persistence/files.go:159-212 | no opening step ever finds a journal shorter than the watermark, and each keeps the system invariant |
| ExperimentStore.WriteKeepsInv | internal/experiment/runner.go:594-620 | appending the corpus entry before the run record keeps the journals ahead of the watermark and ends in the completed state |
| ExperimentStore.SavingIsRecoverable | internal/experiment/runner.go:452-468 | the checkpoint of a reachable state commits exactly what the journals hold and can be resumed |
| ExperimentStore.LogsAreFiles | internal/persistence/files.go:159-245 | the record-level logs of the crash system abstract the byte-level files: repairing and keeping records commute with writing them out |
| ExperimentStore.ReadableIsReading | internal/persistence/files.go:123-157 | reading the bytes of a repaired corpus journal gives the texts of all its entries, and fails exactly when one of them is too long |
| ExperimentStore.Store.Open | cmd/modelfuzz-ng/experiment_store.go:106-128 | opening succeeds exactly when both journals are long enough and every kept corpus line is readable; what it leaves in the journals is stated for every outcome |
| ExperimentStore.Store.OnCorpusEntry | cmd/modelfuzz-ng/experiment_store.go:181-183 | the hook is the first Write event of a completion that retains its execution |
| ExperimentStore.Store.OnRunComplete | cmd/modelfuzz-ng/experiment_store.go:188-191 | the hook is the last Write event of a completion |
| ExperimentStore.Store.OnCheckpoint | cmd/modelfuzz-ng/experiment_store.go:171-180 | the hook is the SaveState event |
| Scheduler.Coordinator.RunFeedback | internal/experiment/runner.go:509-682 | the loop ends for every order of arrivals: canceled with a checkpoint of its last state, or with every run index journaled exactly once; every checkpoint it saved is valid |
| Scheduler.Coordinator.Step | internal/experiment/runner.go:509-662 | one pass of the loop is exactly fill, then refill, stop or receive, saves exactly the due checkpoint, and lowers the lexicographic measure |
| Scheduler.Coordinator.OnExecution | internal/experiment/runner.go:551-627 | a completion frees the slot, advances the seed threshold, judges, aggregates and journals the run as the specification says, and the state stays reachable |
| Scheduler.Coordinator.OnMutation | internal/experiment/runner.go:628-661 | a finished mutation is counted, its plans are admitted or discarded in order, and the state stays reachable |
| Scheduler.Coordinator.FillSlots | internal/experiment/runner.go:510-530 | the two launch loops compute the specified filling of the free slots: saved tasks, then due seeds, then the queue |
| Scheduler.Coordinator.LaunchCandidate | internal/experiment/runner.go:515-530 | the next run index goes to a due periodic seed, otherwise to the head of the ready queue, which leaves it; who thereby runs in which turn is `LaunchOrder.FillIsFifo` |
| LaunchOrder.FillIsFifo | internal/experiment/runner.go:509-530 | filling the slots takes a prefix of the saved tasks and a prefix of the ready queue: the new run indices go, in order, to the due periodic seeds and then to exactly that prefix, and it stops only for lack of slots, run indices or work |
| LaunchOrder.FillReadyIsFifo | internal/experiment/runner.go:515-530 | launching hands out consecutive run indices, first to due seeds under the next free candidate IDs and then to the queue from its head, and leaves everything in flight alone |
| LaunchOrder.CompleteOrder | internal/experiment/runner.go:551-616 | a completed run keeps its turn: served candidates stay ordered by ID as by run index, and everyone queued is behind them |
| LaunchOrder.AdmitOrder | internal/experiment/runner.go:637-658 | a newcomer stands behind everyone served or queued, with or without an eviction |
| Scheduler.Coordinator.AdmitPlan | internal/experiment/runner.go:637-658 | one mutated plan is discarded without budget, otherwise queued under a new ID, evicting the oldest candidate of a full queue |
| Scheduler.Coordinator.FinishExperiment | internal/experiment/runner.go:664-682 | the final reset drops queue, due seeds and mutations, keeps the state reachable and saves a valid checkpoint |
| Scheduler.Coordinator.FromCheckpoint | internal/experiment/runner.go:372-395 | the resumed variables are those of the checkpoint, with everything in flight queued for a rerun |
| Scheduler.RebuildPending | internal/experiment/runner.go:384-390 | the pending mutations are rebuilt exactly when every reference names a restored corpus entry |
| Scheduler.SelectNeverStarves | internal/experiment/runner.go:510-551 | whenever the loop waits for an event, an execution or a mutation is outstanding |
| Scheduler.ChannelsNeverBlock | internal/experiment/runner.go:411-432 | executions and mutations in transit never exceed the channel capacity Runs |
| Scheduler.FillSettles | internal/experiment/runner.go:510-530 | the launch loops stop only when the slots are full or nothing can be launched, and leave mutations and completions alone |
| Scheduler.RefillFalls | internal/experiment/runner.go:538-546 | asking for a new seed keeps the invariant and lowers the loop's measure |
| Scheduler.CompletedHistory | internal/experiment/runner.go:509-535 | when all runs are completed the run journal holds each index exactly once |
| Scheduler.ReleaseThenRecord | internal/experiment/runner.go:552-616 | freeing the slot first and recording the run afterwards is one completion; neither disturbs what the other reads |
| SchedulerInvariant.CompleteKeepsInv | internal/experiment/runner.go:551-624 | every completion keeps the whole invariant and raises the completed count by one |
| SchedulerInvariant.MutationDoneKeepsInv | internal/experiment/runner.go:628-661 | every mutation result keeps the invariant and retires exactly its own request |
| SchedulerInvariant.AdmitAllIsFifo | internal/experiment/runner.go:637-658 | of the plans the budget has room for, every one joins the tail in order with consecutive IDs and only the oldest candidates beyond the bound are gone; exactly those are tallied as evicted, and all later plans are discarded and tallied as over budget |
| QueueMeaning.AdmissionFitsTheBudget | internal/experiment/runner.go:636-658 | of a result exactly as many plans are admitted as there are unassigned run indices not already covered by the queue, or all when even a full queue leaves some over; the queue grows by them up to its bound and the peak is its largest length |
| QueueMeaning.MutationAnswered | internal/experiment/runner.go:628-661 | a mutation result retires its request and touches no run; a failure counts one error and changes nothing else, a success counts all of its plans as generated |
| QueueMeaning.StartKeepsTheNewest | internal/experiment/runner.go:397-407 | of the initial plans the latest up to the bound are queued in order under their own IDs, as seeds without parent and depth |
| QueueMeaning.RefillOnlyWhenNothingIsLeft | internal/experiment/runner.go:535-546 | after filling, another seed is asked for exactly when nothing is running, saved, queued, pending or due and runs are missing |
| SchedulerInvariant.AdmitKeepsQueue | internal/experiment/runner.go:637-658 | the queue and its peak stay within the bound, and the report's queue figures stay valid |
| SchedulerInvariant.AdmitKeepsBooks | internal/experiment/runner.go:648-658 | enqueueing a plan, with or without an eviction, keeps every candidate and every admitted mutation accounted for |
| SchedulerInvariant.AdmitKeepsCore | internal/experiment/runner.go:637-658 | admitting or discarding one plan keeps everything but the count of settled plans, which holds again after the last one |
| SchedulerInvariant.AdmitAllSettles | internal/experiment/runner.go:636-658 | every plan of a mutation result is either admitted or found no run index |
| SchedulerInvariant.BooksBalance | internal/experiment/runner.go:509-662 | in every reachable state assigned indices are completed, rerun or in flight; the next threshold is interval*(completed/interval+1); seeds due plus launched are the quota; candidate IDs handed out are completed, outstanding, queued, evicted or abandoned; admitted mutations are executed, outstanding, queued, evicted or abandoned; generated plans are admitted or over budget; discarded ones are over budget or evicted |
| SchedulerInvariant.CompleteKeepsSeeds | internal/experiment/runner.go:555-560 | a completion releases a new quota of periodic seeds exactly when it crosses the threshold |
| SchedulerInvariant.CompleteConservesSeeds | internal/experiment/runner.go:551-613 | a completed periodic seed moves from outstanding to executed, so none is lost or doubled |
| SchedulerInvariant.CompleteKeepsMutations | internal/experiment/runner.go:563-568 | completing a run keeps the candidate and mutation accounts, and more mutations were admitted than executed before |
| SchedulerInvariant.LaunchKeepsInv | internal/experiment/runner.go:515-530 | launching keeps the invariant: the new index is nobody's and candidate IDs stay distinct |
| SchedulerInvariant.FillKeepsInv | internal/experiment/runner.go:510-530 | filling the slots keeps the invariant |
| SchedulerInvariant.RefillKeepsInv | internal/experiment/runner.go:538-546 | the refill seed keeps the invariant |
| SchedulerInvariant.StartInv | internal/experiment/runner.go:360-407 | a fresh experiment starts in the invariant, whatever the initializer returns |
| SchedulerInvariant.FinishKeepsInv | internal/experiment/runner.go:664-671 | the final reset keeps the invariant and nothing is assigned any more |
| SchedulerInvariant.FinalRecordFacts | internal/experiment/runner.go:561-613 | the journaled record names its task, lists the observed states and agrees with what the corpus did |
| Lineage.RecordTells | internal/experiment/runner.go:561-613 | the journaled record has its task's index, seed, candidate, kind, parent and depth and its outcome's digests and states, and says of the corpus what the corpus decided |
| Lineage.EntryTold | internal/experiment/runner.go:568-600 | the corpus gains exactly one entry, the next, when the record says so: that of this run with its seed, parent, depth and new states; otherwise none |
| Lineage.RequestTells | internal/experiment/runner.go:600-612 | mutations are asked for exactly when an execution is kept while runs are left; their number is the product of what was semantically new, at least one, and the factor, capped at the maximum |
| Lineage.DepthCountsGenerations | internal/experiment/runner.go:644-647 | the depth of a corpus entry is the number of generations between it and the seed it descends from |
| Lineage.CompleteLineage | internal/experiment/runner.go:551-616 | a completion keeps every parent reference of queue, tasks, runs and entries right: mutations name an existing entry and are one generation younger, seeds have none |
| SchedulerInvariant.MutationCountIsCappedProduct | internal/experiment/runner.go:743-751 | the mutation count is the product capped at the maximum, without overflowing division, and never zero for a retained entry |
| SchedulerRecovery.SaveIsValid | internal/experiment/lifecycle.go:80-188 | the checkpoint saved in any reachable state passes Checkpoint.Validate |
| SchedulerRecovery.ResumeInv | internal/experiment/runner.go:372-395 | resuming any saved checkpoint with the committed journals re-establishes the invariant |
| SchedulerRecovery.ResumeIsRewound | internal/experiment/runner.go:372-395 | save followed by resume loses nothing: the same state with running tasks queued for rerun |
| SchedulerRecovery.RewoundConserves | internal/experiment/runner.go:372-395 | a resume keeps the assigned indices, the ready queue, the seed and mutation counts and the tally of lost candidates |
| SchedulerRecovery.TaskListRoundTrip | internal/experiment/runner.go:1070-1080 | the saved in-flight list rebuilds exactly the assigned tasks |
| SchedulerRecovery.PendingRoundTrip | internal/experiment/runner.go:1091-1098 | the saved mutation references rebuild exactly the pending requests |
| Lifecycle.Validate | internal/experiment/lifecycle.go:80-188 | the checking method accepts exactly the valid checkpoints |
| Lifecycle.ValidateTasks | internal/experiment/lifecycle.go:133-145 | in-flight tasks are accepted exactly when their indices are distinct, assigned, not completed and carry their own seed |
| Lifecycle.ValidatePartition | internal/experiment/lifecycle.go:149-155 | accepted exactly when every assigned index is completed or in flight and never both |
| Lifecycle.ValidatePending | internal/experiment/lifecycle.go:109-125 | accepted exactly when counts are positive and references are distinct entries of the corpus |
| CheckpointMeaning.TasksResume | internal/experiment/lifecycle.go:133-155 | any checkpoint that validates, whoever wrote it, resumes with every run index below the next either completed or to be rerun under its own seed, never both and none twice |
| CheckpointMeaning.CorpusResumes | internal/experiment/lifecycle.go:157-188 | with entries that restore, it resumes with a well-formed corpus that agrees with the report, and its pending mutations name entries of that corpus; that there are no more entries than completed runs holds exactly when the watermark says so, which validation guarantees unless the count of failed runs is negative |
| CheckpointMeaning.PendingResumes | internal/experiment/lifecycle.go:109-125 | every reference that validates comes back as a request for its entry, and there are no others |
| Aggregation.ValidateSnapshot | internal/experiment/aggregation.go:24-64 | the checking method accepts exactly the snapshots whose counters, sets and admission counts agree |
| Aggregation.SnapshotRoundTrip | internal/experiment/aggregation.go:289-297 | a consistent accumulator's snapshot is valid and restoring it gives the accumulator back |
| CheckpointMeaning.ValidSnapshotMeans | internal/experiment/aggregation.go:24-64 | a snapshot is accepted exactly when it lists everything once and the accumulator restored from it is consistent |
| Aggregation.AbsorbKeepsConsistent | internal/experiment/aggregation.go:111-230 | absorbing a new run keeps every counter of the report in agreement with the sets behind it |
| Aggregation.AdmissionBalance | internal/experiment/aggregation.go:241-273 | recording one admission keeps the per-reason counts, the totals and the number of entries in balance |
| Aggregation.Accumulator.AddRun | internal/experiment/aggregation.go:117-230 | a run is added exactly when its index is new, with the specified effect on the report |
| Aggregation.Accumulator.Classify | internal/experiment/aggregation.go:111-115 | a run is marked new per digest kind exactly when that digest was unseen |
| ReportMeaning.CompleteReport | internal/experiment/aggregation.go:111-230 | after every completion each figure of the report is a count over the journaled runs: completed, succeeded, failed, per kind, per admission reason, semantic novelty; the digest and state sets are those the runs showed |
| ReportMeaning.FlagsTold | internal/experiment/aggregation.go:111-115 | a run is marked new for a kind of digest exactly when it has one and no earlier run had it |
| Corpora.NewExactlyOnce | internal/corpus/corpus.go:171-228 | every covered key is reported new by exactly one of the calls, with repetitions, rejections and refusals in between |
| Corpora.CoverageIsUnion | internal/corpus/corpus.go:171-228 | after any sequence of calls coverage is exactly the union of the keys of all accepted inputs |
| Corpora.OrderDoesNotMatter | internal/corpus/corpus.go:171-228 | permuting the inputs leaves the same coverage |
| Corpora.RestoreInvertsCheckpoint | internal/corpus/corpus.go:338-382 | restoring a checkpoint with its entries always succeeds and gives the same corpus state back; that it makes the same decisions on all future inputs follows from that equality |
| Corpora.RollbackUndoesConsider | internal/corpus/corpus.go:245-265 | a retained Consider followed at once by RollbackLast restores the corpus |
| Corpora.ConsiderKeepsWellFormed | internal/corpus/corpus.go:171-228 | entries keep claiming disjoint, covered keys under consecutive IDs |
| Corpora.RestoreCheckpoint | internal/corpus/corpus.go:372-406 | the restoring method accepts exactly the watermarks and entries that fit together |
| Corpora.Corpus.Consider | internal/corpus/corpus.go:171-228 | the method on the mutable corpus computes the specified verdict and state; what that verdict means is `Admission.AdmissionByGrowth` |
| Admission.AdmissionByGrowth | internal/corpus/corpus.go:171-243 | an acceptable execution is kept exactly when the raw coverage grows by at least the threshold and, if asked for, one of the semantic coverages grows as well; each of the six reasons is told by which of the three coverages grew |
| Admission.DecisionsByGrowth | internal/corpus/corpus.go:171-243 | in any sequence of calls, repetitions, rejections and refusals in between, each decision and its reason is told by how much the union of everything observed so far grew |
| Admission.CorpusIsWhatWasKept | internal/corpus/corpus.go:205-228 | after any sequence of calls the corpus holds exactly the retained entries, in order |
| Admission.KeptIsTheInput | internal/corpus/corpus.go:186-228 | what is kept is the execution itself under the next ID; nothing is added otherwise |
| Admission.RefusedExactly | internal/corpus/corpus.go:171-185 | an input is refused exactly for an invalid or empty plan, a negative depth or run index, and then nothing changes |
| Admission.RestorableMeansWellFormed | internal/corpus/corpus.go:372-406 | a watermark and entries are accepted exactly when the watermark lists each key once and the corpus they describe is well formed |
| Journal.File.KeepJSONLines | internal/persistence/files.go:159-212 | succeeds exactly for 0..count records and leaves exactly the first ones; otherwise only the partial tail is gone, or nothing for a negative count |
| Journal.File.RepairPartialLine | internal/persistence/files.go:214-245 | the chunked backward scan cuts exactly after the last newline |
| Journal.KeepsCompleteRecords | internal/persistence/files.go:159-212 | whatever records were appended and whatever partial line follows, the first k survive byte for byte, and keeping them again changes nothing |
| Journal.EveryFileSplits | internal/persistence/files.go:214-245 | every file is the encoding of its complete records followed by a tail without newline |
| Journal.SplitIsUnique | internal/persistence/files.go:125-157 | that decomposition is unique: reading back what was appended gives the records |
| Journal.File.ReadJSONLines | internal/persistence/files.go:123-157 | reading succeeds exactly when every line fits the 16 MiB scanner buffer and the number of values is the expected one, and returns the values in order |
| Journal.File.ReadLastJSONLine | internal/persistence/files.go:98-121 | fails exactly on a line too long for the scanner, otherwise gives the last value, if there is one |
| Journal.CommittedReadBack | internal/persistence/files.go:125-157 | a journal of JSON texts reads back as those texts, and is readable exactly when none of them is too long |
| Journal.FitsMeans | internal/persistence/files.go:135-137 | the scanner takes a file exactly when each record and the tail leave room for a newline in its buffer |
| AppendExpansion.ExpansionPreservesMeaning | internal/model/raft/mapper.go:312-377 | for every receiver, every message and every reply flag that fits what the receiver did (any flag at all for a stale message), running the emitted events in the model ends in the same term, role, log and commit index as the implementation |
| AppendExpansion.SinglesMeanTheBatch | internal/model/raft/mapper.go:361-377 | an accepted batch delivered entry by entry is accepted throughout and ends where the atomic append ends |
| AppendExpansion.CutBatchChangesNoLog | internal/model/raft/mapper.go:343-359 | a rejected or unanswered batch is cut to its first entry, and model and implementation both leave log and commit index unchanged |
| AppendExpansion.ExpandingARejectionIsWrong | internal/model/raft/mapper.go:354-359 | expanding a rejected batch instead would change the model's log |
| AppendExpansion.ExpansionInBounds | internal/model/raft/mapper.go:405-437 | every emitted event stays within the model's bounds and carries at most one entry |
| AppendExpansion.ExpansionKeepsTheSender | internal/model/raft/mapper.go:312-374 | every event comes from the same leader to the same node in the same term; one behind the commit index becomes a single empty append carrying that index, otherwise the leader's commit stays and the entries are the batch's own in order, all of them unless it was rejected or unanswered |
| AppendExpansion.MapAppend | internal/model/raft/mapper.go:312-403 | the mapping succeeds exactly within the bounds and with readable reply metadata, and emits the specified events for the first reply found, without wrap-around in 64-bit arithmetic |
| AppendExpansion.AppendResponse | internal/model/raft/mapper.go:388-403 | the flag is that of the first matching reply among the effects; nothing is found exactly when none matches |
| AppendExpansion.NormalizeEntries | internal/model/raft/mapper.go:439-486 | entries are accepted exactly when all are modelled, and projected in order |
| ElectionBudget.FiresAtMost | internal/model/raft/profile.go:188-204 | no sequence of randomized timeouts, each at least the election timeout, causes more elections than the formula |
| ElectionBudget.FiresExactly | internal/model/raft/profile.go:188-204 | with the shortest timeouts and no winner the formula is reached |
| ElectionBudget.BudgetIsExact | internal/model/raft/profile.go:37-65 | the pre-check accepts a node exactly when no draw of timeouts can take it past LargestTerm |
| ElectionBudget.AcceptedStaysInBounds | internal/model/raft/mapper.go:147-167 | after an accepted jump the term is within LargestTerm and the mapper accepts each timeout of it |
| ElectionBudget.AdvanceIsExact | internal/model/raft/profile.go:42-65 | from a cluster within LargestTerm, the accepted jumps are exactly those after which every node, leaders included, is within it whatever timeouts are drawn |
| ElectionBudget.ValidateAdvance | internal/model/raft/profile.go:37-65 | accepted exactly when time moves forward and every node that can time out is within budget, without wrap-around |
| ElectionBudget.MaximumElectionFires | internal/model/raft/profile.go:188-204 | computes the formula in 64-bit arithmetic and fails exactly for a zero timeout |
| Networks.RegisterKeepsOk | internal/runtime/network.go:50-82 | registering keeps IDs and link sequences strictly increasing in every queue and no ID held twice |
| Networks.RemoveKeepsOk | internal/runtime/network.go:109-126 | removing keeps the same |
| Networks.IdsNeverReused | internal/runtime/network.go:50-82 | no message ID is handed out twice and none is left out: they count up until the 64-bit space is used up, and then there are no more |
| Networks.Network.Register | internal/runtime/network.go:50-82 | registration succeeds exactly for outbound messages while IDs and sequences are left, and appends the stamped message to its link |
| Networks.Network.Remove | internal/runtime/network.go:109-126 | removal succeeds exactly when ID, link and position agree, and takes out that message only |
| Networks.Network.Duplicate | internal/runtime/network.go:128-139 | the original stays and a copy under a new ID joins the tail |
| Networks.Network.Observations | internal/runtime/network.go:142-174 | the observation lists every queued message with its position and nothing else, sorted by link and position |
| Networks.TotalStep | internal/runtime/network.go:25-31 | the total of all queues does not depend on the order the links are counted in |
| Resolver.BatchIsSound | internal/plan/resolver.go:75-157 | with whatever traffic in between, every action resolved up front resolves in its turn; deliveries and drops consume and duplicates copy, in order, exactly the messages from the plan's own start on, or the last one alone when the queue ends before it |
| Resolver.RemovalsStayInStep | internal/plan/resolver.go:118-138 | before the i-th delivery or drop exactly the first i chosen messages are gone and all other queues have only grown |
| Resolver.CopiesStayInStep | internal/plan/resolver.go:118-138 | while IDs last, action j of a duplicate batch puts the copy of the j-th chosen message behind everything queued by then, where it stays for the rest of the batch |
| Resolver.OriginalsStayInStep | internal/runtime/network.go:128-139 | before each action of a duplicate batch nothing is gone from any link and every chosen original stands where it was |
| Resolver.CopiesWhileIdsLast | internal/runtime/network.go:50-82 | a queued message can be copied exactly while message IDs and the sequences of its link last |
| Resolver.Resolve | internal/plan/resolver.go:75-157 | any listing of messages is answered from the link's messages in position order, invalid when their positions have gaps or repeat; what a plan then selects is `Resolver.SelectsFrom` |
| Resolver.SelectsFrom | internal/plan/resolver.go:106-157 | a plan that starts inside the queue resolves to exactly min(count, length - start) actions, action i naming message start + i and the position where it will be found then; one that starts behind the end resolves to the last message alone; the status says whether the count was met |
| Resolver.NothingResolved | internal/plan/resolver.go:75-118 | nothing is resolved exactly for a malformed plan, then for a delivery to a node not observed running, then for a queue with nothing at the start position unless clamping is on |
| Resolver.AnswerIsUnique | internal/plan/resolver.go:229-238 | the order in which messages at one position are sorted makes no difference to the answer |
| Resolver.MessagesOnLink | internal/plan/resolver.go:229-238 | exactly the messages of the link, each as often as listed, in the order of their positions |
| Runtimes.Runtime.Execute | internal/runtime/action.go:15-84 | with the capabilities known, an action is refused exactly when it is not due: no action left in the limit, a capability missing, the node not observed running (crashed for a restart), the message not at its place, the receiver not running, the time not ahead or beyond the tick limit, the queue full for a copy; stopped exactly when the adapter, a budget, the IDs, the timer effects or the observation fail it, and rejected by the trace exactly when an observation has no nodes; otherwise it extends the trace by its own valid step. The trace it keeps is `Executions.Told` and within the limits |
| Runtimes.AdmitsWhatIsDue | internal/runtime/action.go:86-171 | the budget check and the precondition check together let through exactly the actions that are due, told from the trace so far, the queues and what the nodes showed |
| Executions.StepRecorded | internal/runtime/action.go:52-84 | recording a due action keeps what the trace tells: each step suits the nodes seen before it, which are those seen after the step before; timers are natural while time advances and forced, of that node and at least one, at a forced timeout; actions, ticks and effects stay within the limits, and the counters are those of the trace |
| Executions.NothingReachesACrashedNode | internal/runtime/action.go:142-168 | in the trace of an adapter that keeps crashed nodes crashed, no step between a crash and the restart of a node delivers to it, forces its timer, hands it a request or crashes it again |
| Executions.TraceIsChronological | internal/core/trace.go:101-143 | along a valid trace neither the time of the steps nor that of their effects goes back |
| Runtimes.Runtime.ProcessAdapterEffects | internal/runtime/recorder.go:15-75 | succeeds exactly when both budgets hold, every effect honours the contract and identities last; effects are taken over unchanged but for the identity of outbound messages, and the budget subtraction never wraps |
| Runtimes.EnoughIdsToSend | internal/runtime/recorder.go:55-72 | with enough message IDs and link sequences left, registering the outbound messages of acceptable effects never fails |
| Runtimes.TakenOverWhenItFits | internal/runtime/recorder.go:15-30 | while identities last, acceptable effects are taken over exactly when neither the effect budget nor the queue bound is passed, both of which may be used up to the last place |
| Runtimes.Runtime.Advance | internal/runtime/clock.go:11-41 | time is advanced tick by tick exactly as specified, failing exactly where a tick fails or reports an unnatural timeout; the effects lie inside the interval in order of time |
| Runtimes.Runtime.ApplyAction | internal/runtime/action.go:173-252 | succeeds exactly under the specified condition; a message action moves only its own message, a copy is made at the current time, and everything sent meanwhile joins the tails |
| Runtimes.PermittedNamesOneMessage | internal/runtime/action.go:142-156 | a permitted message action names the only message with its ID anywhere in the network, and one to be delivered is for an observed running node |
| Traces.AppendKeepsValid | internal/core/trace.go:101-143 | a trace extended by a step is valid exactly when the step is well formed and continues the trace |
| Traces.Trace.Append | internal/core/trace.go:101-119 | a step is appended exactly when it is well formed and continues the trace, from version 2 on with node snapshots |
| Traces.Trace.Validate | internal/core/trace.go:121-143 | accepts exactly the valid traces of a known version with an execution ID |
| Traces.ValidateEffects | internal/core/trace.go:40-50 | comparing neighbours decides that effect times lie in the interval and never decrease |
| Snapshots.ClusterAgrees | internal/adapters/etcdraft/snapshot.go:28-204 | in every reachable state a node has digests exactly for 0..applied, any two nodes agree wherever both have one, and firstIndex-1 <= lastSnapshotIndex <= applied |
| Snapshots.RunKeepsOk | internal/adapters/etcdraft/ready.go:40-151 | agreement with the committed log holds after every run of commits, applications, snapshots, installs and restarts |
| Snapshots.EventKeepsOk | internal/adapters/etcdraft/ready.go:40-151 | no possible event ever fails, and each keeps the agreement |
| Snapshots.InstallKeepsOk | internal/adapters/etcdraft/snapshot.go:103-153 | installing another node's snapshot never fails or conflicts and leaves the digests every node has |
| Snapshots.InstallNoticesDivergence | internal/adapters/etcdraft/snapshot.go:103-153 | a snapshot of a diverging log is refused exactly when it ends at the very index the node has applied; one from further on is installed silently and replaces the digests by those of the other log |
| Snapshots.ConflictMeansDivergence | internal/adapters/etcdraft/snapshot.go:103-119 | the conflict is reported exactly when the node has a digest at the snapshot's index and the two logs differ up to there |
| Snapshots.RecordKeepsOk | internal/adapters/etcdraft/snapshot.go:28-68 | recording committed entries extends the digest chain of the log |
| Snapshots.SnapshotKeepsOk | internal/adapters/etcdraft/snapshot.go:155-204 | making a snapshot and compacting never fails and never compacts past the snapshot |
| Snapshots.SnapshotPolicy | internal/adapters/etcdraft/snapshot.go:155-204 | a snapshot is taken exactly when at least the threshold of entries was applied since the last, so that never that many are without one; the log then keeps the last RetainEntries entries of those it covers, or as many as it had, and the counters say what went |
| Snapshots.RecordsAfterInstall | internal/adapters/etcdraft/snapshot.go:41-53 | a node restored from a snapshot can go on recording exactly when snapshots are enabled |
| Snapshots.RepeatedConfChange | internal/adapters/etcdraft/ready.go:97-146 | a configuration change applied a second time fails exactly when the last snapshot already covers everything applied |
| Snapshots.DigestDeterminesPrefix | internal/adapters/etcdraft/node.go:181-193 | two logs have the same digest at an index exactly when they agree up to it |
| Snapshots.Node.RecordCommitted | internal/adapters/etcdraft/snapshot.go:28-68 | the method computes the specified recording of one committed entry, refusing gaps and missing digests |
| Snapshots.Node.ApplyReadySnapshot | internal/adapters/etcdraft/snapshot.go:121-153 | the method computes the specified state, also where the storage refuses after the digests were replaced |
| Snapshots.Node.MaybeSnapshot | internal/adapters/etcdraft/snapshot.go:155-204 | the method computes the specified snapshot and compaction |
| Oracles.LeaderCheckIsExact | internal/oracle/raft/checker.go:73-85 | over a whole run the leader table clashes exactly when two different nodes were ever seen running as leader of one term |
| Oracles.Checker.Watch | internal/oracle/raft/checker.go:25-45 | over a run the online checker reports several leaders of a term exactly when two nodes led one, and a regression exactly when some node's term, commit or applied index went down between two observations of one epoch |
| Oracles.ConflictCheckIsExact | internal/oracle/raft/checker.go:88-115 | on the adapter's observations a conflict is reported exactly when two nodes' committed logs differ somewhere up to the smaller commit |
| Oracles.NeverIncomplete | internal/adapters/etcdraft/observation.go:65-75 | on the adapter's observations the oracle never misses a digest |
| Oracles.Checker.CheckObservation | internal/oracle/raft/checker.go:47-117 | each finding, with the node it names, is raised exactly when its fault is in the observation: missing digest, applied beyond commit, commit beyond log, second leader of a term, conflicting committed prefixes |
| Oracles.Checker.Check | internal/oracle/raft/checker.go:30-45 | one transition reports a regression of a node exactly when it has the same ID and epoch in the earlier observation, both values are known and the value went down, and otherwise exactly the faults of the new observation |
| Oracles.RegressionsAreFalls | internal/oracle/raft/checker.go:142-167 | each of the three regression findings is raised for a node exactly when that value of the same node in the same epoch went down |
| Oracles.NothingFellMeansGrowth | internal/oracle/raft/checker.go:142-167 | in a run without regressions a node's term, commit and applied index only grow from any observation to any later one of the same epoch |
| Oracles.OwnReports | internal/oracle/raft/checker.go:66-72 | a node is reported on its own exactly when it has applied more than it committed, or committed more than its log holds |
| Oracles.LeadersAreRunning | internal/oracle/raft/checker.go:73-85 | two nodes of an observation make a leader fault exactly when both run and lead in one term |
| Oracles.LeadersRaised | internal/oracle/raft/checker.go:30-45 | from the findings alone one can tell whether leaders clash, committed logs conflict or digests are missing; regressions never hide or fake it |
| Oracles.CommittedCheckpoints | internal/adapters/etcdraft/observation.go:113-128 | exactly the non-zero commit indices of the cluster, once each |
| Oracles.CommittedPrefixDigests | internal/adapters/etcdraft/node.go:162-175 | the digests at the checkpoints up to the commit, or unavailable exactly when one is missing |
| VoteFaults.Node.DeliverVote | internal/adapters/etcdraft/fault.go:18-82 | the fault fires exactly when the faulty quorum is reached before the majority, injects exactly the missing grants from distinct silent voters and makes a leader; the two inconsistency errors are unreachable |
| VoteFaults.Node.Activate | internal/adapters/etcdraft/fault.go:49-75 | an undecided candidate can always be completed: the loop finds as many silent voters as grants are missing |
| VoteFaults.GrantCounts | internal/adapters/etcdraft/fault.go:55-73 | a grant of a silent voter adds one to the grants and takes one from the silent |
| VoteFaults.FaultyQuorumIsSmaller | internal/adapters/etcdraft/config.go:123-129 | the weakened quorum is smaller than the majority exactly for two voters and for four or more |
| SplitMix.Rand.Intn | internal/adapters/etcdraft/random.go:35-48 | from every 64-bit state the rejection loop ends; the result is the first accepted number of the stream modulo n |
| SplitMix.ReachesZero | internal/adapters/etcdraft/random.go:26-33 | from every state, adding the odd increment at most 2^64 times reaches zero, whose number is accepted |
| SplitMix.EveryResidueEquallyOften | internal/adapters/etcdraft/random.go:39-47 | each result has exactly limit/n accepted 64-bit numbers |
| SplitMix.MixIsBijective | internal/adapters/etcdraft/random.go:26-33 | the output function is one to one on 64-bit words, so every number comes from exactly one state |
| SplitMix.EveryResidueFromEquallyManyStates | internal/adapters/etcdraft/random.go:35-48 | each result is the outcome of exactly limit/n of the generator's states |
| SplitMix.LimitIsWholeBlocks | internal/adapters/etcdraft/random.go:40-41 | the accepted range is a positive multiple of n |
| TlaTuples.SplitInvertsPrinting | internal/model/raft/coverage.go:256-294 | splitting a printed tuple gives back its items, whatever texts they are, exactly when each of them is balanced: brackets add up and every comma is inside one |
| TlaTuples.PartsAreBalanced | internal/model/raft/coverage.go:256-294 | every part the splitter returns for any text is balanced |
| TlaTuples.QuotedCommaSplits | internal/model/raft/coverage.go:284-287 | a comma inside a quoted string is taken for a separator, so such an item does not come back |
| TlaTuples.SplitTLATuple | internal/model/raft/coverage.go:256-294 | the one-pass scanner with three nesting counters computes the recursive specification |
| TlaTuples.PrintedIsBalanced | internal/model/raft/coverage.go:268-287 | numbers, strings without brackets and commas, tuples, sets, records and functions print as balanced text at any nesting |
| CoverageText.NumbersReadBack | internal/model/raft/coverage.go:240-254 | a printed tuple of 64-bit numbers parses back to those numbers |
| CoverageText.RowsReadBack | internal/model/raft/coverage.go:195-222 | the printed match index matrix comes back row by row |
| CoverageText.LogReadBack | internal/model/raft/coverage.go:143-169 | the printed logs come apart into the nodes' logs and those into their entries, in order |
| CoverageText.ParseUintTuple | internal/model/raft/coverage.go:240-254 | the parsing loop computes the specified numbers, or none as soon as one part is not a 64-bit number |
| Coverage.ProjectionIgnoresTermNames | internal/model/raft/coverage.go:48-72 | the projection is unchanged by every strictly increasing renaming of terms that fixes 0 |
| Coverage.SameProjectionSameOrder | internal/model/raft/coverage.go:86-114 | states with one projection mention terms in the same places and in the same order, so only names are forgotten |
| CoverageMeaning.ProjectionIsTheShape | internal/model/raft/coverage.go:48-238 | two states have one projection exactly when they differ in nothing but the names of terms with their order kept, distances of two and more from a log's end, and votes beyond two |
| CoverageMeaning.SameRank | internal/model/raft/coverage.go:86-114 | terms mentioned in the same order get the same rank at every place |
| Coverage.TermRanks | internal/model/raft/coverage.go:86-114 | the numbering loop gives every term its rank among the positive terms, and 0 to term 0 |
| Coverage.ProjectState | internal/model/raft/coverage.go:48-72 | the loops over terms and logs compute the specified projection |
| NodeLifecycle.Policy.Next | internal/policy/random.go:97-134 | when the observation follows the policy's own actions, every plan it emits passes the mutator's validator under the same bounds; nothing is emitted exactly when no group has weight, and the draw always lands in a group |
| NodeLifecycle.Policy.Choose | internal/policy/random.go:113-133 | a draw below the total weight always selects an action of a weighted group: the one `NodeLifecycle.Picked` names |
| NodeLifecycle.EachGroupByItsWeight | internal/policy/random.go:102-133 | of all draws below the total exactly as many land in a group as it weighs, none in an empty one |
| LifecycleMeaning.CrashIsOffered | internal/policy/random.go:173-193 | a running node may be crashed exactly when another one runs, the mutator's validator would take the crash, and neither a crash nor a restart is among the latest actions of the cooldown |
| LifecycleMeaning.RestartIsOffered | internal/policy/random.go:183-186 | exactly the nodes the plan has left down may be restarted |
| NodeLifecycle.ValidateLifecycle | internal/mutation/random.go:263-305 | the counters of the loop accept exactly the plans that are legal action by action |
| LifecycleMeaning.LegalMeans | internal/mutation/random.go:263-305 | a plan is accepted exactly when every crash is of a known node that is up, with fewer than MaxCrashed down, fewer than MaxCrashEpisodes crashes before and no restart within the cooldown, and every restart is of a node that is down, all told from the plan before it |
| LifecycleMeaning.LegalBounds | internal/mutation/random.go:263-305 | at no point of an accepted plan are more than MaxCrashed nodes down or more than MaxCrashEpisodes crashes behind |
| NodeLifecycle.InsertCrashRestartPair | internal/mutation/random.go:221-249 | a success is a legal bracketing of some window; a failure means the plan is too long or no single-action window is legal for any node |
| NodeLifecycle.Mutate | internal/mutation/random.go:69-143 | the returned plans are at most as many as asked for, all legal and within the size bound, different from the parent and from each other; it fails only when no proposal was acceptable |

## Left out

- IDs such as `corpus-000012` and `candidate-000012` are the numbers behind their text; digests of plans, traces and state paths are numbers with 0 for "none".
- JSON text, HTTP, LLM and TLC clients, CLI flags, artifacts, metrics, wall clocks, event journal and floating-point ratios: reporting without a hard property.
- Hook and file calls that return errors: I/O succeeds or the process dies. The failing corpus hook saves a checkpoint between counting a run and aggregating it and is outside the checkpoint theorem.
- ExperimentStore.Store.Open: the event journal and the reading of its last record at opening are not part of the crash system; `Journal.File.ReadLastJSONLine` states on bytes when that reading fails. Run records are never read back at opening.
- Snapshots.ClusterAgrees: the nodes of a run draw their entries from one committed log of the cluster, which is what Raft guarantees and what the repository's own weakened vote quorum can break; `Snapshots.InstallNoticesDivergence` says what an installation notices when two logs differ.
- Process crashes only: what the operating system loses when the machine itself stops is not modelled.
- Goroutines, channels and mutexes appear as arrivals in any order; the worker's FIFO order of mutation requests is not used.
- The mutation request's seed is a fixed function of base seed and run index and is not carried; the saved list of pending mutations is ordered by entry instead of run index.
- Coverage timeline, corpus size distribution and per-action ratios of the report.
- The initializer's and mutator's names are fixed texts, and a failing initializer is a cancellation.
- Scheduler.Coordinator.Step: the select's choice among ready channels is a parameter.
- Heartbeats, votes, proposals and responses in the mapper: one event each, or none; mapping a heartbeat to a nil append rests on the TLA+ module, which is not part of this model.
- AppendExpansion.NormalizeEntries: parameters and entries arrive typed; missing or wrongly typed JSON is not modelled.
- ElectionBudget.ValidateAdvance: covers AdvanceTime; the other actions of the pre-check are single comparisons.
- etcd-raft's RawNode, MemoryStorage and random source: only the stated contracts (majority tally, snapshot and compaction indices, randomized timeout at least the election timeout).
- Runtimes.Runtime.Execute: context cancellation and failure records are left out; contents of messages and of semantic observations are opaque.
- Resolver.Resolve: reason texts are left out; the node and time actions resolve to one action each.
- Snapshots.Node.RestorePrefix: hex decoding of digests is left out; snapshot terms and membership are not carried.
- Oracles.Checker.ComparePrefixes: nodes are compared in the order of the observation, which the runtime sorts by ID.
- Coverage.ProjectState: works on parsed states; that tuples of numbers and logs come back from their text is in `CoverageText`, the regular expressions that pick term and value out of an entry and the textual fallback are not modelled.
- NodeLifecycle.Policy.Next: message, timeout, request and time candidates are parameters, as their bounds do not touch crashes and restarts.
- NodeLifecycle.Mutate: what the mutation operators propose is a parameter; duplicates are recognised by the plan itself instead of its digest.
- Rollback after a rejected Consider in between: the inverse is claimed only for the immediately preceding call.
