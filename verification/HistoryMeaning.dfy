/** What the loop's state and the two journals mean, in every state of every history:
    who ran in which turn, who descends from whom, and what the report counts. */
module HistoryMeaning {
  import opened Keys
  import opened Corpora
  import opened Aggregation
  import opened Lifecycle
  import opened SchedulerSpec
  import opened SchedulerInvariant
  import opened SchedulerRecovery
  import opened Scheduler
  import opened LaunchOrder
  import opened Lineage
  import opened ReportMeaning
  import opened ExperimentStore

  ghost predicate Meant(c: Settings, s: Schedule) {
    OrderOk(s) && LineageOk(c, s) && ReportOk(s.agg, s.history)
  }

  // ---------------------------------------------------------------- the steps of the loop

  lemma StartMeant(c: Settings, plans: seq<Option<Plan>>)
    requires WellConfigured(c)
    ensures Meant(c, Start(c, plans))
  {
    hide OrderOk, LineageOk, ReportOk;
    StartOrder(c, plans);
    StartLineage(c, plans);
    StartReport(c, plans);
    StartMirrors(c, plans);
  }

  lemma FillMeant(c: Settings, s: Schedule)
    requires Inv(c, s) && Meant(c, s)
    ensures s.n.nextCandidateId >= 0 && Meant(c, Fill(c, s))
  {
    hide Inv, OrderOk, LineageOk, ReportOk, FillReady, FillRerun;
    FillOrder(c, s);
    FillLineage(c, s);
    FillReadyFrame(c, s.(q := FillRerun(c, s.q)));
  }

  lemma RefillMeant(c: Settings, s: Schedule, plan: Option<Plan>)
    requires Inv(c, s) && Meant(c, s)
    ensures s.n.nextCandidateId >= 0 && Meant(c, Refill(s, plan))
  {
    hide Core, OrderOk, LineageOk, ReportOk;
    RefillOrder(c, s, plan);
    RefillLineage(c, s, plan);
  }

  lemma CompleteMeant(c: Settings, s: Schedule, index: int, o: Outcome)
    requires Inv(c, s) && Meant(c, s) && CanComplete(c, s, index)
    ensures Meant(c, Complete(c, s, index, o))
  {
    hide Inv, OrderOk, LineageOk, ReportOk, Complete;
    CompleteOrder(c, s, index, o);
    CompleteLineage(c, s, index, o);
    CompleteReport(c, s, index, o);
  }

  lemma {:induction false} AdmitAllReport(c: Settings, s: Schedule, entry: Entry, plans: seq<Plan>)
    requires c.maxReady > 0 && s.n.nextCandidateId >= 0 && ReportOk(s.agg, s.history)
    ensures var t := AdmitAll(c, s, entry, plans); t.history == s.history && ReportOk(t.agg, t.history)
  {
    hide ReportOk, WithQueue;
    if plans != [] {
      AdmitAllReport(c, s, entry, plans[..|plans| - 1]);
      var t := AdmitAll(c, s, entry, plans[..|plans| - 1]);
      SameReport(t.agg, Admit(c, t, entry, plans[|plans| - 1]).agg.report.queue, t.history);
      AdmitTallies(c, t, entry, plans[|plans| - 1]);
    }
  }

  lemma AdmitTallies(c: Settings, s: Schedule, entry: Entry, plan: Plan)
    requires c.maxReady > 0 && s.n.nextCandidateId >= 0
    ensures var t := Admit(c, s, entry, plan);
            t.history == s.history && t.agg == WithQueue(s.agg, t.agg.report.queue)
  {
  }

  lemma MutationReport(c: Settings, s: Schedule, id: int, result: MutationResult)
    requires ReportOk(s.agg, s.history) && id in s.q.pending && c.maxReady > 0 && s.n.nextCandidateId >= 0
    ensures var t := MutationDone(c, s, id, result); ReportOk(t.agg, t.history)
  {
    hide ReportOk, AdmitAll;
    var queue := s.agg.report.queue;
    match result
    case MutationFailed => SameReport(s.agg, queue.(errors := queue.errors + 1), s.history);
    case Mutated(plans) =>
      var counted := queue.(generated := queue.generated + |plans|);
      SameReport(s.agg, counted, s.history);
      AdmitAllReport(c, Cleared(s, id, counted), s.q.pending[id].entry, plans);
  }

  lemma MutationMeant(c: Settings, s: Schedule, id: int, result: MutationResult)
    requires Inv(c, s) && Meant(c, s) && id in s.q.pending
    ensures c.maxReady > 0 && s.n.nextCandidateId >= 0 && Meant(c, MutationDone(c, s, id, result))
  {
    hide Inv, OrderOk, LineageOk, ReportOk, MutationDone;
    MutationOrder(c, s, id, result);
    MutationLineage(c, s, id, result);
    MutationReport(c, s, id, result);
  }

  lemma FinishMeant(c: Settings, s: Schedule)
    requires Meant(c, s)
    ensures Meant(c, Finish(s))
  {
    hide OrderOk, LineageOk, ReportOk, LosingAll;
    FinishOrder(s);
    FinishLineage(c, s);
  }

  lemma RewoundMeant(c: Settings, s: Schedule)
    requires Inv(c, s) && Meant(c, s)
    ensures Meant(c, Rewound(s))
  {
    hide Inv, OrderOk, LineageOk, ReportOk, TaskList, Assigned;
    RewoundOrder(c, s);
    RewoundLineage(c, s);
  }

  // ---------------------------------------------------------------- the directory

  /** Every kept run in runs.jsonl has its entry in corpus.jsonl: the entry is written first. */
  ghost predicate PointsIntoCorpus(runs: seq<RunRecord>, entries: seq<Entry>) {
    forall i :: 0 <= i < |runs| && runs[i].corpusId.Some? ==>
      runs[i].corpusId.value < |entries| && Contributed(entries[runs[i].corpusId.value], runs[i])
  }

  lemma PointersOf(c: Settings, s: Schedule)
    requires Meant(c, s)
    ensures PointsIntoCorpus(s.history, s.corpus.entries)
  {
    hide OrderOk, ReportOk, QueueFamily, TaskFamily, FamilyOk, Contributed, Descends;
    assert RunFamily(c, s.corpus.entries, s.history);
  }

  lemma PointersStay(runs: seq<RunRecord>, entries: seq<Entry>, entries': seq<Entry>, k: nat)
    requires PointsIntoCorpus(runs, entries) && entries <= entries' && k <= |runs|
    ensures PointsIntoCorpus(runs[..k], entries')
  {
    hide Contributed;
  }

  /** What recovery would resume from. */
  function Recovered(d: Disk): Schedule
    requires InRange(d) && d.checkpoint.Some?
  {
    Resume(d.checkpoint.value, CommittedEntries(d), CommittedRuns(d), d.losses)
  }

  ghost predicate DiskMeant(c: Settings, d: Disk) {
    && InRange(d)
    && (d.checkpoint.Some? ==> Meant(c, Recovered(d)))
    && PointsIntoCorpus(d.runs.records, d.corpus.records)
  }

  ghost predicate SystemMeant(c: Settings, sys: System) {
    DiskMeant(c, sys.disk) && (ScheduleOf(sys.phase).Some? ==> Meant(c, ScheduleOf(sys.phase).value))
  }

  lemma RecoveredHistory(d: Disk)
    requires InRange(d) && d.checkpoint.Some?
    ensures Recovered(d).history == CommittedRuns(d) && Recovered(d).corpus.entries == CommittedEntries(d)
  {
  }

  lemma CommittedPointers(c: Settings, d: Disk)
    requires DiskMeant(c, d) && d.checkpoint.Some?
    ensures PointsIntoCorpus(CommittedRuns(d), CommittedEntries(d))
  {
    hide Meant;
    RecoveredHistory(d);
    PointersOf(c, Recovered(d));
  }

  /** The same committed records are recovered to the same state. */
  lemma SameRecovery(c: Settings, d: Disk, d': Disk)
    requires DiskMeant(c, d) && InRange(d') && d'.checkpoint == d.checkpoint && d'.losses == d.losses
    requires CommittedRuns(d') == CommittedRuns(d) && CommittedEntries(d') == CommittedEntries(d)
    requires PointsIntoCorpus(d'.runs.records, d'.corpus.records)
    ensures DiskMeant(c, d')
  {
    hide Meant, Resume;
  }

  lemma OpenMeant(c: Settings, encode: Encoder, fingerprint: string, sys: System)
    requires SystemInv(c, fingerprint, sys) && SystemMeant(c, sys) && sys.disk.checkpoint.Some?
    requires OpenStep(encode, sys, sys.disk.checkpoint.value).Some?
    ensures SystemMeant(c, OpenStep(encode, sys, sys.disk.checkpoint.value).value)
  {
    hide Inv, Valid, Restorable, Resume, Meant, Readable, Contributed, PointsIntoCorpus, DiskOk;
    OpenSurvives(encode, sys);
    var d, cp := sys.disk, sys.disk.checkpoint.value;
    var d' := OpenStep(encode, sys, cp).value.disk;
    CommittedPointers(c, d);
    assert d.corpus.records[..|d.corpus.records|] == d.corpus.records && d.runs.records[..|d.runs.records|] == d.runs.records;
    PointersStay(d.runs.records, d.corpus.records, d.corpus.records, cp.runSummaryCount);
    PointersStay(d.runs.records, d.corpus.records, d.corpus.records, |d.runs.records|);
    CommittedStays(d, cp.runSummaryCount, |d.corpus.records|);
    CommittedStays(d, |d.runs.records|, cp.corpus.entryCount);
    SameRecovery(c, d, d');
  }

  lemma CommittedStays(d: Disk, k: nat, n: nat)
    requires InRange(d) && d.checkpoint.Some?
    requires d.checkpoint.value.runSummaryCount <= k <= |d.runs.records|
    requires d.checkpoint.value.corpus.entryCount <= n <= |d.corpus.records|
    ensures d.runs.records[..k][..d.checkpoint.value.runSummaryCount] == CommittedRuns(d)
    ensures d.corpus.records[..n][..d.checkpoint.value.corpus.entryCount] == CommittedEntries(d)
  {
  }

  /** What a completion adds to the corpus. */
  function More(c: Settings, s: Schedule, index: int, o: Outcome): seq<Entry>
    requires CanComplete(c, s, index)
  {
    CanBeCompleted(c, Completing(s, index, o));
    if NewEntry(c, s, index, o).Some? then [NewEntry(c, s, index, o).value] else []
  }

  /** The journals point where they should after the first write, and after the second. */
  lemma PointsAfterWrites(c: Settings, s: Schedule, index: int, o: Outcome)
    requires Inv(c, s) && Meant(c, s) && CanComplete(c, s, index)
    ensures Meant(c, Complete(c, s, index, o))
    ensures PointsIntoCorpus(s.history, s.corpus.entries + More(c, s, index, o))
    ensures PointsIntoCorpus(Complete(c, s, index, o).history, s.corpus.entries + More(c, s, index, o))
  {
    hide Inv, NewEntry, Complete, FinalRecord, Meant, Contributed, PointsIntoCorpus, More;
    CompleteMeant(c, s, index, o);
    GrowsByMore(c, s, index, o);
    PointersOf(c, s);
    PointersOf(c, Complete(c, s, index, o));
    assert s.history[..|s.history|] == s.history;
    PointersStay(s.history, s.corpus.entries, s.corpus.entries + More(c, s, index, o), |s.history|);
  }

  lemma GrowsByMore(c: Settings, s: Schedule, index: int, o: Outcome)
    requires Inv(c, s) && CanComplete(c, s, index)
    ensures Complete(c, s, index, o).corpus.entries == s.corpus.entries + More(c, s, index, o)
  {
    hide Inv, NewEntry, Complete, CanComplete, FinalRecord;
    EntriesGrow(c, s, index, o);
  }

  lemma WritePoints(c: Settings, d: Disk, phase: Phase)
    requires WriteStep(c, System(d, phase)).Some? && PhaseOk(c, d, phase) && SystemMeant(c, System(d, phase))
    ensures var next := WriteStep(c, System(d, phase)).value;
            && PointsIntoCorpus(next.disk.runs.records, next.disk.corpus.records)
            && (ScheduleOf(next.phase).Some? ==> Meant(c, ScheduleOf(next.phase).value))
  {
    hide Inv, NewEntry, Complete, FinalRecord, Meant, DiskMeant, PointsIntoCorpus;
    PointsAfterWrites(c, phase.s, phase.index, phase.o);
    EntriesGrow(c, phase.s, phase.index, phase.o);
    assert phase.s.corpus.entries + [] == phase.s.corpus.entries;
  }

  lemma WriteAppends(c: Settings, sys: System)
    requires WriteStep(c, sys).Some?
    ensures var d, d' := sys.disk, WriteStep(c, sys).value.disk;
            && d.runs.records <= d'.runs.records && d.corpus.records <= d'.corpus.records
            && d'.checkpoint == d.checkpoint && d'.losses == d.losses
  {
    hide NewEntry, Complete, FinalRecord, CanComplete;
  }

  lemma CanBeCompleted(c: Settings, phase: Phase)
    requires phase.Completing? || phase.EntryWritten?
    ensures CanComplete(c, phase.s, phase.index) ==>
              && phase.index in phase.s.q.inFlight && phase.s.q.inFlight[phase.index].index >= 0
              && (phase.s.n.nextSeedAt > 0 ==> c.seedInterval > 0)
  {
  }

  lemma WriteMeant(c: Settings, fingerprint: string, sys: System)
    requires SystemInv(c, fingerprint, sys) && SystemMeant(c, sys) && WriteStep(c, sys).Some?
    ensures SystemMeant(c, WriteStep(c, sys).value)
  {
    hide PhaseOk, DiskOk, WriteStep, Meant, PointsIntoCorpus, Resume;
    var next := WriteStep(c, sys).value;
    WritePoints(c, sys.disk, sys.phase);
    WriteAppends(c, sys);
    AppendedCommits(sys.disk, next.disk);
    SameRecovery(c, sys.disk, next.disk);
  }

  lemma AppendedCommits(d: Disk, d': Disk)
    requires InRange(d) && d'.checkpoint == d.checkpoint
    requires d.runs.records <= d'.runs.records && d.corpus.records <= d'.corpus.records
    ensures InRange(d') && CommittedRuns(d') == CommittedRuns(d) && CommittedEntries(d') == CommittedEntries(d)
  {
  }

  lemma SaveMeant(c: Settings, fingerprint: string, d: Disk, s: Schedule)
    requires Inv(c, s) && Mirrors(d, s) && Meant(c, s)
    ensures DiskMeant(c, d.(checkpoint := Some(Save(c, fingerprint, s)), losses := s.losses))
  {
    hide Inv, Meant, Save, Resume;
    SavedWatermarks(c, fingerprint, s);
    ResumeIsRewound(c, fingerprint, s);
    RewoundMeant(c, s);
    PointersOf(c, s);
    assert s.history[..|s.history|] == s.history && s.corpus.entries[..|s.corpus.entries|] == s.corpus.entries;
  }

  lemma RunningMeant(c: Settings, fingerprint: string, d: Disk, s: Schedule, e: Event)
    requires SystemInv(c, fingerprint, System(d, Running(s))) && SystemMeant(c, System(d, Running(s)))
    requires RunningStep(c, fingerprint, d, s, e).Some?
    ensures SystemMeant(c, RunningStep(c, fingerprint, d, s, e).value)
  {
    hide Inv, DiskOk, Fill, Refill, MutationDone, NeedsSeed, Save, Finish, Meant, DiskMeant, CanComplete;
    match e
    case FillSlots => FillMeant(c, s);
    case AddSeed(plan) => RefillMeant(c, s, plan);
    case MutationArrives(id, result) => MutationMeant(c, s, id, result);
    case SaveState => SaveMeant(c, fingerprint, d, s);
    case FinishRuns => FinishMeant(c, s);
    case _ =>
  }

  lemma TearMeant(c: Settings, sys: System)
    requires SystemMeant(c, sys) && TearStep(c, sys).Some?
    ensures SystemMeant(c, TearStep(c, sys).value)
  {
    hide Meant, Contributed, PointsIntoCorpus, Resume, NewEntry, CanComplete;
    var d' := TearStep(c, sys).value.disk;
    AppendedCommits(sys.disk, d');
    SameRecovery(c, sys.disk, d');
  }

  lemma NextMeant(c: Settings, encode: Encoder, fingerprint: string, sys: System, e: Event)
    requires SystemInv(c, fingerprint, sys) && SystemMeant(c, sys) && Next(c, encode, fingerprint, sys, e).Some?
    ensures SystemMeant(c, Next(c, encode, fingerprint, sys, e).value)
  {
    hide Inv, Meant, DiskMeant, DiskOk, PhaseOk, RunningStep, WriteStep, OpenStep, TearStep;
    match e
    case Crash =>
    case Open => OpenMeant(c, encode, fingerprint, sys);
    case Write => WriteMeant(c, fingerprint, sys);
    case TearWrite => TearMeant(c, sys);
    case _ => RunningMeant(c, fingerprint, sys.disk, sys.phase.s, e);
  }

  // ---------------------------------------------------------------- whole histories

  lemma CreatedMeant(c: Settings, plans: seq<Option<Plan>>)
    requires WellConfigured(c)
    ensures SystemMeant(c, Created(c, plans))
  {
    hide Meant, Start;
    StartMeant(c, plans);
  }

  lemma {:induction false} AlwaysMeant(c: Settings, encode: Encoder, fingerprint: string, plans: seq<Option<Plan>>, events: seq<Event>)
    requires WellConfigured(c) && |plans| > 0
    requires History(c, encode, fingerprint, Created(c, plans), events).Some?
    ensures SystemMeant(c, History(c, encode, fingerprint, Created(c, plans), events).value)
    decreases |events|
  {
    hide SystemInv, SystemMeant, Next, Created;
    if events == [] {
      CreatedMeant(c, plans);
    } else {
      var init := events[..|events| - 1];
      AlwaysMeant(c, encode, fingerprint, plans, init);
      AlwaysRecoverable(c, encode, fingerprint, plans, init);
      NextMeant(c, encode, fingerprint, History(c, encode, fingerprint, Created(c, plans), init).value, events[|events| - 1]);
    }
  }

  /** Runs that came through the queue got their indices in the order of their candidates. */
  ghost predicate InLine(runs: seq<RunRecord>) {
    forall i, j | 0 <= i < |runs| && 0 <= j < |runs| && !runs[i].kind.PeriodicRandom? && !runs[j].kind.PeriodicRandom? ::
      runs[i].index < runs[j].index ==> runs[i].candidateId < runs[j].candidateId
  }

  lemma LineOf(s: Schedule)
    requires OrderOk(s)
    ensures InLine(s.history)
  {
    hide Assigned;
    var runs := s.history;
    forall i, j | 0 <= i < |runs| && 0 <= j < |runs| && !runs[i].kind.PeriodicRandom? && !runs[j].kind.PeriodicRandom?
                  && runs[i].index < runs[j].index
      ensures runs[i].candidateId < runs[j].candidateId
    {
      var a, b := Service(runs[i].index, runs[i].candidateId), Service(runs[j].index, runs[j].candidateId);
      assert a in ServedRuns(runs) && b in ServedRuns(runs);
    }
  }

  /** Whatever happened: in the journals of a finished experiment candidates ran in turn,
      every run names its parent entry and generation, every corpus entry is the
      contribution of a run in runs.jsonl, runs are marked new exactly when nothing
      earlier had their digest, and the report counts those very runs. */
  lemma JournalsTellTheStory(c: Settings, encode: Encoder, fingerprint: string, plans: seq<Option<Plan>>, events: seq<Event>)
    requires WellConfigured(c) && |plans| > 0
    requires History(c, encode, fingerprint, Created(c, plans), events).Some?
    ensures var sys := History(c, encode, fingerprint, Created(c, plans), events).value;
            sys.phase.Running? ==>
              var runs, entries := sys.disk.runs.records, sys.disk.corpus.records;
              && InLine(runs) && FamilyOk(entries) && RunFamily(c, entries, runs)
              && FlagsMean(runs) && TalliesMean(sys.phase.s.agg.report, runs) && SetsMean(sys.phase.s.agg, runs)
  {
    hide Inv, DiskOk, History, DiskMeant, FamilyOk, RunFamily, QueueFamily, TaskFamily, FlagsMean, TalliesMean, SetsMean, OrderOk,
         InLine;
    AlwaysMeant(c, encode, fingerprint, plans, events);
    AlwaysRecoverable(c, encode, fingerprint, plans, events);
    var sys := History(c, encode, fingerprint, Created(c, plans), events).value;
    if sys.phase.Running? {
      LineOf(sys.phase.s);
    }
  }
}
