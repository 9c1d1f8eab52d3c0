/** The experiment directory and everything a crash can do to it: two append-only
    journals, one atomically replaced checkpoint, and the scheduler that writes
    them. A history of the system is any sequence of events, crashes included. */
module ExperimentStore {
  import opened Keys
  import opened Corpora
  import opened Aggregation
  import opened Lifecycle
  import opened SchedulerSpec
  import opened SchedulerInvariant
  import opened SchedulerRecovery
  import opened Scheduler
  import Journal

  /** A JSONL file: complete lines, and possibly a partial one after them. */
  datatype Log<T> = Log(records: seq<T>, torn: bool)

  /** `losses` is the tally of candidates as of the checkpoint; no file holds it. */
  datatype Disk = Disk(runs: Log<RunRecord>, corpus: Log<Entry>, checkpoint: Option<SavedState>, losses: Losses)

  /** The JSON text of a corpus entry. */
  type Encoder = Entry -> seq<Journal.byte>

  /** Where the process is. The opening phases follow openExperimentStore; in
      Completing and EntryWritten a completion is being persisted. */
  datatype Phase =
    | Down
    | RunsRepaired
    | RunsKept
    | CorpusRepaired
    | CorpusKept
    | Running(s: Schedule)
    | Completing(s: Schedule, index: int, o: Outcome)
    | EntryWritten(s: Schedule, index: int, o: Outcome)

  datatype System = System(disk: Disk, phase: Phase)

  datatype Event =
    | Crash
    | Open
    | Write
    | TearWrite
    | FillSlots
    | AddSeed(plan: Option<Plan>)
    | ExecutionArrives(index: int, o: Outcome)
    | MutationArrives(id: int, result: MutationResult)
    | SaveState
    | FinishRuns

  // ---------------------------------------------------------------- files

  function Appended<T>(log: Log<T>, record: T): Log<T> {
    log.(records := log.records + [record])
  }

  function Torn<T>(log: Log<T>): Log<T> {
    log.(torn := true)
  }

  function Repaired<T>(log: Log<T>): Log<T> {
    log.(torn := false)
  }

  /** KeepJSONLines after the repair: fails when records are missing. */
  function Kept<T>(log: Log<T>, keep: int): Option<Log<T>> {
    if 0 <= keep <= |log.records| then Some(log.(records := log.records[..keep])) else None
  }

  /** The bytes of a log: one line per record, then whatever a torn write left. */
  function FileOf<T>(encode: T -> seq<Journal.byte>, log: Log<T>, tail: seq<Journal.byte>): seq<Journal.byte> {
    Journal.Encoded(Lines(encode, log.records)) + if log.torn then tail else []
  }

  function Lines<T>(encode: T -> seq<Journal.byte>, records: seq<T>): seq<seq<Journal.byte>> {
    seq(|records|, i requires 0 <= i < |records| => encode(records[i]))
  }

  /** Logs abstract files: what KeepJSONLines does to the bytes is Kept after Repaired. */
  lemma LogsAreFiles<T>(encode: T -> seq<Journal.byte>, log: Log<T>, tail: seq<Journal.byte>, keep: int)
    requires Journal.OneLine(tail) && forall i :: 0 <= i < |log.records| ==> Journal.OneLine(encode(log.records[i]))
    ensures Kept(Repaired(log), keep).Some? <==> 0 <= keep <= |Journal.Records(FileOf(encode, log, tail))|
    ensures Kept(Repaired(log), keep).Some? ==>
              (FileOf(encode, Kept(Repaired(log), keep).value, tail)
               == Journal.Encoded(Journal.Records(FileOf(encode, log, tail))[..keep]))
  {
    var lines := Lines(encode, log.records);
    assert forall line | line in lines :: Journal.OneLine(line);
    Journal.SplitIsUnique(lines, if log.torn then tail else []);
    if 0 <= keep <= |lines| {
      assert Lines(encode, log.records[..keep]) == lines[..keep];
    }
  }

  /** Readable abstracts the reading: from the bytes of a repaired corpus log
      ReadJSONLines gives the JSON texts of all entries, or fails exactly when one
      of them is too long. */
  lemma ReadableIsReading(encode: Encoder, entries: seq<Entry>, tail: seq<Journal.byte>)
    requires forall i :: 0 <= i < |entries| ==> Journal.JsonText(encode(entries[i]))
    ensures var bytes := FileOf(encode, Log(entries, false), tail);
            && (Journal.Fits(bytes) <==> Readable(encode, entries))
            && Journal.Values(bytes) == Lines(encode, entries) && |Journal.Values(bytes)| == |entries|
  {
    hide Journal.JsonText, Journal.Fits, Journal.Values, Journal.Encoded;
    var lines := Lines(encode, entries);
    forall line | line in lines
      ensures Journal.JsonText(line)
    {
      var i :| 0 <= i < |lines| && lines[i] == line;
      assert line == encode(entries[i]);
    }
    Journal.CommittedReadBack(lines);
    assert forall i :: 0 <= i < |lines| ==> lines[i] == encode(entries[i]);
    assert Journal.Encoded(lines) + [] == Journal.Encoded(lines);
  }

  // ---------------------------------------------------------------- events

  predicate CanComplete(c: Settings, s: Schedule, index: int) {
    index in s.q.inFlight && s.q.inFlight[index].index >= 0 && (s.n.nextSeedAt > 0 ==> c.seedInterval > 0)
  }

  /** The corpus entry the completion of `index` appends, if any. */
  function NewEntry(c: Settings, s: Schedule, index: int, o: Outcome): Option<Entry>
    requires index in s.q.inFlight
  {
    var verdict := Verdicts(c.corpus, s.corpus, CorpusInput(s.q.inFlight[index], o));
    if Judged(o) && verdict.Considered? && verdict.retained then Some(verdict.entry) else None
  }

  /** The scanner of ReadJSONLines takes every line. */
  predicate Readable(encode: Encoder, entries: seq<Entry>) {
    forall i :: 0 <= i < |entries| ==> |encode(entries[i])| < Journal.MAX_LINE
  }

  /** One opening step: repair, then cut to the watermark, runs before corpus; then
      the corpus is read back. Opening ends with an error when a line is too long. */
  function OpenStep(encode: Encoder, sys: System, cp: SavedState): Option<System> {
    var d := sys.disk;
    match sys.phase
    case Down => Some(System(d.(runs := Repaired(d.runs)), RunsRepaired))
    case RunsRepaired =>
      var kept := Kept(d.runs, cp.runSummaryCount);
      if kept.None? then None else Some(System(d.(runs := kept.value), RunsKept))
    case RunsKept => Some(System(d.(corpus := Repaired(d.corpus)), CorpusRepaired))
    case CorpusRepaired =>
      var kept := Kept(d.corpus, cp.corpus.entryCount);
      if kept.None? then None else Some(System(d.(corpus := kept.value), CorpusKept))
    case CorpusKept =>
      if Readable(encode, d.corpus.records)
      then Some(System(d, Running(Resume(cp, d.corpus.records, d.runs.records, d.losses))))
      else Some(System(d, Down))
    case _ => None
  }

  /** The run record is written last, and the completion is over. */
  function WriteRun(c: Settings, d: Disk, s: Schedule, index: int, o: Outcome): System
    requires CanComplete(c, s, index)
  {
    System(d.(runs := Appended(d.runs, FinalRecord(c, s, s.q.inFlight[index], o))), Running(Complete(c, s, index, o)))
  }

  function WriteStep(c: Settings, sys: System): Option<System> {
    var d := sys.disk;
    match sys.phase
    case Completing(s, index, o) =>
      if !CanComplete(c, s, index) then None
      else if NewEntry(c, s, index, o).Some? then
        Some(System(d.(corpus := Appended(d.corpus, NewEntry(c, s, index, o).value)), EntryWritten(s, index, o)))
      else Some(WriteRun(c, d, s, index, o))
    case EntryWritten(s, index, o) =>
      if CanComplete(c, s, index) then Some(WriteRun(c, d, s, index, o)) else None
    case _ => None
  }

  /** The process dies inside Append: part of the line is in the file. */
  function TearStep(c: Settings, sys: System): Option<System> {
    var d := sys.disk;
    match sys.phase
    case Completing(s, index, o) =>
      if !CanComplete(c, s, index) then None
      else if NewEntry(c, s, index, o).Some? then Some(System(d.(corpus := Torn(d.corpus)), Down))
      else Some(System(d.(runs := Torn(d.runs)), Down))
    case EntryWritten(s, index, o) => Some(System(d.(runs := Torn(d.runs)), Down))
    case _ => None
  }

  /** What the running coordinator does. */
  function RunningStep(c: Settings, fingerprint: string, d: Disk, s: Schedule, e: Event): Option<System> {
    match e
    case FillSlots =>
      if s.n.nextCandidateId >= 0 then Some(System(d, Running(Fill(c, s)))) else None
    case AddSeed(plan) =>
      if s.n.nextCandidateId >= 0 && NeedsSeed(c, s) then Some(System(d, Running(Refill(s, plan)))) else None
    case ExecutionArrives(index, o) =>
      if CanComplete(c, s, index) then Some(System(d, Completing(s, index, o))) else None
    case MutationArrives(id, result) =>
      if id in s.q.pending && c.maxReady > 0 && s.n.nextCandidateId >= 0
      then Some(System(d, Running(MutationDone(c, s, id, result)))) else None
    case SaveState => Some(System(d.(checkpoint := Some(Save(c, fingerprint, s)), losses := s.losses), Running(s)))
    case FinishRuns =>
      if s.n.completed == c.runs then Some(System(d, Running(Finish(s)))) else None
    case _ => None
  }

  /** None when the event cannot happen here. */
  function Next(c: Settings, encode: Encoder, fingerprint: string, sys: System, e: Event): Option<System> {
    match e
    case Crash => Some(sys.(phase := Down))
    case Open => if sys.disk.checkpoint.Some? then OpenStep(encode, sys, sys.disk.checkpoint.value) else None
    case Write => WriteStep(c, sys)
    case TearWrite => TearStep(c, sys)
    case _ => if sys.phase.Running? then RunningStep(c, fingerprint, sys.disk, sys.phase.s, e) else None
  }

  /** A new experiment: createOutputDirectory has made an empty directory. */
  function Created(c: Settings, plans: seq<Option<Plan>>): System
    requires WellConfigured(c)
  {
    System(Disk(Log([], false), Log([], false), None, NO_LOSSES), Running(Start(c, plans)))
  }

  function History(c: Settings, encode: Encoder, fingerprint: string, sys: System, events: seq<Event>): Option<System> {
    if events == [] then Some(sys)
    else
      var before := History(c, encode, fingerprint, sys, events[..|events| - 1]);
      if before.None? then None else Next(c, encode, fingerprint, before.value, events[|events| - 1])
  }

  // ---------------------------------------------------------------- the invariant

  /** What recovery will read: the journals cut to the checkpoint's watermarks. */
  ghost predicate Recoverable(c: Settings, fingerprint: string, cp: SavedState, runs: seq<RunRecord>, entries: seq<Entry>,
                              losses: Losses) {
    && 0 <= cp.runSummaryCount <= |runs| && 0 <= cp.corpus.entryCount <= |entries|
    && Valid(cp, c, fingerprint)
    && Restorable(cp.corpus, entries[..cp.corpus.entryCount])
    && Inv(c, Resume(cp, entries[..cp.corpus.entryCount], runs[..cp.runSummaryCount], losses))
  }

  ghost predicate DiskOk(c: Settings, fingerprint: string, d: Disk) {
    d.checkpoint.Some? ==> Recoverable(c, fingerprint, d.checkpoint.value, d.runs.records, d.corpus.records, d.losses)
  }

  ghost predicate Mirrors(d: Disk, s: Schedule) {
    && !d.runs.torn && !d.corpus.torn
    && d.runs.records == s.history && d.corpus.records == s.corpus.entries
  }

  ghost predicate PhaseOk(c: Settings, d: Disk, phase: Phase) {
    match phase
    case Down => true
    case RunsRepaired => !d.runs.torn
    case RunsKept => !d.runs.torn && d.checkpoint.Some? && |d.runs.records| == d.checkpoint.value.runSummaryCount
    case CorpusRepaired =>
      !d.runs.torn && !d.corpus.torn && d.checkpoint.Some? && |d.runs.records| == d.checkpoint.value.runSummaryCount
    case CorpusKept =>
      && !d.runs.torn && !d.corpus.torn && d.checkpoint.Some?
      && |d.runs.records| == d.checkpoint.value.runSummaryCount
      && |d.corpus.records| == d.checkpoint.value.corpus.entryCount
    case Running(s) => Inv(c, s) && Mirrors(d, s)
    case Completing(s, index, o) => Inv(c, s) && Mirrors(d, s) && CanComplete(c, s, index)
    case EntryWritten(s, index, o) =>
      && Inv(c, s) && CanComplete(c, s, index) && NewEntry(c, s, index, o).Some?
      && Mirrors(d.(corpus := Log(s.corpus.entries, d.corpus.torn)), s)
      && d.corpus.records == s.corpus.entries + [NewEntry(c, s, index, o).value]
  }

  ghost predicate SystemInv(c: Settings, fingerprint: string, sys: System) {
    DiskOk(c, fingerprint, sys.disk) && PhaseOk(c, sys.disk, sys.phase)
  }

  // ---------------------------------------------------------------- appending keeps the watermark

  lemma AppendsKeepRecoverable(c: Settings, fingerprint: string, cp: SavedState, runs: seq<RunRecord>, entries: seq<Entry>,
                               runs': seq<RunRecord>, entries': seq<Entry>, losses: Losses)
    requires Recoverable(c, fingerprint, cp, runs, entries, losses)
    requires runs <= runs' && entries <= entries'
    ensures Recoverable(c, fingerprint, cp, runs', entries', losses)
  {
    hide Inv, Valid, Restorable, Resume;
    assert runs'[..cp.runSummaryCount] == runs[..cp.runSummaryCount];
    assert entries'[..cp.corpus.entryCount] == entries[..cp.corpus.entryCount];
  }

  lemma CutsKeepRecoverable(c: Settings, fingerprint: string, cp: SavedState, runs: seq<RunRecord>, entries: seq<Entry>,
                            losses: Losses, k: nat, n: nat)
    requires Recoverable(c, fingerprint, cp, runs, entries, losses)
    requires cp.runSummaryCount <= k <= |runs| && cp.corpus.entryCount <= n <= |entries|
    ensures Recoverable(c, fingerprint, cp, runs[..k], entries[..n], losses)
  {
    hide Inv, Valid, Restorable, Resume;
    assert runs[..k][..cp.runSummaryCount] == runs[..cp.runSummaryCount];
    assert entries[..n][..cp.corpus.entryCount] == entries[..cp.corpus.entryCount];
  }

  // ---------------------------------------------------------------- each kind of event

  /** Recovery: neither journal is ever too short, and the resumed state is reachable. */
  lemma OpenKeepsInv(c: Settings, encode: Encoder, fingerprint: string, sys: System)
    requires SystemInv(c, fingerprint, sys) && sys.disk.checkpoint.Some?
    ensures sys.phase.Down? || sys.phase.RunsRepaired? || sys.phase.RunsKept? || sys.phase.CorpusRepaired? || sys.phase.CorpusKept?
            ==> OpenStep(encode, sys, sys.disk.checkpoint.value).Some?
    ensures OpenStep(encode, sys, sys.disk.checkpoint.value).Some?
            ==> SystemInv(c, fingerprint, OpenStep(encode, sys, sys.disk.checkpoint.value).value)
  {
    hide Inv, Valid, Restorable;
    var d, cp := sys.disk, sys.disk.checkpoint.value;
    var runs, entries := d.runs.records, d.corpus.records;
    CutsKeepRecoverable(c, fingerprint, cp, runs, entries, d.losses, cp.runSummaryCount, |entries|);
    CutsKeepRecoverable(c, fingerprint, cp, runs, entries, d.losses, |runs|, cp.corpus.entryCount);
    assert runs[..|runs|] == runs && entries[..|entries|] == entries;
  }

  lemma EntriesGrow(c: Settings, s: Schedule, index: int, o: Outcome)
    requires CanComplete(c, s, index)
    ensures Complete(c, s, index, o).history == s.history + [FinalRecord(c, s, s.q.inFlight[index], o)]
    ensures Complete(c, s, index, o).corpus.entries
         == s.corpus.entries + (if NewEntry(c, s, index, o).Some? then [NewEntry(c, s, index, o).value] else [])
  {
    EntriesAfter(c.corpus, s.corpus, CorpusInput(s.q.inFlight[index], o));
  }

  lemma WriteKeepsInv(c: Settings, fingerprint: string, sys: System)
    requires SystemInv(c, fingerprint, sys) && WriteStep(c, sys).Some?
    ensures SystemInv(c, fingerprint, WriteStep(c, sys).value)
  {
    hide Inv, Recoverable, NewEntry, Complete, FinalRecord, CanComplete;
    var d, d' := sys.disk, WriteStep(c, sys).value.disk;
    if d.checkpoint.Some? {
      AppendsKeepRecoverable(c, fingerprint, d.checkpoint.value, d.runs.records, d.corpus.records, d'.runs.records,
                             d'.corpus.records, d.losses);
    }
    EntriesGrow(c, sys.phase.s, sys.phase.index, sys.phase.o);
    CompletionKeepsInv(c, sys.phase.s, sys.phase.index, sys.phase.o);
  }

  lemma CompletionKeepsInv(c: Settings, s: Schedule, index: int, o: Outcome)
    requires Inv(c, s) && CanComplete(c, s, index)
    ensures Inv(c, Complete(c, s, index, o))
  {
    hide Inv, Complete;
    CompleteKeepsInv(c, s, index, o);
  }

  /** The checkpoint commits exactly what the journals hold. */
  lemma SavingIsRecoverable(c: Settings, fingerprint: string, s: Schedule)
    requires Inv(c, s)
    ensures Recoverable(c, fingerprint, Save(c, fingerprint, s), s.history, s.corpus.entries, s.losses)
    ensures Save(c, fingerprint, s).runSummaryCount == |s.history| && Save(c, fingerprint, s).corpus.entryCount == |s.corpus.entries|
  {
    hide Inv, Valid, Restorable, Resume, Save;
    SavedWatermarks(c, fingerprint, s);
    SaveIsValid(c, fingerprint, s);
    ResumeInv(c, fingerprint, s);
    ResumeIsRewound(c, fingerprint, s);
    assert s.history[..|s.history|] == s.history && s.corpus.entries[..|s.corpus.entries|] == s.corpus.entries;
  }

  lemma SavedWatermarks(c: Settings, fingerprint: string, s: Schedule)
    requires Inv(c, s)
    ensures var cp := Save(c, fingerprint, s);
            && cp.runSummaryCount == |s.history| && cp.corpus.entryCount == |s.corpus.entries|
            && cp.corpus == Checkpointed(s.corpus)
  {
  }

  lemma RunningKeepsInv(c: Settings, fingerprint: string, d: Disk, s: Schedule, e: Event)
    requires SystemInv(c, fingerprint, System(d, Running(s)))
    requires RunningStep(c, fingerprint, d, s, e).Some?
    ensures SystemInv(c, fingerprint, RunningStep(c, fingerprint, d, s, e).value)
  {
    hide Inv, Recoverable, Fill, Refill, MutationDone, NeedsSeed, Save, Finish, Resume;
    match e
    case FillSlots => FillKeepsInv(c, s); FillKeepsRecords(c, s);
    case AddSeed(plan) => RefillKeepsInv(c, s, plan); RefillKeepsRecords(c, s, plan);
    case MutationArrives(id, result) => MutationDoneKeepsInv(c, s, id, result); MutationKeepsRecords(c, s, id, result);
    case SaveState => SavingIsRecoverable(c, fingerprint, s);
    case FinishRuns => FinishKeepsInv(c, s); FinishKeepsRecords(s);
    case _ =>
  }

  lemma FillKeepsRecords(c: Settings, s: Schedule)
    requires s.n.nextCandidateId >= 0
    ensures Fill(c, s).history == s.history && Fill(c, s).corpus == s.corpus
  {
    FillReadyFrame(c, s.(q := FillRerun(c, s.q)));
  }

  lemma RefillKeepsRecords(c: Settings, s: Schedule, plan: Option<Plan>)
    requires s.n.nextCandidateId >= 0
    ensures Refill(s, plan).history == s.history && Refill(s, plan).corpus == s.corpus
  {
  }

  lemma FinishKeepsRecords(s: Schedule)
    ensures Finish(s).history == s.history && Finish(s).corpus == s.corpus
  {
  }

  lemma {:induction false} AdmitAllKeepsRecords(c: Settings, s: Schedule, entry: Entry, plans: seq<Plan>)
    requires c.maxReady > 0 && s.n.nextCandidateId >= 0
    ensures AdmitAll(c, s, entry, plans).history == s.history && AdmitAll(c, s, entry, plans).corpus == s.corpus
  {
    if plans != [] {
      AdmitAllKeepsRecords(c, s, entry, plans[..|plans| - 1]);
    }
  }

  lemma MutationKeepsRecords(c: Settings, s: Schedule, id: int, result: MutationResult)
    requires id in s.q.pending && c.maxReady > 0 && s.n.nextCandidateId >= 0
    ensures MutationDone(c, s, id, result).history == s.history && MutationDone(c, s, id, result).corpus == s.corpus
  {
    if result.Mutated? {
      var queue := s.agg.report.queue;
      AdmitAllKeepsRecords(c, Cleared(s, id, queue.(generated := queue.generated + |result.plans|)),
                           s.q.pending[id].entry, result.plans);
    }
  }

  lemma NextKeepsInv(c: Settings, encode: Encoder, fingerprint: string, sys: System, e: Event)
    requires SystemInv(c, fingerprint, sys) && Next(c, encode, fingerprint, sys, e).Some?
    ensures SystemInv(c, fingerprint, Next(c, encode, fingerprint, sys, e).value)
  {
    hide Inv, Recoverable, RunningStep, WriteStep, OpenStep, NewEntry;
    match e
    case Crash =>
    case Open => OpenKeepsInv(c, encode, fingerprint, sys);
    case Write => WriteKeepsInv(c, fingerprint, sys);
    case TearWrite =>
    case _ => RunningKeepsInv(c, fingerprint, sys.disk, sys.phase.s, e);
  }

  // ---------------------------------------------------------------- whole histories

  lemma {:induction false} HistoryKeepsInv(c: Settings, encode: Encoder, fingerprint: string, sys: System, events: seq<Event>)
    requires SystemInv(c, fingerprint, sys) && History(c, encode, fingerprint, sys, events).Some?
    ensures SystemInv(c, fingerprint, History(c, encode, fingerprint, sys, events).value)
  {
    hide SystemInv, Next;
    if events != [] {
      HistoryKeepsInv(c, encode, fingerprint, sys, events[..|events| - 1]);
      NextKeepsInv(c, encode, fingerprint, History(c, encode, fingerprint, sys, events[..|events| - 1]).value, events[|events| - 1]);
    }
  }

  /** From an empty directory, whatever happens: the journals are never shorter
      than the watermark and recovery always leads to a reachable state. */
  lemma AlwaysRecoverable(c: Settings, encode: Encoder, fingerprint: string, plans: seq<Option<Plan>>, events: seq<Event>)
    requires WellConfigured(c) && |plans| > 0
    requires History(c, encode, fingerprint, Created(c, plans), events).Some?
    ensures SystemInv(c, fingerprint, History(c, encode, fingerprint, Created(c, plans), events).value)
  {
    hide Inv, Recoverable, Start;
    StartInv(c, plans);
    StartMirrors(c, plans);
    HistoryKeepsInv(c, encode, fingerprint, Created(c, plans), events);
  }

  lemma StartMirrors(c: Settings, plans: seq<Option<Plan>>)
    requires WellConfigured(c)
    ensures Start(c, plans).history == [] && Start(c, plans).corpus.entries == []
  {
  }

  /** runs.jsonl and corpus.jsonl of an experiment whose last run has completed:
      each run index exactly once, and exactly the corpus, in ID order. */
  ghost predicate Delivered(c: Settings, d: Disk, corpus: Corpora.State) {
    && !d.runs.torn && !d.corpus.torn
    && EachIndexOnce(d.runs.records, c.runs)
    && d.corpus.records == corpus.entries
    && forall i :: 0 <= i < |d.corpus.records| ==> d.corpus.records[i].id == i
  }

  lemma DoneIsDelivered(c: Settings, d: Disk, s: Schedule)
    requires Inv(c, s) && Mirrors(d, s) && s.n.completed == c.runs
    ensures Delivered(c, d, s.corpus)
  {
    hide Inv, EachIndexOnce;
    CompletedHistory(c, s);
    CorpusInIdOrder(c, s);
  }

  lemma ExactlyOnce(c: Settings, encode: Encoder, fingerprint: string, plans: seq<Option<Plan>>, events: seq<Event>)
    requires WellConfigured(c) && |plans| > 0
    requires History(c, encode, fingerprint, Created(c, plans), events).Some?
    ensures var sys := History(c, encode, fingerprint, Created(c, plans), events).value;
            sys.phase.Running? && sys.phase.s.n.completed == c.runs ==> Delivered(c, sys.disk, sys.phase.s.corpus)
  {
    hide Inv, DiskOk, History, Delivered, Mirrors;
    AlwaysRecoverable(c, encode, fingerprint, plans, events);
    var sys := History(c, encode, fingerprint, Created(c, plans), events).value;
    if sys.phase.Running? && sys.phase.s.n.completed == c.runs {
      DoneIsDelivered(c, sys.disk, sys.phase.s);
    }
  }

  lemma CorpusInIdOrder(c: Settings, s: Schedule)
    requires Inv(c, s)
    ensures forall i :: 0 <= i < |s.corpus.entries| ==> s.corpus.entries[i].id == i
  {
  }

  // ---------------------------------------------------------------- durability

  /** The watermarks point into the journals. */
  predicate InRange(d: Disk) {
    d.checkpoint.Some? ==>
      && 0 <= d.checkpoint.value.runSummaryCount <= |d.runs.records|
      && 0 <= d.checkpoint.value.corpus.entryCount <= |d.corpus.records|
  }

  function CommittedRuns(d: Disk): seq<RunRecord>
    requires InRange(d)
  {
    if d.checkpoint.None? then [] else d.runs.records[..d.checkpoint.value.runSummaryCount]
  }

  function CommittedEntries(d: Disk): seq<Entry>
    requires InRange(d)
  {
    if d.checkpoint.None? then [] else d.corpus.records[..d.checkpoint.value.corpus.entryCount]
  }

  /** Nothing committed in `d` is lost, changed or reordered in `d'`. */
  ghost predicate Survives(d: Disk, d': Disk) {
    && InRange(d) && InRange(d') && (d.checkpoint.Some? ==> d'.checkpoint.Some?)
    && CommittedRuns(d) <= CommittedRuns(d') && CommittedEntries(d) <= CommittedEntries(d')
  }

  lemma WatermarksHold(c: Settings, fingerprint: string, d: Disk)
    requires DiskOk(c, fingerprint, d)
    ensures InRange(d)
  {
  }

  lemma OpenSurvives(encode: Encoder, sys: System)
    requires sys.disk.checkpoint.Some? && OpenStep(encode, sys, sys.disk.checkpoint.value).Some? && InRange(sys.disk)
    ensures Survives(sys.disk, OpenStep(encode, sys, sys.disk.checkpoint.value).value.disk)
  {
    hide Resume;
  }

  lemma WriteSurvives(c: Settings, sys: System)
    requires WriteStep(c, sys).Some? && InRange(sys.disk)
    ensures Survives(sys.disk, WriteStep(c, sys).value.disk)
  {
    hide NewEntry, Complete, FinalRecord, CanComplete;
  }

  lemma SaveSurvives(c: Settings, fingerprint: string, d: Disk, s: Schedule)
    requires Inv(c, s) && Mirrors(d, s) && InRange(d)
    ensures Survives(d, d.(checkpoint := Some(Save(c, fingerprint, s)), losses := s.losses))
  {
    hide Inv, Save;
    SavedWatermarks(c, fingerprint, s);
  }

  predicate SameFiles(d: Disk, d': Disk) {
    d'.checkpoint == d.checkpoint && d'.runs.records == d.runs.records && d'.corpus.records == d.corpus.records
  }

  lemma SameFilesSurvive(d: Disk, d': Disk)
    requires SameFiles(d, d') && InRange(d)
    ensures Survives(d, d')
  {
  }

  lemma OthersKeepFiles(c: Settings, encode: Encoder, fingerprint: string, sys: System, e: Event)
    requires Next(c, encode, fingerprint, sys, e).Some? && !e.Open? && !e.Write? && !e.SaveState?
    ensures SameFiles(sys.disk, Next(c, encode, fingerprint, sys, e).value.disk)
  {
    hide CanComplete, NewEntry, Fill, Refill, NeedsSeed, MutationDone, Finish, Save;
  }

  lemma CommittedSurvives(c: Settings, encode: Encoder, fingerprint: string, sys: System, e: Event)
    requires SystemInv(c, fingerprint, sys) && Next(c, encode, fingerprint, sys, e).Some?
    ensures Survives(sys.disk, Next(c, encode, fingerprint, sys, e).value.disk)
  {
    hide Inv, OpenStep, WriteStep, DiskOk, Save, Mirrors, Survives, SameFiles;
    WatermarksHold(c, fingerprint, sys.disk);
    match e
    case Open => OpenSurvives(encode, sys);
    case Write => WriteSurvives(c, sys);
    case SaveState => SaveSurvives(c, fingerprint, sys.disk, sys.phase.s);
    case _ =>
      OthersKeepFiles(c, encode, fingerprint, sys, e);
      SameFilesSurvive(sys.disk, Next(c, encode, fingerprint, sys, e).value.disk);
  }

  // ---------------------------------------------------------------- recovery

  function Opens(n: nat): seq<Event> {
    seq(n, i => Open)
  }

  lemma {:induction false} OneMoreOpen(c: Settings, encode: Encoder, fingerprint: string, sys: System, n: nat)
    requires History(c, encode, fingerprint, sys, Opens(n)).Some?
    ensures History(c, encode, fingerprint, sys, Opens(n + 1)) == Next(c, encode, fingerprint, History(c, encode, fingerprint, sys, Opens(n)).value, Open)
  {
    hide Next;
    assert Opens(n + 1)[..n] == Opens(n);
  }

  /** What the directory holds after an opening: the committed records only. */
  function Calibrated(d: Disk): Disk
    requires InRange(d)
  {
    Disk(Log(CommittedRuns(d), false), Log(CommittedEntries(d), false), d.checkpoint, d.losses)
  }

  lemma CutSteps(c: Settings, encode: Encoder, fingerprint: string, sys: System)
    requires SystemInv(c, fingerprint, sys) && sys.phase.Down? && sys.disk.checkpoint.Some?
    ensures InRange(sys.disk)
    ensures History(c, encode, fingerprint, sys, Opens(4)) == Some(System(Calibrated(sys.disk), CorpusKept))
  {
    hide Inv, Valid, Restorable, Resume, Readable;
    var d, cp := sys.disk, sys.disk.checkpoint.value;
    var runs := d.runs.records[..cp.runSummaryCount];
    assert Opens(0) == [];
    OneMoreOpen(c, encode, fingerprint, sys, 0);
    OneMoreOpen(c, encode, fingerprint, sys, 1);
    assert History(c, encode, fingerprint, sys, Opens(2)) == Some(System(d.(runs := Log(runs, false)), RunsKept));
    OneMoreOpen(c, encode, fingerprint, sys, 2);
    OneMoreOpen(c, encode, fingerprint, sys, 3);
  }

  /** After any crash, opening the directory cuts it to exactly the committed
      records: partial lines and later records are gone. It then gives back the
      checkpointed state if every committed entry is readable, and otherwise fails. */
  lemma RecoveryRestoresCheckpoint(c: Settings, encode: Encoder, fingerprint: string, sys: System)
    requires SystemInv(c, fingerprint, sys) && sys.phase.Down? && sys.disk.checkpoint.Some?
    ensures InRange(sys.disk)
    ensures History(c, encode, fingerprint, sys, Opens(5))
         == Some(System(Calibrated(sys.disk),
                        if Readable(encode, CommittedEntries(sys.disk))
                        then Running(Resume(sys.disk.checkpoint.value, CommittedEntries(sys.disk), CommittedRuns(sys.disk),
                                            sys.disk.losses))
                        else Down))
  {
    hide Inv, Valid, Restorable, Resume, Readable, SystemInv, InRange;
    CutSteps(c, encode, fingerprint, sys);
    OneMoreOpen(c, encode, fingerprint, sys, 4);
  }

  /** A directory whose commits can no longer be opened: the process is not running. */
  ghost predicate Stuck(encode: Encoder, sys: System) {
    && InRange(sys.disk) && sys.disk.checkpoint.Some? && !Readable(encode, CommittedEntries(sys.disk))
    && (sys.phase.Down? || sys.phase.RunsRepaired? || sys.phase.RunsKept? || sys.phase.CorpusRepaired? || sys.phase.CorpusKept?)
    && (sys.phase.CorpusKept? ==> |sys.disk.corpus.records| == sys.disk.checkpoint.value.corpus.entryCount)
  }

  /** One committed entry that is too long makes every later opening fail. */
  lemma {:induction false} TooLongForEver(c: Settings, encode: Encoder, fingerprint: string, sys: System, events: seq<Event>)
    requires Stuck(encode, sys) && History(c, encode, fingerprint, sys, events).Some?
    ensures Stuck(encode, History(c, encode, fingerprint, sys, events).value)
  {
    hide Stuck, Next;
    if events != [] {
      TooLongForEver(c, encode, fingerprint, sys, events[..|events| - 1]);
      StaysStuck(c, encode, fingerprint, History(c, encode, fingerprint, sys, events[..|events| - 1]).value,
                 events[|events| - 1]);
    }
  }

  lemma StaysStuck(c: Settings, encode: Encoder, fingerprint: string, sys: System, e: Event)
    requires Stuck(encode, sys) && Next(c, encode, fingerprint, sys, e).Some?
    ensures Stuck(encode, Next(c, encode, fingerprint, sys, e).value)
  {
    hide Readable, Resume;
    if e.Open? {
      OpenSurvives(encode, sys);
      var d, cp := sys.disk, sys.disk.checkpoint.value;
      assert d.corpus.records[..|d.corpus.records|] == d.corpus.records;
      if 0 <= cp.corpus.entryCount <= |d.corpus.records| {
        var kept := d.corpus.records[..cp.corpus.entryCount];
        assert kept[..cp.corpus.entryCount] == kept;
      }
    }
  }

  // ---------------------------------------------------------------- conservation

  /** The schedule of a process that is up. */
  function ScheduleOf(phase: Phase): Option<Schedule> {
    match phase
    case Running(s) => Some(s)
    case Completing(s, _, _) => Some(s)
    case EntryWritten(s, _, _) => Some(s)
    case _ => None
  }

  /** The books balance in every state of every history, crashes and resumes included. */
  lemma BooksBalanceAlways(c: Settings, encode: Encoder, fingerprint: string, plans: seq<Option<Plan>>, events: seq<Event>)
    requires WellConfigured(c) && |plans| > 0
    requires History(c, encode, fingerprint, Created(c, plans), events).Some?
    ensures var sys := History(c, encode, fingerprint, Created(c, plans), events).value;
            ScheduleOf(sys.phase).Some? ==> Balanced(c, ScheduleOf(sys.phase).value)
  {
    hide Inv, DiskOk, History, Mirrors, Balanced, NewEntry, CanComplete;
    AlwaysRecoverable(c, encode, fingerprint, plans, events);
    var sys := History(c, encode, fingerprint, Created(c, plans), events).value;
    if ScheduleOf(sys.phase).Some? {
      BooksBalance(c, ScheduleOf(sys.phase).value);
    }
  }

  /** Only a mutation result or the end of the experiment loses candidates, and a
      resumed process has lost what it had lost at its checkpoint. */
  lemma NothingElseIsLost(c: Settings, encode: Encoder, fingerprint: string, sys: System, e: Event)
    requires Next(c, encode, fingerprint, sys, e).Some?
    requires ScheduleOf(Next(c, encode, fingerprint, sys, e).value.phase).Some?
    ensures !e.MutationArrives? && !e.FinishRuns? ==>
              ScheduleOf(Next(c, encode, fingerprint, sys, e).value.phase).value.losses
              == if e.Open? then sys.disk.losses else ScheduleOf(sys.phase).value.losses
    ensures e.SaveState? ==>
              Next(c, encode, fingerprint, sys, e).value.disk.losses == ScheduleOf(sys.phase).value.losses
    ensures !e.SaveState? ==> Next(c, encode, fingerprint, sys, e).value.disk.losses == sys.disk.losses
  {
    hide CanComplete, NewEntry, MutationDone, Finish, Save, NeedsSeed, FinalRecord, Readable, Fill;
    if e.FillSlots? {
      FillLosesNothing(c, sys.phase.s);
    }
  }

  lemma FillLosesNothing(c: Settings, s: Schedule)
    requires s.n.nextCandidateId >= 0
    ensures Fill(c, s).losses == s.losses
  {
    FillReadyFrame(c, s.(q := FillRerun(c, s.q)));
  }

  // ---------------------------------------------------------------- the store object

  /** What openExperimentStore makes of the directory: the corpus is not touched
      when the run journal is too short. */
  function OpenedAt(d: Disk, committedRuns: int, committedEntries: int): Disk {
    var runs := Kept(Repaired(d.runs), committedRuns);
    var corpus := Kept(Repaired(d.corpus), committedEntries);
    if runs.None? then d.(runs := Repaired(d.runs))
    else if corpus.None? then d.(runs := runs.value, corpus := Repaired(d.corpus))
    else d.(runs := runs.value, corpus := corpus.value)
  }

  /** It succeeds when both journals are long enough and every kept entry is readable. */
  predicate Openable(encode: Encoder, d: Disk, committedRuns: int, committedEntries: int) {
    && 0 <= committedRuns <= |d.runs.records| && 0 <= committedEntries <= |d.corpus.records|
    && Readable(encode, d.corpus.records[..committedEntries])
  }

  /** The hooks write; each is one event of the system. */
  class Store {
    var runs: Log<RunRecord>
    var corpus: Log<Entry>
    var checkpoint: Option<SavedState>
    ghost var losses: Losses

    ghost function Directory(): Disk
      reads this
    {
      Disk(runs, corpus, checkpoint, losses)
    }

    constructor (d: Disk)
      ensures Directory() == d
    {
      runs, corpus, checkpoint, losses := d.runs, d.corpus, d.checkpoint, d.losses;
    }

    method Open(encode: Encoder, committedRuns: int, committedEntries: int) returns (loaded: Option<seq<Entry>>)
      modifies this`runs, this`corpus
      ensures loaded.Some? <==> Openable(encode, old(Directory()), committedRuns, committedEntries)
      ensures committedRuns >= 0 && committedEntries >= 0 ==>
                Directory() == OpenedAt(old(Directory()), committedRuns, committedEntries)
      ensures loaded.Some? ==> loaded.value == corpus.records && |loaded.value| == committedEntries
    {
      if committedRuns < 0 {
        return None;
      }
      runs := Repaired(runs);
      if |runs.records| < committedRuns {
        return None;
      }
      runs := runs.(records := runs.records[..committedRuns]);
      if committedEntries < 0 {
        return None;
      }
      corpus := Repaired(corpus);
      if |corpus.records| < committedEntries {
        return None;
      }
      corpus := corpus.(records := corpus.records[..committedEntries]);
      if !Readable(encode, corpus.records) {
        return None;
      }
      loaded := Some(corpus.records);
    }

    /** The first Write event of a completion that retains its execution. */
    method OnCorpusEntry(entry: Entry, ghost c: Settings, ghost s: Schedule, ghost index: int, ghost o: Outcome)
      requires CanComplete(c, s, index) && NewEntry(c, s, index, o) == Some(entry)
      modifies this`corpus
      ensures WriteStep(c, System(old(Directory()), Completing(s, index, o)))
           == Some(System(Directory(), EntryWritten(s, index, o)))
    {
      corpus := Appended(corpus, entry);
    }

    /** The last Write event of a completion. */
    method OnRunComplete(run: RunRecord, ghost c: Settings, ghost s: Schedule, ghost index: int, ghost o: Outcome)
      requires CanComplete(c, s, index) && run == FinalRecord(c, s, s.q.inFlight[index], o)
      modifies this`runs
      ensures var phase := if NewEntry(c, s, index, o).Some? then EntryWritten(s, index, o) else Completing(s, index, o);
              WriteStep(c, System(old(Directory()), phase)) == Some(System(Directory(), Running(Complete(c, s, index, o))))
    {
      hide FinalRecord, NewEntry, Complete;
      runs := Appended(runs, run);
    }

    /** The SaveState event. */
    method OnCheckpoint(state: SavedState, ghost c: Settings, ghost encode: Encoder, ghost fingerprint: string, ghost s: Schedule)
      requires state == Save(c, fingerprint, s)
      modifies this`checkpoint, this`losses
      ensures Next(c, encode, fingerprint, System(old(Directory()), Running(s)), SaveState)
           == Some(System(Directory(), Running(s)))
    {
      hide Save;
      checkpoint, losses := Some(state), s.losses;
    }
  }

  /** On any directory a crash leaves behind, opening at the watermarks of its own
      checkpoint succeeds exactly when the committed entries are readable; opening
      twice, after a crash in between, changes nothing more. */
  lemma OpensWhenReadable(c: Settings, encode: Encoder, fingerprint: string, d: Disk)
    requires DiskOk(c, fingerprint, d) && d.checkpoint.Some?
    ensures InRange(d)
    ensures var k, n := d.checkpoint.value.runSummaryCount, d.checkpoint.value.corpus.entryCount;
            && (Openable(encode, d, k, n) <==> Readable(encode, CommittedEntries(d)))
            && OpenedAt(d, k, n) == Calibrated(d) && OpenedAt(OpenedAt(d, k, n), k, n) == OpenedAt(d, k, n)
            && DiskOk(c, fingerprint, OpenedAt(d, k, n))
  {
    hide Inv, Valid, Restorable, Resume, Readable;
    var cp := d.checkpoint.value;
    var runs, entries := d.runs.records[..cp.runSummaryCount], d.corpus.records[..cp.corpus.entryCount];
    assert runs[..|runs|] == runs && entries[..|entries|] == entries;
    CutsKeepRecoverable(c, fingerprint, cp, d.runs.records, d.corpus.records, d.losses, cp.runSummaryCount, cp.corpus.entryCount);
  }
}
