/** What the report says about runs.jsonl: every figure is a count over the journaled runs. */
module ReportMeaning {
  import opened Keys
  import opened Corpora
  import opened Aggregation
  import opened Lifecycle
  import opened SchedulerSpec
  import opened SchedulerInvariant

  datatype Feature = Success | Failure | OfKind(kind: Kind) | Decided(reason: Reason)

  predicate Has(r: RunRecord, f: Feature) {
    match f
    case Success => r.succeeded
    case Failure => !r.succeeded
    case OfKind(kind) => r.kind == kind
    case Decided(reason) => r.admission == Some(reason)
  }

  function Runs(history: seq<RunRecord>, f: Feature): nat {
    if history == [] then 0
    else Runs(history[..|history| - 1], f) + if Has(history[|history| - 1], f) then 1 else 0
  }

  datatype Sum = SemanticStates | SemanticTransitions

  function Novelty(history: seq<RunRecord>, of: Sum): nat {
    if history == [] then 0
    else
      var last := history[|history| - 1];
      Novelty(history[..|history| - 1], of)
      + if of.SemanticStates? then last.newSemanticStates else last.newSemanticTransitions
  }

  datatype DigestKind = Plans | Traces | Paths

  function DigestOf(r: RunRecord, kind: DigestKind): Digest {
    match kind
    case Plans => r.planDigest
    case Traces => r.traceDigest
    case Paths => r.pathDigest
  }

  predicate MarkedNew(r: RunRecord, kind: DigestKind) {
    match kind
    case Plans => r.newPlan
    case Traces => r.newTrace
    case Paths => r.newPath
  }

  function SeenOf(seen: Digests, kind: DigestKind): set<Digest> {
    match kind
    case Plans => seen.plans
    case Traces => seen.traces
    case Paths => seen.paths
  }

  ghost predicate Appears(history: seq<RunRecord>, kind: DigestKind, digest: Digest) {
    exists i :: 0 <= i < |history| && DigestOf(history[i], kind) == digest
  }

  ghost predicate Visited(history: seq<RunRecord>, key: Key) {
    exists i :: 0 <= i < |history| && key in history[i].stateKeys
  }

  // ---------------------------------------------------------------- the meaning of each figure

  ghost predicate TalliesMean(r: Report, history: seq<RunRecord>) {
    && r.runs.completed == |history|
    && r.runs.succeeded == Runs(history, Success) && r.runs.failed == Runs(history, Failure)
    && r.runs.initial == Runs(history, OfKind(Initial)) && r.runs.mutations == Runs(history, OfKind(Mutation))
    && r.runs.periodic == Runs(history, OfKind(PeriodicRandom))
    && r.unique.semanticStates == Novelty(history, SemanticStates)
    && r.unique.semanticTransitions == Novelty(history, SemanticTransitions)
    && forall reason :: Count(r.corpus, reason) == Runs(history, Decided(reason))
  }

  ghost predicate SetsMean(a: Aggregate, history: seq<RunRecord>) {
    && (forall key :: key in a.states <==> Visited(history, key))
    && (forall kind, digest :: digest in SeenOf(a.seen, kind) <==> digest != NO_DIGEST && Appears(history, kind, digest))
    && a.durations == Durations(history)
  }

  function Durations(history: seq<RunRecord>): seq<int> {
    seq(|history|, i requires 0 <= i < |history| => history[i].durationMicros)
  }

  /** A run is marked new per kind exactly when no earlier run had that digest. */
  ghost predicate FlagsMean(history: seq<RunRecord>) {
    forall i, kind :: 0 <= i < |history| ==>
      (MarkedNew(history[i], kind) <==>
         DigestOf(history[i], kind) != NO_DIGEST && !Appears(history[..i], kind, DigestOf(history[i], kind)))
  }

  ghost predicate ReportOk(a: Aggregate, history: seq<RunRecord>) {
    TalliesMean(a.report, history) && SetsMean(a, history) && FlagsMean(history)
  }

  // ---------------------------------------------------------------- one more run

  lemma RunsStep(history: seq<RunRecord>, run: RunRecord, f: Feature)
    ensures Runs(history + [run], f) == Runs(history, f) + (if Has(run, f) then 1 else 0)
  {
    assert (history + [run])[..|history|] == history;
  }

  lemma NoveltyStep(history: seq<RunRecord>, run: RunRecord)
    ensures Novelty(history + [run], SemanticStates) == Novelty(history, SemanticStates) + run.newSemanticStates
    ensures Novelty(history + [run], SemanticTransitions) == Novelty(history, SemanticTransitions) + run.newSemanticTransitions
  {
    assert (history + [run])[..|history|] == history;
  }

  lemma AppearsStep(history: seq<RunRecord>, run: RunRecord, kind: DigestKind, digest: Digest)
    ensures Appears(history + [run], kind, digest) <==> Appears(history, kind, digest) || DigestOf(run, kind) == digest
  {
    var all := history + [run];
    if i :| 0 <= i < |history| && DigestOf(history[i], kind) == digest {
      assert all[i] == history[i];
    }
    assert all[|history|] == run;
  }

  lemma VisitedStep(history: seq<RunRecord>, run: RunRecord, key: Key)
    ensures Visited(history + [run], key) <==> Visited(history, key) || key in run.stateKeys
  {
    var all := history + [run];
    if i :| 0 <= i < |history| && key in history[i].stateKeys {
      assert all[i] == history[i];
    }
    assert all[|history|] == run;
  }

  lemma AdmissionCounts(t: CorpusTally, admission: Option<Reason>, reason: Reason)
    ensures Count(WithAdmission(t, admission), reason) == Count(t, reason) + (if admission == Some(reason) then 1 else 0)
  {
  }

  lemma TalliesStep(a: Aggregate, history: seq<RunRecord>, run: RunRecord, entries: int)
    requires TalliesMean(a.report, history)
    ensures TalliesMean(Absorbed(a, run, entries).report, history + [run])
  {
    RunsStep(history, run, Success);
    RunsStep(history, run, Failure);
    RunsStep(history, run, OfKind(Initial));
    RunsStep(history, run, OfKind(Mutation));
    RunsStep(history, run, OfKind(PeriodicRandom));
    NoveltyStep(history, run);
    hide Runs, Novelty, Classified, Elements, WithAdmission, Count;
    forall reason
      ensures Count(Absorbed(a, run, entries).report.corpus, reason) == Runs(history + [run], Decided(reason))
    {
      RunsStep(history, run, Decided(reason));
      AdmissionCounts(a.report.corpus, run.admission, reason);
      EntriesDoNotCount(WithAdmission(a.report.corpus, run.admission), entries, reason);
    }
  }

  lemma EntriesDoNotCount(t: CorpusTally, entries: int, reason: Reason)
    ensures Count(t.(entries := entries), reason) == Count(t, reason)
  {
  }

  lemma SeenStep(seen: Digests, run: RunRecord, kind: DigestKind, digest: Digest)
    ensures digest in SeenOf(Classified(seen, run), kind)
        <==> digest in SeenOf(seen, kind) || (digest != NO_DIGEST && DigestOf(run, kind) == digest)
  {
  }

  lemma SetsStep(a: Aggregate, history: seq<RunRecord>, run: RunRecord, entries: int)
    requires SetsMean(a, history)
    ensures SetsMean(Absorbed(a, run, entries), history + [run])
  {
    hide Appears, Visited, WithAdmission, WithOutcome, WithKind, WithNovelty, Classified, SeenOf, DigestOf;
    var after, longer := Absorbed(a, run, entries), history + [run];
    forall key
      ensures key in after.states <==> Visited(longer, key)
    {
      VisitedStep(history, run, key);
    }
    forall kind, digest
      ensures digest in SeenOf(after.seen, kind) <==> digest != NO_DIGEST && Appears(longer, kind, digest)
    {
      AppearsStep(history, run, kind, digest);
      SeenStep(a.seen, run, kind, digest);
    }
    assert Durations(longer) == Durations(history) + [run.durationMicros];
  }

  lemma FlagsStep(history: seq<RunRecord>, run: RunRecord)
    requires FlagsMean(history)
    requires forall kind :: MarkedNew(run, kind) <==>
                            DigestOf(run, kind) != NO_DIGEST && !Appears(history, kind, DigestOf(run, kind))
    ensures FlagsMean(history + [run])
  {
    hide Appears, MarkedNew, DigestOf;
    var all := history + [run];
    assert all[..|history|] == history;
    assert forall i :: 0 <= i < |history| ==> all[..i] == history[..i] && all[i] == history[i];
  }

  /** The flags of a completed run compare it with what was seen before. */
  lemma FlagsTold(c: Settings, s: Schedule, task: Scheduled, o: Outcome, kind: DigestKind)
    requires task.index >= 0
    ensures var run := FinalRecord(c, s, task, o);
            MarkedNew(run, kind) <==> DigestOf(run, kind) != NO_DIGEST && DigestOf(run, kind) !in SeenOf(s.agg.seen, kind)
  {
    hide Verdicts;
  }

  lemma StartReport(c: Settings, plans: seq<Option<Plan>>)
    requires WellConfigured(c)
    ensures ReportOk(Start(c, plans).agg, [])
  {
    hide Last, Seeds;
  }

  lemma CompleteReport(c: Settings, s: Schedule, index: int, o: Outcome)
    requires ReportOk(s.agg, s.history) && index in s.q.inFlight && s.q.inFlight[index].index >= 0
    requires s.n.nextSeedAt > 0 ==> c.seedInterval > 0
    ensures ReportOk(Complete(c, s, index, o).agg, Complete(c, s, index, o).history)
  {
    hide FinalRecord, CorpusAfter, Absorbed, TalliesMean, FlagsMean, Appears, MarkedNew, DigestOf, SeenOf, CountersAfter,
         PendingAfter;
    var task := s.q.inFlight[index];
    var run := FinalRecord(c, s, task, o);
    TalliesStep(s.agg, s.history, run, |CorpusAfter(c, s, task, o).entries|);
    SetsStep(s.agg, s.history, run, |CorpusAfter(c, s, task, o).entries|);
    forall kind
      ensures MarkedNew(run, kind) <==>
                DigestOf(run, kind) != NO_DIGEST && !Appears(s.history, kind, DigestOf(run, kind))
    {
      FlagsTold(c, s, task, o, kind);
    }
    FlagsStep(s.history, run);
  }

  /** The queue's figures are no part of it. */
  lemma SameReport(a: Aggregate, queue: QueueTally, history: seq<RunRecord>)
    requires ReportOk(a, history)
    ensures ReportOk(WithQueue(a, queue), history)
  {
    hide Runs, Novelty, Appears, Visited;
  }
}
