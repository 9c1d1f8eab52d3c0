/** The experiment's configuration and the incremental report. Digests are
    opaque numbers; NO_DIGEST stands for the empty string. */
module Aggregation {
  import opened Keys
  import opened Corpora

  /** The settings the scheduler reads, after `New` has filled in defaults. */
  datatype Settings = Settings(runs: int, baseSeed: int, parallelism: int, initialPopulation: int,
                               mutationsPerNewState: int, maxMutationsPerCorpus: int,
                               seedInterval: int, seedsPerInterval: int, maxReady: int, corpus: Config)

  datatype Kind = Initial | Mutation | PeriodicRandom

  type Digest = int
  const NO_DIGEST: Digest := 0

  datatype RunRecord = RunRecord(
    index: nat, seed: int, succeeded: bool, candidateId: nat, kind: Kind, parent: Option<nat>, depth: int,
    durationMicros: int, stateKeys: seq<Key>,
    planDigest: Digest, traceDigest: Digest, pathDigest: Digest, newPlan: bool, newTrace: bool, newPath: bool,
    retained: bool, corpusId: Option<nat>, admission: Option<Reason>,
    newStateKeys: seq<Key>, newSemanticStates: nat, newSemanticTransitions: nat)

  // The report's counters, grouped by what moves them.

  datatype RunTally = RunTally(completed: int, succeeded: int, failed: int, initial: int, mutations: int, periodic: int)

  datatype UniqueTally = UniqueTally(modelStates: int, semanticStates: int, semanticTransitions: int,
                                     plans: int, traces: int, paths: int)

  datatype CorpusTally = CorpusTally(entries: int, counts: map<Reason, int>, rejectedRaw: int, rejectedNoNovelty: int,
                                     byState: int, byTransition: int)

  datatype QueueTally = QueueTally(generated: int, admitted: int, discarded: int, peak: int, errors: int)

  datatype Report = Report(settings: Settings, runs: RunTally, unique: UniqueTally, corpus: CorpusTally, queue: QueueTally)

  datatype Digests = Digests(plans: set<Digest>, traces: set<Digest>, paths: set<Digest>)

  datatype Aggregate = Aggregate(report: Report, completed: set<int>, states: set<Key>, seen: Digests, durations: seq<int>)

  datatype Snapshot = Snapshot(report: Report, completedIndices: seq<int>, modelStateKeys: seq<Key>,
                               planDigests: seq<Digest>, traceDigests: seq<Digest>, pathDigests: seq<Digest>,
                               durations: seq<int>)

  // ---------------------------------------------------------------- specification

  function EmptyReport(settings: Settings): Report {
    Report(settings, RunTally(0, 0, 0, 0, 0, 0), UniqueTally(0, 0, 0, 0, 0, 0), CorpusTally(0, map[], 0, 0, 0, 0),
           QueueTally(0, 0, 0, 0, 0))
  }

  function EmptyAggregate(settings: Settings): Aggregate {
    Aggregate(EmptyReport(settings), {}, {}, Digests({}, {}, {}), [])
  }

  function Remembered(digests: set<Digest>, digest: Digest): set<Digest> {
    if digest == NO_DIGEST then digests else digests + {digest}
  }

  predicate IsNew(digests: set<Digest>, digest: Digest) {
    digest != NO_DIGEST && digest !in digests
  }

  function ClassifiedRun(seen: Digests, run: RunRecord): RunRecord {
    run.(newPlan := IsNew(seen.plans, run.planDigest), newTrace := IsNew(seen.traces, run.traceDigest),
         newPath := IsNew(seen.paths, run.pathDigest))
  }

  function Classified(seen: Digests, run: RunRecord): Digests {
    Digests(Remembered(seen.plans, run.planDigest), Remembered(seen.traces, run.traceDigest),
            Remembered(seen.paths, run.pathDigest))
  }

  function Count(c: CorpusTally, reason: Reason): int {
    if reason in c.counts then c.counts[reason] else 0
  }

  /** addCorpusAdmission. */
  function WithAdmission(c: CorpusTally, admission: Option<Reason>): CorpusTally {
    match admission
    case None => c
    case Some(reason) =>
      var counts := c.counts[reason := Count(c, reason) + 1];
      match reason
      case RetainedRaw => c.(counts := counts)
      case RejectedRawThreshold => c.(counts := counts, rejectedRaw := c.rejectedRaw + 1)
      case RejectedNoSemanticNovelty => c.(counts := counts, rejectedNoNovelty := c.rejectedNoNovelty + 1)
      case RetainedSemanticState => c.(counts := counts, byState := c.byState + 1)
      case RetainedSemanticTransition => c.(counts := counts, byTransition := c.byTransition + 1)
      case RetainedSemanticStateAndTransition =>
        c.(counts := counts, byState := c.byState + 1, byTransition := c.byTransition + 1)
  }

  function WithOutcome(r: RunTally, run: RunRecord): RunTally {
    r.(completed := r.completed + 1,
       succeeded := if run.succeeded then r.succeeded + 1 else r.succeeded,
       failed := if run.succeeded then r.failed else r.failed + 1,
       periodic := if run.kind.PeriodicRandom? then r.periodic + 1 else r.periodic)
  }

  /** The executed-candidate counters RunFeedback bumps before addRun. */
  function WithKind(r: RunTally, kind: Kind): RunTally {
    match kind
    case Mutation => r.(mutations := r.mutations + 1)
    case Initial => r.(initial := r.initial + 1)
    case PeriodicRandom => r
  }

  function WithNovelty(u: UniqueTally, run: RunRecord, states: set<Key>, seen: Digests): UniqueTally {
    UniqueTally(|states|, u.semanticStates + run.newSemanticStates, u.semanticTransitions + run.newSemanticTransitions,
                |seen.plans|, |seen.traces|, |seen.paths|)
  }

  /** addRun on a run that is not yet aggregated. */
  function Added(a: Aggregate, run: RunRecord, entries: int): Aggregate {
    var states := a.states + Elements(run.stateKeys);
    var report := a.report.(runs := WithOutcome(a.report.runs, run),
                            unique := WithNovelty(a.report.unique, run, states, a.seen),
                            corpus := WithAdmission(a.report.corpus, run.admission).(entries := entries));
    Aggregate(report, a.completed + {run.index}, states, a.seen, a.durations + [run.durationMicros])
  }

  /** Everything one completion does to the aggregate, in the loop's order:
      classify the digests, count the candidate kind, add the run. */
  function Absorbed(a: Aggregate, run: RunRecord, entries: int): Aggregate {
    Added(a.(seen := Classified(a.seen, run), report := a.report.(runs := WithKind(a.report.runs, run.kind))), run, entries)
  }

  function WithPeak(a: Aggregate, peak: int): Aggregate {
    a.(report := a.report.(queue := a.report.queue.(peak := peak)))
  }

  function Snapshotted(a: Aggregate, entries: int): Snapshot {
    Snapshot(a.report.(corpus := a.report.corpus.(entries := entries)), Sorted(a.completed), Sorted(a.states),
             Sorted(a.seen.plans), Sorted(a.seen.traces), Sorted(a.seen.paths), a.durations)
  }

  function Unpacked(s: Snapshot): Aggregate {
    Aggregate(s.report, Elements(s.completedIndices), Elements(s.modelStateKeys),
              Digests(Elements(s.planDigests), Elements(s.traceDigests), Elements(s.pathDigests)), s.durations)
  }

  function Retained(c: CorpusTally): int {
    Count(c, RetainedRaw) + Count(c, RetainedSemanticState) + Count(c, RetainedSemanticTransition)
    + Count(c, RetainedSemanticStateAndTransition)
  }

  /** validateCorpusAdmissions, without the floating-point density. */
  predicate GoodAdmissions(c: CorpusTally, succeeded: int) {
    && (forall reason | reason in c.counts :: c.counts[reason] >= 0)
    && Retained(c) + Count(c, RejectedRawThreshold) + Count(c, RejectedNoSemanticNovelty) <= succeeded
    && Retained(c) == c.entries
    && c.rejectedRaw == Count(c, RejectedRawThreshold)
    && c.rejectedNoNovelty == Count(c, RejectedNoSemanticNovelty)
    && c.byState == Count(c, RetainedSemanticState) + Count(c, RetainedSemanticStateAndTransition)
    && c.byTransition == Count(c, RetainedSemanticTransition) + Count(c, RetainedSemanticStateAndTransition)
  }

  predicate GoodRuns(r: RunTally, completed: int) {
    && r.completed == completed
    && r.succeeded + r.failed == completed
    && r.initial + r.mutations + r.periodic == completed
  }

  predicate GoodQueue(q: QueueTally, mutations: int, maxReady: int) {
    && q.generated >= 0 && q.admitted >= 0 && q.discarded >= 0
    && mutations <= q.admitted
    && 0 <= q.peak <= maxReady
  }

  predicate GoodReport(r: Report, settings: Settings, completed: int) {
    && r.settings == settings
    && GoodRuns(r.runs, completed)
    && GoodQueue(r.queue, r.runs.mutations, settings.maxReady)
    && r.unique.semanticStates >= 0 && r.unique.semanticTransitions >= 0
    && GoodAdmissions(r.corpus, r.runs.succeeded)
  }

  ghost predicate ValidSnapshot(s: Snapshot, settings: Settings, completed: int) {
    && GoodReport(s.report, settings, completed)
    && |s.completedIndices| == completed && |s.durations| == completed
    && Distinct(s.completedIndices) && (forall i | i in s.completedIndices :: 0 <= i < settings.runs)
    && Distinct(s.modelStateKeys)
    && GoodDigests(s.planDigests) && GoodDigests(s.traceDigests) && GoodDigests(s.pathDigests)
    && s.report.unique.modelStates == |s.modelStateKeys| && s.report.unique.plans == |s.planDigests|
    && s.report.unique.traces == |s.traceDigests| && s.report.unique.paths == |s.pathDigests|
  }

  ghost predicate GoodDigests(digests: seq<Digest>) {
    Distinct(digests) && NO_DIGEST !in digests
  }

  // ---------------------------------------------------------------- Validate and its loops

  /** validateUniqueInts and validateUniqueInt64s: `bounded` asks for the range. */
  method ValidateUnique(values: seq<int>, bounded: bool, low: int, high: int) returns (ok: bool)
    ensures ok <==> Distinct(values) && (bounded ==> forall v | v in values :: low <= v < high)
  {
    var seen: set<int> := {};
    for i := 0 to |values|
      invariant seen == Elements(values[..i])
      invariant Distinct(values[..i])
      invariant bounded ==> forall j :: 0 <= j < i ==> low <= values[j] < high
    {
      assert values[..i + 1] == values[..i] + [values[i]];
      if bounded && (values[i] < low || values[i] >= high) {
        assert values[i] in values;
        return false;
      }
      if values[i] in seen {
        var j :| 0 <= j < i && values[..i][j] == values[i];
        assert values[j] == values[i];
        return false;
      }
      seen := seen + {values[i]};
    }
    assert values[..|values|] == values;
    ok := true;
  }

  method ValidateDigests(values: seq<Digest>) returns (ok: bool)
    ensures ok <==> GoodDigests(values)
  {
    for i := 0 to |values|
      invariant NO_DIGEST !in values[..i]
    {
      assert values[..i + 1] == values[..i] + [values[i]];
      if values[i] == NO_DIGEST {
        return false;
      }
    }
    assert values[..|values|] == values;
    ok := ValidateUnique(values, false, 0, 0);
  }

  method ValidateSnapshot(s: Snapshot, settings: Settings, completed: int) returns (ok: bool)
    ensures ok <==> ValidSnapshot(s, settings, completed)
  {
    if !GoodReport(s.report, settings, completed) || |s.completedIndices| != completed || |s.durations| != completed {
      return false;
    }
    var indices := ValidateUnique(s.completedIndices, true, 0, settings.runs);
    if !indices { return false; }
    var states := ValidateUnique(s.modelStateKeys, false, 0, 0);
    if !states { return false; }
    var plans := ValidateDigests(s.planDigests);
    if !plans { return false; }
    var traces := ValidateDigests(s.traceDigests);
    if !traces { return false; }
    var paths := ValidateDigests(s.pathDigests);
    if !paths { return false; }
    ok := s.report.unique.modelStates == |s.modelStateKeys| && s.report.unique.plans == |s.planDigests|
          && s.report.unique.traces == |s.traceDigests| && s.report.unique.paths == |s.pathDigests|;
  }

  // ---------------------------------------------------------------- the accumulator

  /** markNew. */
  method MarkNew(digests: set<Digest>, digest: Digest) returns (isNew: bool, now: set<Digest>)
    ensures isNew == IsNew(digests, digest) && now == Remembered(digests, digest)
  {
    now := digests;
    if digest == NO_DIGEST || digest in digests {
      return false, now;
    }
    isNew, now := true, digests + {digest};
  }

  method InsertAll(keys: set<Key>, more: seq<Key>) returns (all: set<Key>)
    ensures all == keys + Elements(more)
  {
    all := keys;
    for i := 0 to |more|
      invariant all == keys + Elements(more[..i])
    {
      assert more[..i + 1] == more[..i] + [more[i]];
      all := all + {more[i]};
    }
    assert more[..|more|] == more;
  }

  class Accumulator {
    var report: Report
    var completed: set<int>
    var states: set<Key>
    var plans: set<Digest>
    var traces: set<Digest>
    var paths: set<Digest>
    var durations: seq<int>

    function View(): Aggregate
      reads this
    {
      Aggregate(report, completed, states, Digests(plans, traces, paths), durations)
    }

    constructor (settings: Settings)
      ensures View() == EmptyAggregate(settings)
    {
      report := EmptyReport(settings);
      completed, states, plans, traces, paths, durations := {}, {}, {}, {}, {}, [];
    }

    /** restoreReportAccumulator. */
    constructor Restore(s: Snapshot)
      ensures View() == Unpacked(s)
    {
      report := s.report;
      completed, states := Elements(s.completedIndices), Elements(s.modelStateKeys);
      plans, traces, paths := Elements(s.planDigests), Elements(s.traceDigests), Elements(s.pathDigests);
      durations := s.durations;
    }

    method Classify(run: RunRecord) returns (classified: RunRecord)
      modifies this
      ensures classified == ClassifiedRun(old(View()).seen, run)
      ensures View() == old(View()).(seen := Classified(old(View()).seen, run))
    {
      var newPlan, newTrace, newPath;
      newPlan, plans := MarkNew(plans, run.planDigest);
      newTrace, traces := MarkNew(traces, run.traceDigest);
      newPath, paths := MarkNew(paths, run.pathDigest);
      classified := run.(newPlan := newPlan, newTrace := newTrace, newPath := newPath);
    }

    method CountKind(kind: Kind)
      modifies this`report
      ensures View() == old(View()).(report := old(report).(runs := WithKind(old(report).runs, kind)))
    {
      match kind
      case Mutation => report := report.(runs := report.runs.(mutations := report.runs.mutations + 1));
      case Initial => report := report.(runs := report.runs.(initial := report.runs.initial + 1));
      case PeriodicRandom =>
    }

    method AddRun(run: RunRecord, entries: int) returns (ok: bool)
      modifies this
      ensures ok <==> run.index !in old(completed)
      ensures View() == if ok then Added(old(View()), run, entries) else old(View())
    {
      if run.index in completed {
        return false;
      }
      completed := completed + {run.index};
      var runs := report.runs.(completed := report.runs.completed + 1);
      if run.succeeded {
        runs := runs.(succeeded := runs.succeeded + 1);
      } else {
        runs := runs.(failed := runs.failed + 1);
      }
      durations := durations + [run.durationMicros];
      states := InsertAll(states, run.stateKeys);
      if run.kind.PeriodicRandom? {
        runs := runs.(periodic := runs.periodic + 1);
      }
      report := report.(runs := runs,
                        unique := WithNovelty(report.unique, run, states, Digests(plans, traces, paths)),
                        corpus := WithAdmission(report.corpus, run.admission).(entries := entries));
      ok := true;
    }

    method SetQueue(queue: QueueTally)
      modifies this`report
      ensures View() == old(View()).(report := old(report).(queue := queue))
    {
      report := report.(queue := queue);
    }

    /** The deepest the ready queue has been. */
    method RaisePeak(depth: int)
      modifies this`report
      ensures View() == WithPeak(old(View()), if depth > old(report).queue.peak then depth else old(report).queue.peak)
    {
      if depth > report.queue.peak {
        report := report.(queue := report.queue.(peak := depth));
      }
    }

    method TakeSnapshot(entries: int) returns (s: Snapshot)
      modifies this`report
      ensures View() == old(View()).(report := old(report).(corpus := old(report).corpus.(entries := entries)))
      ensures s == Snapshotted(old(View()), entries)
    {
      report := report.(corpus := report.corpus.(entries := entries));
      s := Snapshot(report, Sorted(completed), Sorted(states), Sorted(plans), Sorted(traces), Sorted(paths), durations);
    }
  }

  // ---------------------------------------------------------------- properties

  ghost predicate CountsMatch(a: Aggregate) {
    && NO_DIGEST !in a.seen.plans && NO_DIGEST !in a.seen.traces && NO_DIGEST !in a.seen.paths
    && a.report.unique.modelStates == |a.states| && a.report.unique.plans == |a.seen.plans|
    && a.report.unique.traces == |a.seen.traces| && a.report.unique.paths == |a.seen.paths|
  }

  /** What the accumulator guarantees between two completions. */
  ghost predicate Consistent(a: Aggregate, settings: Settings) {
    && GoodReport(a.report, settings, |a.completed|)
    && |a.durations| == |a.completed|
    && (forall i | i in a.completed :: 0 <= i < settings.runs)
    && CountsMatch(a)
  }

  predicate Keeps(admission: Option<Reason>) {
    admission.Some? && !admission.value.RejectedRawThreshold? && !admission.value.RejectedNoSemanticNovelty?
  }

  /** One admission moves exactly one side of the balance that
      validateCorpusAdmissions checks. */
  lemma AdmissionBalance(c: CorpusTally, admission: Option<Reason>, succeeded: int, now: int)
    requires GoodAdmissions(c, succeeded)
    requires now >= succeeded && (admission.Some? ==> now > succeeded)
    ensures GoodAdmissions(WithAdmission(c, admission).(entries := c.entries + (if Keeps(admission) then 1 else 0)), now)
  {
    if admission.Some? {
      var added := WithAdmission(c, admission).(entries := c.entries + (if Keeps(admission) then 1 else 0));
      assert added.counts == c.counts[admission.value := Count(c, admission.value) + 1];
      CountStep(c, added, admission.value, RetainedRaw);
      CountStep(c, added, admission.value, RetainedSemanticState);
      CountStep(c, added, admission.value, RetainedSemanticTransition);
      CountStep(c, added, admission.value, RetainedSemanticStateAndTransition);
      CountStep(c, added, admission.value, RejectedRawThreshold);
      CountStep(c, added, admission.value, RejectedNoSemanticNovelty);
    }
  }

  lemma CountStep(c: CorpusTally, added: CorpusTally, counted: Reason, reason: Reason)
    requires added.counts == c.counts[counted := Count(c, counted) + 1]
    ensures Count(added, reason) == Count(c, reason) + (if reason == counted then 1 else 0)
  {
  }

  /** Snapshot and restore lose nothing, and what is written always validates. */
  lemma SnapshotRoundTrip(a: Aggregate, settings: Settings)
    requires Consistent(a, settings)
    ensures Unpacked(Snapshotted(a, a.report.corpus.entries)) == a
    ensures ValidSnapshot(Snapshotted(a, a.report.corpus.entries), settings, |a.completed|)
  {
    var s := Snapshotted(a, a.report.corpus.entries);
    InElements(s.planDigests);
    InElements(s.traceDigests);
    InElements(s.pathDigests);
    InElements(s.completedIndices);
  }

  lemma InElements(s: seq<int>)
    ensures forall x :: x in s <==> x in Elements(s)
  {
  }

  /** Sizes follow the sets, and no empty digest is ever remembered. */
  lemma AbsorbKeepsCounts(a: Aggregate, run: RunRecord, entries: int)
    requires CountsMatch(a)
    ensures CountsMatch(Absorbed(a, run, entries))
  {
    hide WithAdmission, WithOutcome, WithKind, Elements;
  }

  lemma AbsorbKeepsRuns(r: RunTally, run: RunRecord, completed: int)
    requires GoodRuns(r, completed)
    ensures GoodRuns(WithOutcome(WithKind(r, run.kind), run), completed + 1)
    ensures WithOutcome(WithKind(r, run.kind), run).succeeded == r.succeeded + (if run.succeeded then 1 else 0)
    ensures WithOutcome(WithKind(r, run.kind), run).mutations == r.mutations + (if run.kind.Mutation? then 1 else 0)
  {
  }

  /** A completed run keeps the aggregate consistent. */
  lemma AbsorbKeepsConsistent(a: Aggregate, run: RunRecord, entries: int, settings: Settings)
    requires Consistent(a, settings)
    requires 0 <= run.index < settings.runs && run.index !in a.completed
    requires run.admission.Some? ==> run.succeeded
    requires entries == a.report.corpus.entries + (if Keeps(run.admission) then 1 else 0)
    requires run.kind.Mutation? ==> a.report.runs.mutations < a.report.queue.admitted
    ensures Consistent(Absorbed(a, run, entries), settings)
  {
    hide CountsMatch, GoodRuns, GoodAdmissions, WithAdmission, WithOutcome, WithKind, Classified, Elements, Keeps;
    var after := Absorbed(a, run, entries);
    assert |after.completed| == |a.completed| + 1;
    AbsorbKeepsCounts(a, run, entries);
    AbsorbKeepsRuns(a.report.runs, run, |a.completed|);
    AdmissionBalance(a.report.corpus, run.admission, a.report.runs.succeeded, after.report.runs.succeeded);
  }
}
