/** Where candidates, run records and corpus entries come from. */
module Lineage {
  import opened Keys
  import opened Corpora
  import opened Aggregation
  import opened Lifecycle
  import opened SchedulerSpec
  import opened SchedulerInvariant
  import opened SchedulerRecovery
  import opened LaunchOrder

  /** A mutation names the entry it was made from and is one generation younger;
      seeds have no parent and generation 0. */
  ghost predicate Descends(entries: seq<Entry>, kind: Kind, parent: Option<nat>, depth: int) {
    if kind.Mutation? then parent.Some? && parent.value < |entries| && depth == entries[parent.value].depth + 1
    else parent.None? && depth == 0
  }

  /** Parents are earlier entries, and the depth counts generations. */
  ghost predicate FamilyOk(entries: seq<Entry>) {
    forall k :: 0 <= k < |entries| ==>
      && entries[k].id == k
      && match entries[k].parent
         case None => entries[k].depth == 0
         case Some(p) => p < k && entries[k].depth == entries[p].depth + 1
  }

  /** The entry is what the recorded run contributed. */
  predicate Contributed(e: Entry, r: RunRecord) {
    && r.corpusId == Some(e.id) && e.runIndex == r.index && e.seed == r.seed && e.parent == r.parent && e.depth == r.depth
    && e.newStates == r.newStateKeys && |e.newSemanticStates| == r.newSemanticStates
    && |e.newSemanticTransitions| == r.newSemanticTransitions
  }

  ghost predicate RecordOk(c: Settings, entries: seq<Entry>, r: RunRecord) {
    && Descends(entries, r.kind, r.parent, r.depth) && r.seed == c.baseSeed + r.index
    && (r.retained <==> r.corpusId.Some?)
    && (r.corpusId.Some? ==> r.corpusId.value < |entries| && Contributed(entries[r.corpusId.value], r))
  }

  ghost predicate HasRun(history: seq<RunRecord>, id: nat) {
    exists i :: 0 <= i < |history| && history[i].corpusId == Some(id)
  }

  ghost predicate CandidateOk(entries: seq<Entry>, candidate: Candidate) {
    Descends(entries, candidate.kind, candidate.parent, candidate.depth)
  }

  ghost predicate QueueFamily(entries: seq<Entry>, ready: seq<Candidate>) {
    forall i :: 0 <= i < |ready| ==> CandidateOk(entries, ready[i])
  }

  ghost predicate TaskFamily(entries: seq<Entry>, m: map<int, Scheduled>) {
    forall k | k in m :: CandidateOk(entries, m[k].candidate)
  }

  ghost predicate RunFamily(c: Settings, entries: seq<Entry>, history: seq<RunRecord>) {
    && (forall i :: 0 <= i < |history| ==> RecordOk(c, entries, history[i]))
    && (forall k :: 0 <= k < |entries| ==> HasRun(history, k))
  }

  ghost predicate LineageOk(c: Settings, s: Schedule) {
    && FamilyOk(s.corpus.entries)
    && QueueFamily(s.corpus.entries, s.q.ready)
    && TaskFamily(s.corpus.entries, Assigned(s.q))
    && RunFamily(c, s.corpus.entries, s.history)
  }

  /** Generations between an entry and the seed it descends from. */
  function Generations(entries: seq<Entry>, k: nat): nat
    requires k < |entries|
    decreases k
  {
    match entries[k].parent
    case None => 0
    case Some(p) => if p < k then 1 + Generations(entries, p) else 0
  }

  lemma {:induction false} DepthCountsGenerations(entries: seq<Entry>, k: nat)
    requires FamilyOk(entries) && k < |entries|
    ensures entries[k].depth == Generations(entries, k)
    decreases k
  {
    if entries[k].parent.Some? {
      DepthCountsGenerations(entries, entries[k].parent.value);
    }
  }

  // ---------------------------------------------------------------- what a completion writes

  /** The record of a run says who ran, under which seed, and what the corpus made of it. */
  lemma RecordTells(c: Settings, s: Schedule, task: Scheduled, o: Outcome)
    requires task.index >= 0
    ensures var run := FinalRecord(c, s, task, o);
            var input := CorpusInput(task, o);
            var verdict := Verdicts(c.corpus, s.corpus, input);
            && run.index == task.index && run.seed == task.seed && run.candidateId == task.candidate.id
            && run.kind == task.candidate.kind && run.parent == task.candidate.parent && run.depth == task.candidate.depth
            && run.durationMicros == o.durationMicros && run.stateKeys == Sorted(Elements(o.states))
            && run.planDigest == o.planDigest && run.traceDigest == o.traceDigest && run.pathDigest == o.pathDigest
            && (run.admission.Some? <==> o.succeeded && |o.states| > 0 && verdict.Considered?)
            && (run.admission.Some? ==> run.admission.value == verdict.reason)
            && (run.retained <==> run.admission.Some? && verdict.retained)
            && (run.succeeded <==> o.succeeded && (|o.states| == 0 || verdict.Considered?))
            && run.corpusId == (if run.retained then Some(|s.corpus.entries|) else None)
    ensures var input := CorpusInput(task, o);
            && input.parent == task.candidate.parent && input.depth == task.candidate.depth && input.runIndex == task.index
            && input.seed == task.seed && input.plan == o.plan && input.states == o.states
            && input.semanticStates == o.semanticStates && input.semanticTransitions == o.semanticTransitions
  {
    hide NewKeys;
  }

  /** The corpus gains exactly the entry the record speaks of. */
  lemma EntryTold(c: Settings, s: Schedule, task: Scheduled, o: Outcome)
    requires task.index >= 0
    ensures var run, after := FinalRecord(c, s, task, o), CorpusAfter(c, s, task, o).entries;
            if run.retained then
              && |after| == |s.corpus.entries| + 1 && after[..|s.corpus.entries|] == s.corpus.entries
              && after[|s.corpus.entries|].id == |s.corpus.entries| && Contributed(after[|s.corpus.entries|], run)
            else after == s.corpus.entries
  {
    hide NewKeys;
  }

  /** How many mutations so much novelty is worth. */
  ghost function Wanted(c: Settings, novelty: nat): int {
    var product := (if novelty == 0 then 1 else novelty) * c.mutationsPerNewState;
    if product < c.maxMutationsPerCorpus then product else c.maxMutationsPerCorpus
  }

  lemma RequestedCount(c: Settings, entry: Entry)
    requires WellConfigured(c)
    ensures RequestFor(c, entry) == Request(entry, Wanted(c, |entry.newSemanticStates| + |entry.newSemanticTransitions|))
    ensures RequestFor(c, entry).count > 0
  {
    var novelty := |entry.newSemanticStates| + |entry.newSemanticTransitions|;
    MutationCountIsCappedProduct(if novelty > 1 then novelty else 1, c.mutationsPerNewState, c.maxMutationsPerCorpus);
    hide MutationCount;
  }

  /** What was decided about an execution. */
  function Decided(c: Settings, s: Schedule, task: Scheduled, o: Outcome): Verdict {
    Verdicts(c.corpus, s.corpus, CorpusInput(task, o))
  }

  lemma KeptTells(c: Settings, s: Schedule, task: Scheduled, o: Outcome)
    requires task.index >= 0
    ensures var run, verdict := FinalRecord(c, s, task, o), Decided(c, s, task, o);
            && (run.retained <==> Judged(o) && verdict.Considered? && verdict.retained)
            && (run.retained ==>
                  && verdict.entry.id == |s.corpus.entries|
                  && CorpusAfter(c, s, task, o).entries == s.corpus.entries + [verdict.entry]
                  && run.newSemanticStates + run.newSemanticTransitions
                     == |verdict.entry.newSemanticStates| + |verdict.entry.newSemanticTransitions|)
  {
    hide NewKeys;
  }

  lemma PendingTells(c: Settings, s: Schedule, task: Scheduled, o: Outcome)
    requires WellConfigured(c)
    ensures var verdict := Decided(c, s, task, o);
            PendingAfter(c, s.n, s.corpus, s.q.pending, task, o)
            == if Judged(o) && verdict.Considered? && verdict.retained && s.n.nextRunIndex < c.runs
               then s.q.pending[verdict.entry.id := RequestFor(c, verdict.entry)] else s.q.pending
  {
    hide Verdicts, CorpusInput, RequestFor;
    var verdict := Decided(c, s, task, o);
    if verdict.Considered? {
      RequestedCount(c, verdict.entry);
    }
  }

  /** Mutations are asked for exactly when an execution is kept while runs are left. Their
      number grows with what was new, up to the maximum. */
  lemma RequestTells(c: Settings, s: Schedule, task: Scheduled, o: Outcome)
    requires WellConfigured(c) && task.index >= 0
    ensures var run, after := FinalRecord(c, s, task, o), CorpusAfter(c, s, task, o).entries;
            var pending := PendingAfter(c, s.n, s.corpus, s.q.pending, task, o);
            if run.retained && s.n.nextRunIndex < c.runs then
              && |after| == |s.corpus.entries| + 1
              && pending == s.q.pending[|s.corpus.entries| :=
                   Request(after[|s.corpus.entries|], Wanted(c, run.newSemanticStates + run.newSemanticTransitions))]
            else pending == s.q.pending
  {
    hide FinalRecord, CorpusAfter, Decided, RequestFor, Wanted, PendingAfter, Judged;
    KeptTells(c, s, task, o);
    PendingTells(c, s, task, o);
    if FinalRecord(c, s, task, o).retained {
      RequestedCount(c, Decided(c, s, task, o).entry);
    }
  }

  // ---------------------------------------------------------------- growing families

  lemma DescendsLater(entries: seq<Entry>, more: seq<Entry>, kind: Kind, parent: Option<nat>, depth: int)
    requires Descends(entries, kind, parent, depth)
    ensures Descends(entries + more, kind, parent, depth)
  {
  }

  lemma FamilyGrows(entries: seq<Entry>, e: Entry, kind: Kind)
    requires FamilyOk(entries) && e.id == |entries| && Descends(entries, kind, e.parent, e.depth)
    ensures FamilyOk(entries + [e])
  {
  }

  lemma QueueFamilyLater(entries: seq<Entry>, more: seq<Entry>, ready: seq<Candidate>)
    requires QueueFamily(entries, ready)
    ensures QueueFamily(entries + more, ready)
  {
  }

  lemma TaskFamilyLater(entries: seq<Entry>, more: seq<Entry>, m: map<int, Scheduled>, done: int)
    requires TaskFamily(entries, m)
    ensures TaskFamily(entries + more, m - {done})
  {
  }

  lemma RunFamilyLater(c: Settings, entries: seq<Entry>, more: seq<Entry>, history: seq<RunRecord>, run: RunRecord)
    requires RunFamily(c, entries, history) && RecordOk(c, entries + more, run)
    requires |more| <= 1 && (|more| == 1 ==> run.corpusId == Some(|entries|))
    ensures RunFamily(c, entries + more, history + [run])
  {
    var all, later := history + [run], entries + more;
    forall i | 0 <= i < |history|
      ensures RecordOk(c, later, history[i])
    {
    }
    forall k | 0 <= k < |later|
      ensures HasRun(all, k)
    {
      if k < |entries| {
        assert HasRun(history, k);
        var i :| 0 <= i < |history| && history[i].corpusId == Some(k);
        assert all[i].corpusId == Some(k);
      } else {
        assert all[|history|].corpusId == Some(k);
      }
    }
  }

  // ---------------------------------------------------------------- steps

  lemma StartLineage(c: Settings, plans: seq<Option<Plan>>)
    requires WellConfigured(c)
    ensures LineageOk(c, Start(c, plans))
  {
    assert Assigned(Start(c, plans).q) == map[];
  }

  lemma SameLineage(c: Settings, s: Schedule, t: Schedule)
    requires LineageOk(c, s) && Assigned(t.q) == Assigned(s.q) && t.corpus == s.corpus && t.history == s.history
    requires QueueFamily(s.corpus.entries, t.q.ready)
    ensures LineageOk(c, t)
  {
    hide FamilyOk, QueueFamily, TaskFamily, RunFamily, Assigned;
  }

  lemma NextTaskDescends(c: Settings, s: Schedule)
    requires CanLaunch(c, s) && s.n.nextCandidateId >= 0 && QueueFamily(s.corpus.entries, s.q.ready)
    ensures CandidateOk(s.corpus.entries, NextTask(c, s).candidate)
    ensures var t := LaunchNext(c, s);
            QueueFamily(s.corpus.entries, t.q.ready) && t.corpus == s.corpus && t.history == s.history
  {
  }

  lemma TaskJoins(entries: seq<Entry>, m: map<int, Scheduled>, k: int, t: Scheduled)
    requires TaskFamily(entries, m) && CandidateOk(entries, t.candidate)
    ensures TaskFamily(entries, m[k := t])
  {
    hide CandidateOk;
  }

  lemma LaunchLineage(c: Settings, s: Schedule)
    requires Inv(c, s) && LineageOk(c, s) && CanLaunch(c, s)
    ensures LineageOk(c, LaunchNext(c, s))
  {
    InFlightIsEarlier(c, s);
    hide Inv, FamilyOk, RunFamily, QueueFamily, TaskFamily, CandidateOk, Assigned, LaunchNext, NextTask, TasksOk;
    LaunchAssigns(c, s);
    NextTaskDescends(c, s);
    TaskJoins(s.corpus.entries, Assigned(s.q), s.n.nextRunIndex, NextTask(c, s));
  }

  lemma {:induction false} FillReadyLineage(c: Settings, s: Schedule)
    requires Inv(c, s) && LineageOk(c, s)
    ensures s.n.nextCandidateId >= 0 && LineageOk(c, FillReady(c, s))
    decreases c.runs - s.n.nextRunIndex
  {
    InFlightIsEarlier(c, s);
    hide Inv, LineageOk, LaunchNext;
    if CanLaunch(c, s) {
      LaunchKeepsInv(c, s);
      LaunchLineage(c, s);
      LaunchedNext(c, s);
      FillReadyLineage(c, LaunchNext(c, s));
    }
  }

  lemma ReadyFamily(c: Settings, s: Schedule)
    requires LineageOk(c, s)
    ensures QueueFamily(s.corpus.entries, s.q.ready)
  {
  }

  lemma FillLineage(c: Settings, s: Schedule)
    requires Inv(c, s) && LineageOk(c, s)
    ensures s.n.nextCandidateId >= 0 && LineageOk(c, Fill(c, s))
  {
    hide Inv, LineageOk, FillReady, FillRerun;
    FillRerunAssigns(c, s);
    FillRerunKeepsInv(c, s);
    ReadyFamily(c, s);
    SameLineage(c, s, s.(q := FillRerun(c, s.q)));
    FillReadyLineage(c, s.(q := FillRerun(c, s.q)));
  }

  lemma RefillLineage(c: Settings, s: Schedule, plan: Option<Plan>)
    requires LineageOk(c, s) && s.n.nextCandidateId >= 0
    ensures LineageOk(c, Refill(s, plan))
  {
    hide FamilyOk, TaskFamily, RunFamily, TaskMap;
  }

  /** The families of the queue, the tasks, the runs and the entries all grow by one run. */
  lemma GrowByRun(c: Settings, entries: seq<Entry>, more: seq<Entry>, ready: seq<Candidate>, m: map<int, Scheduled>,
                  history: seq<RunRecord>, index: int, run: RunRecord)
    requires FamilyOk(entries) && QueueFamily(entries, ready) && TaskFamily(entries, m) && RunFamily(c, entries, history)
    requires index in m && run.kind == m[index].candidate.kind && run.parent == m[index].candidate.parent
    requires run.depth == m[index].candidate.depth && run.seed == c.baseSeed + run.index && (run.retained <==> run.corpusId.Some?)
    requires if run.retained then |more| == 1 && more[0].id == |entries| && Contributed(more[0], run) else more == []
    ensures FamilyOk(entries + more) && QueueFamily(entries + more, ready) && TaskFamily(entries + more, m - {index})
    ensures RunFamily(c, entries + more, history + [run])
  {
    TaskDescends(entries, m, index);
    DescendsLater(entries, more, run.kind, run.parent, run.depth);
    RetainedIsContributed(entries, more, run);
    hide FamilyOk, QueueFamily, TaskFamily, RunFamily, Descends;
    if run.retained {
      ContributionDescends(more[0], run, entries);
      assert more == [more[0]];
      FamilyGrows(entries, more[0], run.kind);
    } else {
      assert entries + more == entries;
    }
    QueueFamilyLater(entries, more, ready);
    TaskFamilyLater(entries, more, m, index);
    RunFamilyLater(c, entries, more, history, run);
  }

  lemma RetainedIsContributed(entries: seq<Entry>, more: seq<Entry>, run: RunRecord)
    requires run.retained <==> run.corpusId.Some?
    requires if run.retained then |more| == 1 && more[0].id == |entries| && Contributed(more[0], run) else more == []
    ensures run.corpusId.Some? ==>
              run.corpusId.value < |entries + more| && Contributed((entries + more)[run.corpusId.value], run)
  {
  }

  lemma CompleteLineage(c: Settings, s: Schedule, index: int, o: Outcome)
    requires Inv(c, s) && LineageOk(c, s) && index in s.q.inFlight
    ensures s.q.inFlight[index].index >= 0 && (s.n.nextSeedAt > 0 ==> c.seedInterval > 0)
    ensures LineageOk(c, Complete(c, s, index, o))
  {
    hide Inv, FamilyOk, QueueFamily, TaskFamily, RunFamily, Contributed, Assigned, FinalRecord, CorpusAfter, CountersAfter,
         PendingAfter, Absorbed, Verdicts;
    SomethingLeft(c, s, index);
    CompleteAssigns(c, s, index, o);
    TaskSeed(c, s, index);
    var task, entries := s.q.inFlight[index], s.corpus.entries;
    RecordTells(c, s, task, o);
    EntryTold(c, s, task, o);
    var after := CorpusAfter(c, s, task, o).entries;
    var more := after[|entries|..];
    assert after == entries + more;
    GrowByRun(c, entries, more, s.q.ready, Assigned(s.q), s.history, index, FinalRecord(c, s, task, o));
  }

  lemma TaskSeed(c: Settings, s: Schedule, index: int)
    requires Inv(c, s) && index in s.q.inFlight
    ensures s.q.inFlight[index].seed == c.baseSeed + index
  {
    hide CorpusOk, Consistent, HistoryOk, IdsOk, BooksOk, SeedsOk;
    assert Assigned(s.q)[index] == s.q.inFlight[index];
  }

  lemma TaskDescends(entries: seq<Entry>, m: map<int, Scheduled>, index: int)
    requires TaskFamily(entries, m) && index in m
    ensures Descends(entries, m[index].candidate.kind, m[index].candidate.parent, m[index].candidate.depth)
  {
  }

  lemma ContributionDescends(e: Entry, run: RunRecord, entries: seq<Entry>)
    requires Contributed(e, run) && Descends(entries, run.kind, run.parent, run.depth)
    ensures Descends(entries, run.kind, e.parent, e.depth)
  {
  }

  lemma AdmitLineage(c: Settings, s: Schedule, entry: Entry, plan: Plan)
    requires LineageOk(c, s) && c.maxReady > 0 && s.n.nextCandidateId >= 0
    requires entry.id < |s.corpus.entries| && s.corpus.entries[entry.id] == entry
    ensures LineageOk(c, Admit(c, s, entry, plan))
  {
    hide FamilyOk, TaskFamily, RunFamily, TaskMap;
  }

  lemma {:induction false} AdmitAllLineage(c: Settings, s: Schedule, entry: Entry, plans: seq<Plan>)
    requires LineageOk(c, s) && c.maxReady > 0 && s.n.nextCandidateId >= 0
    requires entry.id < |s.corpus.entries| && s.corpus.entries[entry.id] == entry
    ensures LineageOk(c, AdmitAll(c, s, entry, plans)) && AdmitAll(c, s, entry, plans).corpus == s.corpus
  {
    hide LineageOk;
    if plans != [] {
      AdmitAllLineage(c, s, entry, plans[..|plans| - 1]);
      AdmitLineage(c, AdmitAll(c, s, entry, plans[..|plans| - 1]), entry, plans[|plans| - 1]);
    }
  }

  lemma ClearedLineage(c: Settings, s: Schedule, id: int, queue: QueueTally)
    requires LineageOk(c, s)
    ensures LineageOk(c, Cleared(s, id, queue)) && Cleared(s, id, queue).corpus == s.corpus
  {
    hide FamilyOk, TaskFamily, RunFamily, QueueFamily, TaskMap;
  }

  lemma RequestedEntry(c: Settings, s: Schedule, id: int)
    requires Inv(c, s) && id in s.q.pending
    ensures 0 <= id < |s.corpus.entries| && s.q.pending[id].entry == s.corpus.entries[id] && s.corpus.entries[id].id == id
    ensures c.maxReady > 0 && s.n.nextCandidateId >= 0
  {
    hide TasksOk, Consistent, HistoryOk, IdsOk, BooksOk, SeedsOk;
  }

  lemma MutatedLineage(c: Settings, s: Schedule, id: int, plans: seq<Plan>)
    requires Inv(c, s) && LineageOk(c, s) && id in s.q.pending && c.maxReady > 0 && s.n.nextCandidateId >= 0
    ensures LineageOk(c, MutationDone(c, s, id, Mutated(plans)))
  {
    RequestedEntry(c, s, id);
    hide Inv, LineageOk, AdmitAll, Cleared, MutationDone;
    var counted := s.agg.report.queue.(generated := s.agg.report.queue.generated + |plans|);
    ClearedLineage(c, s, id, counted);
    ClearedCounters(s, id, counted);
    AdmitAllLineage(c, Cleared(s, id, counted), s.q.pending[id].entry, plans);
    MutationDoneUnfolds(c, s, id, plans);
  }

  lemma ClearedCounters(s: Schedule, id: int, queue: QueueTally)
    ensures Cleared(s, id, queue).n == s.n
  {
  }

  lemma FailedLineage(c: Settings, s: Schedule, id: int)
    requires LineageOk(c, s) && id in s.q.pending && c.maxReady > 0 && s.n.nextCandidateId >= 0
    ensures LineageOk(c, MutationDone(c, s, id, MutationFailed))
  {
    hide LineageOk, Cleared;
    ClearedLineage(c, s, id, s.agg.report.queue.(errors := s.agg.report.queue.errors + 1));
  }

  lemma MutationLineage(c: Settings, s: Schedule, id: int, result: MutationResult)
    requires Inv(c, s) && LineageOk(c, s) && id in s.q.pending
    ensures c.maxReady > 0 && s.n.nextCandidateId >= 0 && LineageOk(c, MutationDone(c, s, id, result))
  {
    CoreBounds(c, s);
    hide Inv, LineageOk, MutationDone;
    match result
    case MutationFailed => FailedLineage(c, s, id);
    case Mutated(plans) => MutatedLineage(c, s, id, plans);
  }

  lemma FinishLineage(c: Settings, s: Schedule)
    requires LineageOk(c, s)
    ensures LineageOk(c, Finish(s))
  {
    hide FamilyOk, TaskFamily, RunFamily, TaskMap, LosingAll;
  }

  lemma RewoundLineage(c: Settings, s: Schedule)
    requires Inv(c, s) && LineageOk(c, s)
    ensures LineageOk(c, Rewound(s))
  {
    hide Inv, FamilyOk, TaskFamily, RunFamily, QueueFamily, TaskList, Assigned;
    RewoundConserves(c, s);
  }
}
