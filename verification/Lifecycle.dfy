/** The persistent scheduling state and Checkpoint.Validate. */
module Lifecycle {
  import opened Keys
  import opened Corpora
  import opened Aggregation

  /** `id` is the number behind "candidate-%06d"; no plan means an online seed. */
  datatype Candidate = Candidate(id: nat, parent: Option<nat>, kind: Kind, source: string, depth: int, plan: Option<Plan>)

  /** A candidate that owns a run index and seed but has not completed. */
  datatype Scheduled = Scheduled(index: int, seed: int, candidate: Candidate)

  /** A mutation request, by the number of the entry it mutates. Its seed is a
      function of the base seed and the entry's run index. */
  datatype Pending = Pending(entryId: int, count: int)

  const CHECKPOINT_VERSION: nat := 7

  datatype SavedState = SavedState(
    version: nat, settings: Settings, fingerprint: string, aggregation: Snapshot, corpus: Corpora.Checkpoint,
    ready: seq<Candidate>, inFlight: seq<Scheduled>, pending: seq<Pending>, nextCandidateId: int, nextRunIndex: int,
    completed: int, runSummaryCount: int, nextSeedAt: int, seedsDue: int)

  predicate GoodHeader(c: SavedState, settings: Settings, fingerprint: string) {
    && c.version == CHECKPOINT_VERSION && c.settings == settings && c.fingerprint == fingerprint
    && 0 <= c.completed <= settings.runs && c.completed <= c.nextRunIndex <= settings.runs
    && c.nextSeedAt >= 0 && c.seedsDue >= 0
    && (if settings.seedInterval == 0 then c.nextSeedAt == 0 && c.seedsDue == 0 else c.nextSeedAt > c.completed)
    && c.runSummaryCount == c.completed
    && |c.ready| <= settings.maxReady && |c.ready| <= c.aggregation.report.queue.peak
  }

  ghost predicate GoodPending(pending: seq<Pending>, entryCount: int) {
    && (forall i :: 0 <= i < |pending| ==> pending[i].count > 0 && 0 <= pending[i].entryId < entryCount)
    && (forall i, j :: 0 <= i < j < |pending| ==> pending[i].entryId != pending[j].entryId)
  }

  function Indices(tasks: seq<Scheduled>): set<int> {
    set t | t in tasks :: t.index
  }

  ghost predicate DistinctIndices(tasks: seq<Scheduled>) {
    forall i, j :: 0 <= i < j < |tasks| ==> tasks[i].index != tasks[j].index
  }

  ghost predicate GoodTasks(tasks: seq<Scheduled>, settings: Settings, next: int) {
    && DistinctIndices(tasks)
    && forall i :: 0 <= i < |tasks| ==> 0 <= tasks[i].index < next && tasks[i].seed == settings.baseSeed + tasks[i].index
  }

  /** Every assigned run index is completed or scheduled, never both. */
  ghost predicate Partitioned(completed: set<int>, scheduled: set<int>, next: int) {
    && completed !! scheduled
    && forall i :: 0 <= i < next ==> i in completed || i in scheduled
  }

  ghost predicate CoverageAgrees(c: SavedState) {
    && c.corpus.entryCount >= 0
    && Distinct(c.corpus.coverageKeys) && Distinct(c.corpus.semanticStateKeys) && Distinct(c.corpus.semanticTransitionKeys)
    && c.aggregation.report.corpus.entries == c.corpus.entryCount
    && c.aggregation.report.unique.semanticStates == |c.corpus.semanticStateKeys|
    && c.aggregation.report.unique.semanticTransitions == |c.corpus.semanticTransitionKeys|
    && Elements(c.corpus.coverageKeys) <= Elements(c.aggregation.modelStateKeys)
  }

  ghost predicate Valid(c: SavedState, settings: Settings, fingerprint: string) {
    && GoodHeader(c, settings, fingerprint)
    && GoodPending(c.pending, c.corpus.entryCount)
    && ValidSnapshot(c.aggregation, settings, c.completed)
    && GoodTasks(c.inFlight, settings, c.nextRunIndex)
    && c.completed + |c.inFlight| == c.nextRunIndex
    && Partitioned(Elements(c.aggregation.completedIndices), Indices(c.inFlight), c.nextRunIndex)
    && CoverageAgrees(c)
  }

  // ---------------------------------------------------------------- Validate

  method ValidatePending(pending: seq<Pending>, entryCount: int) returns (ok: bool)
    ensures ok <==> GoodPending(pending, entryCount)
  {
    var seen: set<int> := {};
    for i := 0 to |pending|
      invariant forall x :: x in seen <==> exists j :: 0 <= j < i && pending[j].entryId == x
      invariant GoodPending(pending[..i], entryCount)
    {
      assert pending[..i + 1] == pending[..i] + [pending[i]];
      assert forall j :: 0 <= j < i ==> pending[..i][j] == pending[j];
      if pending[i].count <= 0 || pending[i].entryId < 0 || pending[i].entryId >= entryCount {
        return false;
      }
      if pending[i].entryId in seen {
        var j :| 0 <= j < i && pending[j].entryId == pending[i].entryId;
        return false;
      }
      seen := seen + {pending[i].entryId};
    }
    assert pending[..|pending|] == pending;
    ok := true;
  }

  method ValidateTasks(tasks: seq<Scheduled>, settings: Settings, next: int, completed: set<int>)
      returns (ok: bool, seen: set<int>)
    ensures ok <==> GoodTasks(tasks, settings, next) && completed !! Indices(tasks)
    ensures ok ==> seen == Indices(tasks)
  {
    seen := {};
    for i := 0 to |tasks|
      invariant seen == Indices(tasks[..i])
      invariant GoodTasks(tasks[..i], settings, next) && completed !! seen
    {
      assert tasks[..i + 1] == tasks[..i] + [tasks[i]];
      assert forall j :: 0 <= j < i ==> tasks[..i][j] == tasks[j];
      var task := tasks[i];
      assert task in tasks && task.index in Indices(tasks);
      if task.index < 0 || task.index >= next || task.seed != settings.baseSeed + task.index {
        return false, seen;
      }
      if task.index in completed {
        return false, seen;
      }
      if task.index in seen {
        var j :| 0 <= j < i && tasks[..i][j].index == task.index;
        return false, seen;
      }
      seen := seen + {task.index};
    }
    assert tasks[..|tasks|] == tasks;
    ok := true;
  }

  method ValidatePartition(completed: set<int>, scheduled: set<int>, next: int) returns (ok: bool)
    requires next >= 0
    ensures ok <==> forall i :: 0 <= i < next ==> (i in completed) != (i in scheduled)
  {
    for i := 0 to next
      invariant forall j :: 0 <= j < i ==> (j in completed) != (j in scheduled)
    {
      if (i in completed) == (i in scheduled) {
        return false;
      }
    }
    ok := true;
  }

  method ValidateCoverage(c: SavedState) returns (ok: bool)
    ensures ok <==> CoverageAgrees(c)
  {
    if c.corpus.entryCount < 0 {
      return false;
    }
    var raw := ValidateUnique(c.corpus.coverageKeys, false, 0, 0);
    var states := ValidateUnique(c.corpus.semanticStateKeys, false, 0, 0);
    var transitions := ValidateUnique(c.corpus.semanticTransitionKeys, false, 0, 0);
    if !raw || !states || !transitions {
      return false;
    }
    if c.aggregation.report.corpus.entries != c.corpus.entryCount
       || c.aggregation.report.unique.semanticStates != |c.corpus.semanticStateKeys|
       || c.aggregation.report.unique.semanticTransitions != |c.corpus.semanticTransitionKeys| {
      return false;
    }
    var modelStates := Elements(c.aggregation.modelStateKeys);
    for i := 0 to |c.corpus.coverageKeys|
      invariant forall j :: 0 <= j < i ==> c.corpus.coverageKeys[j] in modelStates
    {
      if c.corpus.coverageKeys[i] !in modelStates {
        assert c.corpus.coverageKeys[i] in Elements(c.corpus.coverageKeys);
        return false;
      }
    }
    ok := true;
  }

  method Validate(c: SavedState, settings: Settings, fingerprint: string) returns (ok: bool)
    ensures ok <==> Valid(c, settings, fingerprint)
  {
    if !GoodHeader(c, settings, fingerprint) {
      return false;
    }
    ok := ValidatePending(c.pending, c.corpus.entryCount);
    if !ok { return; }
    ok := ValidateSnapshot(c.aggregation, settings, c.completed);
    if !ok { return; }
    var completed := Elements(c.aggregation.completedIndices);
    var scheduled;
    ok, scheduled := ValidateTasks(c.inFlight, settings, c.nextRunIndex, completed);
    if !ok { return; }
    if c.completed + |c.inFlight| != c.nextRunIndex {
      return false;
    }
    ok := ValidatePartition(completed, scheduled, c.nextRunIndex);
    if !ok { return; }
    ok := ValidateCoverage(c);
  }
}
