/** What any checkpoint that passes Checkpoint.Validate is good for, whoever wrote it. */
module CheckpointMeaning {
  import opened Keys
  import opened Corpora
  import opened Aggregation
  import opened Lifecycle
  import opened SchedulerSpec
  import opened SchedulerInvariant
  import opened Admission

  // ---------------------------------------------------------------- the report

  ghost predicate ListsOnce(s: Snapshot) {
    && Distinct(s.completedIndices) && Distinct(s.modelStateKeys)
    && Distinct(s.planDigests) && Distinct(s.traceDigests) && Distinct(s.pathDigests)
  }

  lemma SizesOf(s: Snapshot)
    requires ListsOnce(s)
    ensures var a := Unpacked(s);
            && |a.completed| == |s.completedIndices| && |a.states| == |s.modelStateKeys| && |a.seen.plans| == |s.planDigests|
            && |a.seen.traces| == |s.traceDigests| && |a.seen.paths| == |s.pathDigests|
  {
    DistinctSize(s.completedIndices);
    DistinctSize(s.modelStateKeys);
    DistinctSize(s.planDigests);
    DistinctSize(s.traceDigests);
    DistinctSize(s.pathDigests);
  }

  /** A snapshot is accepted exactly when it lists everything once and the accumulator
      restored from it is consistent. */
  lemma ValidSnapshotMeans(s: Snapshot, settings: Settings, completed: int)
    ensures ValidSnapshot(s, settings, completed)
        <==> ListsOnce(s) && Consistent(Unpacked(s), settings) && |Unpacked(s).completed| == completed
  {
    hide GoodReport, Distinct;
    if ListsOnce(s) {
      SizesOf(s);
    }
    assert forall i :: i in s.completedIndices <==> i in Elements(s.completedIndices);
    assert NO_DIGEST in s.planDigests <==> NO_DIGEST in Elements(s.planDigests);
    assert NO_DIGEST in s.traceDigests <==> NO_DIGEST in Elements(s.traceDigests);
    assert NO_DIGEST in s.pathDigests <==> NO_DIGEST in Elements(s.pathDigests);
  }

  // ---------------------------------------------------------------- the tasks

  lemma {:induction false} TasksBecomeAMap(tasks: seq<Scheduled>)
    ensures TaskMap(tasks).Keys == Indices(tasks)
    ensures DistinctIndices(tasks) ==> UniqueTasks(tasks)
    ensures forall k | k in TaskMap(tasks) :: TaskMap(tasks)[k].index == k && TaskMap(tasks)[k] in tasks
  {
    if tasks != [] {
      var first, rest := tasks[0], tasks[1..];
      TasksBecomeAMap(rest);
      assert tasks == [first] + rest;
      forall k
        ensures k in Indices(tasks) <==> k == first.index || k in Indices(rest)
      {
      }
      if DistinctIndices(tasks) {
        assert forall j :: 0 <= j < |rest| ==> rest[j] == tasks[j + 1];
      }
    }
  }

  /** Every run index below the next is completed or will be rerun with its own seed,
      never both and none twice. */
  lemma TasksResume(cp: SavedState, settings: Settings, fingerprint: string, entries: seq<Entry>, history: seq<RunRecord>,
                    losses: Losses)
    requires Valid(cp, settings, fingerprint) && settings.parallelism >= 0
    ensures var s := Resume(cp, entries, history, losses); TasksOk(settings, s.q, s.n, s.agg.completed)
  {
    hide ValidSnapshot, CoverageAgrees, GoodPending, Consistent, Indices, RestoredPending, Restored, MapOk, Elements;
    ValidSnapshotMeans(cp.aggregation, settings, cp.completed);
    TasksBecomeAMap(cp.inFlight);
    TasksMakeAMap(cp.inFlight, settings, Elements(cp.aggregation.completedIndices), cp.nextRunIndex);
    assert TaskMap(cp.inFlight) + map[] == TaskMap(cp.inFlight);
  }

  lemma TasksMakeAMap(tasks: seq<Scheduled>, settings: Settings, completed: set<int>, next: int)
    requires GoodTasks(tasks, settings, next) && Partitioned(completed, Indices(tasks), next) && |completed| + |tasks| == next
    ensures MapOk(settings, TaskMap(tasks), completed, next)
  {
    hide Indices;
    TasksBecomeAMap(tasks);
    TaskMapSize(tasks);
    assert |Indices(tasks)| == |tasks|;
    SeedsAndBounds(tasks, settings, next);
    CompletedBelow(completed, Indices(tasks), next);
    hide DistinctIndices, TaskMap, UniqueTasks;
  }

  lemma SeedsAndBounds(tasks: seq<Scheduled>, settings: Settings, next: int)
    requires GoodTasks(tasks, settings, next)
    ensures forall t | t in tasks :: 0 <= t.index < next && t.seed == settings.baseSeed + t.index
    ensures forall k | k in Indices(tasks) :: 0 <= k < next
  {
  }

  /** The sizes add up, so no completed index lies beyond the next one. */
  lemma CompletedBelow(completed: set<int>, scheduled: set<int>, next: int)
    requires Partitioned(completed, scheduled, next) && |completed| + |scheduled| == next
    ensures forall i | i in completed :: 0 <= i < next
  {
    Covered(completed + scheduled, next);
    assert |completed + scheduled| == |completed| + |scheduled|;
  }

  lemma {:induction false} Covered(s: set<int>, next: int)
    requires (forall i :: 0 <= i < next ==> i in s) && |s| == next
    ensures forall i | i in s :: 0 <= i < next
  {
    if next > 0 {
      Covered(s - {next - 1}, next - 1);
      forall i | i in s
        ensures 0 <= i < next
      {
        assert i == next - 1 || i in s - {next - 1};
      }
    } else {
      assert s == {};
    }
  }

  // ---------------------------------------------------------------- mutations and corpus

  /** Each request is for an entry of the corpus. */
  ghost predicate Served(entries: seq<Entry>, m: map<int, Request>) {
    forall id | id in m :: 0 <= id < |entries| && m[id].entry == entries[id] && m[id].count > 0
  }

  ghost predicate Named(list: seq<Pending>, id: int) {
    exists i :: 0 <= i < |list| && list[i].entryId == id
  }

  /** The requests are those the list names, as many as it says, and no others. */
  ghost predicate Rebuilt(list: seq<Pending>, entries: seq<Entry>, m: map<int, Request>) {
    && Served(entries, m) && |m| == |list|
    && (forall i :: 0 <= i < |list| ==> list[i].entryId in m && m[list[i].entryId].count == list[i].count)
    && (forall id | id in m :: Named(list, id))
  }

  lemma LastIsNew(list: seq<Pending>, p: Pending, count: nat)
    requires GoodPending(list + [p], count)
    ensures GoodPending(list, count) && !Named(list, p.entryId) && 0 <= p.entryId < count && p.count > 0
  {
    var longer := list + [p];
    assert forall i :: 0 <= i < |list| ==> longer[i] == list[i];
    assert longer[|list|] == p;
  }

  lemma NamedStep(list: seq<Pending>, p: Pending, id: int)
    ensures Named(list + [p], id) <==> Named(list, id) || id == p.entryId
  {
    var longer := list + [p];
    assert longer[|list|] == p;
    if Named(list, id) {
      var i :| 0 <= i < |list| && list[i].entryId == id;
      assert longer[i].entryId == id;
    }
  }

  lemma RebuiltOneMore(list: seq<Pending>, entries: seq<Entry>, m: map<int, Request>, p: Pending)
    requires Rebuilt(list, entries, m) && !Named(list, p.entryId) && 0 <= p.entryId < |entries| && p.count > 0
    ensures Rebuilt(list + [p], entries, m[p.entryId := Request(entries[p.entryId], p.count)])
  {
    hide Named;
    var longer, later := list + [p], m[p.entryId := Request(entries[p.entryId], p.count)];
    forall id
      ensures Named(longer, id) <==> Named(list, id) || id == p.entryId
    {
      NamedStep(list, p, id);
    }
    assert later.Keys == m.Keys + {p.entryId};
    forall i | 0 <= i < |list|
      ensures longer[i] == list[i] && list[i].entryId != p.entryId
    {
      assert list[i].entryId in m;
    }
    assert forall i :: 0 <= i < |longer| ==> later[longer[i].entryId].count == longer[i].count;
  }

  /** Every saved reference comes back as a request for its entry, and there are no others. */
  lemma {:induction false} PendingResumes(list: seq<Pending>, entries: seq<Entry>)
    requires GoodPending(list, |entries|)
    ensures Rebuilt(list, entries, RestoredPending(list, entries))
  {
    hide Rebuilt, Named, GoodPending;
    if list == [] {
      NothingRebuilt(entries);
    } else {
      var init := list[..|list| - 1];
      assert list == init + [list[|list| - 1]];
      LastIsNew(init, list[|list| - 1], |entries|);
      PendingResumes(init, entries);
      RebuiltOneMore(init, entries, RestoredPending(init, entries), list[|list| - 1]);
    }
  }

  lemma NothingRebuilt(entries: seq<Entry>)
    ensures Rebuilt([], entries, map[])
  {
  }

  /** The corpus that comes back is well formed, agrees with the report and holds every
      entry a pending mutation names. Only that there are no more entries than completed
      runs is not checked as such: it follows unless the count of failed runs is negative. */
  lemma CorpusResumes(cp: SavedState, settings: Settings, fingerprint: string, entries: seq<Entry>, history: seq<RunRecord>,
                      losses: Losses)
    requires Valid(cp, settings, fingerprint) && Restorable(cp.corpus, entries)
    ensures var s := Resume(cp, entries, history, losses);
            CorpusOk(s.corpus, s.agg, s.q.pending) <==> cp.corpus.entryCount <= cp.completed
    ensures cp.aggregation.report.runs.failed >= 0 ==> cp.corpus.entryCount <= cp.completed
  {
    hide ValidSnapshot, Restorable, GoodTasks, GoodPending, Partitioned, WellFormed, RestoredPending, Elements, Distinct,
         GoodAdmissions, GoodQueue, CountsMatch;
    RestorableMeansWellFormed(cp.corpus, entries);
    ValidSnapshotMeans(cp.aggregation, settings, cp.completed);
    DistinctSize(cp.corpus.semanticStateKeys);
    DistinctSize(cp.corpus.semanticTransitionKeys);
    PendingResumes(cp.pending, entries);
    EntriesAreSuccesses(cp.aggregation.report.corpus, cp.aggregation.report.runs.succeeded);
  }

  lemma EntriesAreSuccesses(t: CorpusTally, succeeded: int)
    requires GoodAdmissions(t, succeeded)
    ensures t.entries <= succeeded
  {
  }
}
