/** Checkpoints of reachable states are valid and lose nothing. */
module SchedulerRecovery {
  import opened Keys
  import opened Corpora
  import opened Aggregation
  import opened Lifecycle
  import opened SchedulerSpec
  import opened SchedulerInvariant

  // ---------------------------------------------------------------- task lists

  lemma {:induction false} TaskMapContents(tasks: seq<Scheduled>)
    requires DistinctIndices(tasks)
    ensures UniqueTasks(tasks)
    ensures forall i :: 0 <= i < |tasks| ==> tasks[i].index in TaskMap(tasks) && TaskMap(tasks)[tasks[i].index] == tasks[i]
    ensures forall k | k in TaskMap(tasks) :: exists i :: 0 <= i < |tasks| && tasks[i].index == k
  {
    if tasks != [] {
      var tail := tasks[1..];
      assert forall i :: 0 <= i < |tail| ==> tail[i] == tasks[i + 1];
      TaskMapContents(tail);
      forall k | k in TaskMap(tasks)
        ensures exists i :: 0 <= i < |tasks| && tasks[i].index == k
      {
        if k != tasks[0].index {
          var i :| 0 <= i < |tail| && tail[i].index == k;
          assert tasks[i + 1].index == k;
        }
      }
    }
  }

  ghost predicate OwnIndex(m: map<int, Scheduled>) {
    forall k | k in m :: m[k].index == k
  }

  /** Position i of the list holds the task of the i-th smallest index. */
  lemma TaskListShape(m: map<int, Scheduled>)
    requires OwnIndex(m)
    ensures var keys, list := Sorted(m.Keys), TaskList(m);
            && |list| == |keys| == |m|
            && (forall i :: 0 <= i < |keys| ==> keys[i] in m && list[i] == m[keys[i]] && list[i].index == keys[i])
    ensures DistinctIndices(TaskList(m))
  {
    hide Sorted, Elements;
    var keys, list := Sorted(m.Keys), TaskList(m);
    KeysListed(m.Keys);
    assert forall i :: 0 <= i < |keys| ==> list[i] == TaskAt(m, keys, i);
  }

  lemma KeysListed(keys: set<int>)
    ensures forall i :: 0 <= i < |Sorted(keys)| ==> Sorted(keys)[i] in keys
    ensures forall k | k in keys :: k in Sorted(keys)
  {
    var list := Sorted(keys);
    assert forall i :: 0 <= i < |list| ==> list[i] in Elements(list);
    assert forall k | k in keys :: k in Elements(list);
  }

  lemma ListedKeyIsMapped(m: map<int, Scheduled>, k: int)
    requires OwnIndex(m) && k in m
    requires DistinctIndices(TaskList(m))
    ensures k in TaskMap(TaskList(m)) && TaskMap(TaskList(m))[k] == m[k]
  {
    var keys, list := Sorted(m.Keys), TaskList(m);
    TaskListShape(m);
    KeysListed(m.Keys);
    var i :| 0 <= i < |keys| && keys[i] == k;
    TaskMapContents(list);
    assert list[i].index == k;
  }

  lemma MappedKeyIsListed(m: map<int, Scheduled>, k: int)
    requires OwnIndex(m) && DistinctIndices(TaskList(m))
    requires k in TaskMap(TaskList(m))
    ensures k in m
  {
    var keys, list := Sorted(m.Keys), TaskList(m);
    TaskListShape(m);
    TaskMapContents(list);
    var i :| 0 <= i < |list| && list[i].index == k;
    assert keys[i] in m;
  }

  lemma EqualMaps<K, V>(a: map<K, V>, b: map<K, V>)
    requires forall k | k in a :: k in b && b[k] == a[k]
    requires forall k | k in b :: k in a
    ensures a == b
  {
  }

  /** The saved in-flight list rebuilds exactly the assigned tasks. */
  lemma TaskListRoundTrip(m: map<int, Scheduled>)
    requires OwnIndex(m)
    ensures TaskMap(TaskList(m)) == m && UniqueTasks(TaskList(m))
  {
    hide TaskMap, TaskList, UniqueTasks, OwnIndex, DistinctIndices;
    ListIsDistinct(m);
    forall k | k in m
      ensures k in TaskMap(TaskList(m)) && TaskMap(TaskList(m))[k] == m[k]
    {
      ListedKeyIsMapped(m, k);
    }
    forall k | k in TaskMap(TaskList(m))
      ensures k in m
    {
      MappedKeyIsListed(m, k);
    }
    EqualMaps(m, TaskMap(TaskList(m)));
  }

  lemma ListIsDistinct(m: map<int, Scheduled>)
    requires OwnIndex(m)
    ensures DistinctIndices(TaskList(m)) && UniqueTasks(TaskList(m))
  {
    hide TaskMap, TaskList, UniqueTasks, OwnIndex, DistinctIndices;
    TaskListShape(m);
    TaskMapContents(TaskList(m));
  }

  lemma TaskListIndices(m: map<int, Scheduled>)
    requires OwnIndex(m)
    ensures Indices(TaskList(m)) == m.Keys
  {
    var keys, list := Sorted(m.Keys), TaskList(m);
    TaskListShape(m);
    KeysListed(m.Keys);
    forall k
      ensures k in Indices(list) <==> k in m
    {
      if k in m {
        var i :| 0 <= i < |keys| && keys[i] == k;
        assert list[i] in list && list[i].index == k;
      }
    }
  }

  // ---------------------------------------------------------------- pending mutations

  ghost predicate PendingOk(pending: map<int, Request>, entries: seq<Entry>) {
    forall id | id in pending :: 0 <= id < |entries| && pending[id].entry == entries[id] && pending[id].count > 0
  }

  /** Rebuilding a map from its own items, whatever the order of the list. */
  lemma {:induction false} RestoredPendingContents(list: seq<Pending>, entries: seq<Entry>, pending: map<int, Request>)
    requires PendingOk(pending, entries)
    requires forall i :: 0 <= i < |list| ==> list[i].entryId in pending && list[i].count == pending[list[i].entryId].count
    ensures forall id | id in RestoredPending(list, entries) ::
              id in pending && RestoredPending(list, entries)[id] == pending[id]
    ensures forall i :: 0 <= i < |list| ==> list[i].entryId in RestoredPending(list, entries)
  {
    if list != [] {
      var init := list[..|list| - 1];
      assert forall i :: 0 <= i < |init| ==> init[i] == list[i];
      RestoredPendingContents(init, entries, pending);
    }
  }

  lemma PendingListShape(pending: map<int, Request>)
    ensures var keys, list := Sorted(pending.Keys), PendingList(pending);
            && |list| == |keys|
            && (forall i :: 0 <= i < |keys| ==> keys[i] in pending && list[i] == Pending(keys[i], pending[keys[i]].count))
  {
    var keys, list := Sorted(pending.Keys), PendingList(pending);
    KeysListed(pending.Keys);
    assert forall i :: 0 <= i < |keys| ==> list[i] == PendingAt(pending, keys, i);
  }

  lemma PendingIsRestored(pending: map<int, Request>, entries: seq<Entry>, id: int)
    requires PendingOk(pending, entries) && id in pending
    ensures id in RestoredPending(PendingList(pending), entries)
  {
    var keys, list := Sorted(pending.Keys), PendingList(pending);
    PendingListShape(pending);
    KeysListed(pending.Keys);
    RestoredPendingContents(list, entries, pending);
    var i :| 0 <= i < |keys| && keys[i] == id;
    assert list[i].entryId == id;
  }

  lemma PendingRoundTrip(pending: map<int, Request>, entries: seq<Entry>)
    requires PendingOk(pending, entries)
    ensures RestoredPending(PendingList(pending), entries) == pending
  {
    hide RestoredPending, PendingList;
    PendingListShape(pending);
    RestoredPendingContents(PendingList(pending), entries, pending);
    forall id | id in pending
      ensures id in RestoredPending(PendingList(pending), entries)
    {
      PendingIsRestored(pending, entries, id);
    }
    var restored := RestoredPending(PendingList(pending), entries);
    assert forall id :: id in restored <==> id in pending;
    assert restored == pending;
  }

  // ---------------------------------------------------------------- checkpoints

  lemma ListedTasksGood(c: Settings, m: map<int, Scheduled>, done: set<int>, next: int)
    requires MapOk(c, m, done, next)
    ensures GoodTasks(TaskList(m), c, next) && |TaskList(m)| == |m|
  {
    hide TaskList, Sorted;
    TaskListShape(m);
  }

  lemma KeysApart(a: set<int>, b: set<int>)
    requires forall k | k in b :: k !in a
    ensures a !! b
  {
    assert forall k :: k in a * b ==> k in b && k !in a;
    assert a * b == {};
  }

  lemma MapPartitions(c: Settings, m: map<int, Scheduled>, done: set<int>, next: int)
    requires MapOk(c, m, done, next)
    ensures Partitioned(done, m.Keys, next)
  {
    KeysApart(done, m.Keys);
  }

  lemma SavedTasksGood(c: Settings, m: map<int, Scheduled>, done: set<int>, next: int)
    requires MapOk(c, m, done, next)
    ensures GoodTasks(TaskList(m), c, next)
    ensures |done| + |TaskList(m)| == next
    ensures Partitioned(done, Indices(TaskList(m)), next)
  {
    ListedTasksGood(c, m, done, next);
    MapPartitions(c, m, done, next);
    OwnIndexOf(c, m, done, next);
    hide TaskList, GoodTasks, Indices, Partitioned;
    TaskListIndices(m);
  }

  lemma SavedCoverageAgrees(c: Settings, fingerprint: string, s: Schedule)
    requires CorpusOk(s.corpus, s.agg, s.q.pending)
    ensures CoverageAgrees(Save(c, fingerprint, s))
  {
    hide WellFormed, TaskList, PendingList;
  }

  lemma SavedPendingGood(corpus: Corpora.State, agg: Aggregate, pending: map<int, Request>)
    requires CorpusOk(corpus, agg, pending)
    ensures GoodPending(PendingList(pending), |corpus.entries|)
  {
    PendingListShape(pending);
  }

  lemma SeedsAreAhead(c: Settings, n: Counters, launched: int)
    requires SeedsOk(c, n, launched)
    ensures n.nextSeedAt >= 0 && n.seedsDue >= 0
    ensures if c.seedInterval == 0 then n.nextSeedAt == 0 && n.seedsDue == 0 else n.nextSeedAt > n.completed
  {
    if c.seedInterval > 0 {
      DivisionStep(n.completed, c.seedInterval);
    }
  }

  lemma SavedHeaderGood(c: Settings, fingerprint: string, s: Schedule)
    requires Inv(c, s)
    ensures GoodHeader(Save(c, fingerprint, s), c, fingerprint)
  {
    hide TaskList, PendingList, Assigned, BooksOk, CorpusOk, Consistent, HistoryOk, IdsOk, SeedsOk, MapOk, TaskMap, UniqueTasks;
    SeedsAreAhead(c, s.n, LaunchedSeeds(s));
    TasksAddUp(c, s.q, s.n, s.agg.completed);
  }

  lemma SavedAggregateGood(c: Settings, corpus: Corpora.State, agg: Aggregate, pending: map<int, Request>)
    requires CorpusOk(corpus, agg, pending) && Consistent(agg, c)
    ensures ValidSnapshot(Snapshotted(agg, |corpus.entries|), c, |agg.completed|)
    ensures Elements(Snapshotted(agg, |corpus.entries|).completedIndices) == agg.completed
  {
    hide WellFormed, ValidSnapshot, Consistent;
    assert |corpus.entries| == agg.report.corpus.entries;
    SnapshotRoundTrip(agg, c);
  }

  /** Every checkpoint saved in a reachable state passes Checkpoint.Validate. */
  lemma SaveIsValid(c: Settings, fingerprint: string, s: Schedule)
    requires Inv(c, s)
    ensures Valid(Save(c, fingerprint, s), c, fingerprint)
  {
    hide TaskList, PendingList, Assigned, MapOk, TaskMap, UniqueTasks, SeedsOk, BooksOk, QueueOk, CorpusOk, Consistent, HistoryOk,
         IdsOk, GoodHeader, ValidSnapshot, Snapshotted, GoodTasks, Partitioned, CoverageAgrees, GoodPending;
    SavedHeaderGood(c, fingerprint, s);
    SavedTasksGood(c, Assigned(s.q), s.agg.completed, s.n.nextRunIndex);
    SavedCoverageAgrees(c, fingerprint, s);
    SavedPendingGood(s.corpus, s.agg, s.q.pending);
    SavedAggregateGood(c, s.corpus, s.agg, s.q.pending);
  }

  /** What a resumed process starts from: the same state, with everything that
      was running queued for a rerun. */
  function Rewound(s: Schedule): Schedule {
    s.(q := s.q.(rerun := TaskList(Assigned(s.q)), inFlight := map[]))
  }

  lemma ResumeIsRewound(c: Settings, fingerprint: string, s: Schedule)
    requires Inv(c, s)
    ensures Resume(Save(c, fingerprint, s), s.corpus.entries, s.history, s.losses) == Rewound(s)
    ensures Restorable(Checkpointed(s.corpus), s.corpus.entries)
  {
    SnapshotRoundTrip(s.agg, c);
    RestoreInvertsCheckpoint(c.corpus, s.corpus, []);
    PendingRoundTrip(s.q.pending, s.corpus.entries);
  }

  lemma RewoundKeepsTasks(c: Settings, q: Queues, n: Counters, done: set<int>)
    requires TasksOk(c, q, n, done) && c.parallelism > 0
    ensures var q' := q.(rerun := TaskList(Assigned(q)), inFlight := map[]);
            Assigned(q') == Assigned(q) && TasksOk(c, q', n, done)
  {
    OwnIndexOf(c, Assigned(q), done, n.nextRunIndex);
    hide TaskList, MapOk, TaskMap, UniqueTasks;
    TaskListRoundTrip(Assigned(q));
    NothingInFlight(TaskMap(TaskList(Assigned(q))));
  }

  lemma OwnIndexOf(c: Settings, m: map<int, Scheduled>, done: set<int>, next: int)
    requires MapOk(c, m, done, next)
    ensures OwnIndex(m)
  {
  }

  lemma NothingInFlight(m: map<int, Scheduled>)
    ensures m + map[] == m
  {
  }

  lemma RewoundKeepsInv(c: Settings, s: Schedule)
    requires Inv(c, s)
    ensures Inv(c, Rewound(s))
  {
    hide TaskList, TasksOk, Assigned, Queued, SeedsOk, Consistent;
    RewoundKeepsTasks(c, s.q, s.n, s.agg.completed);
  }

  lemma TasksOf(c: Settings, s: Schedule)
    requires Inv(c, s)
    ensures TasksOk(c, s.q, s.n, s.agg.completed) && c.parallelism > 0
  {
  }

  /** Nothing is gained or lost by a crash and a resume: the same indices are
      assigned, and seeds and mutations are counted as before. */
  lemma RewoundConserves(c: Settings, s: Schedule)
    requires Inv(c, s)
    ensures Assigned(Rewound(s).q) == Assigned(s.q)
    ensures LaunchedSeeds(Rewound(s)) == LaunchedSeeds(s)
    ensures Outstanding(Rewound(s).q, Mutation) == Outstanding(s.q, Mutation)
    ensures Rewound(s).q.ready == s.q.ready && Rewound(s).losses == s.losses && Rewound(s).agg == s.agg
  {
    hide Inv, TaskList, Assigned, TasksOk, LaunchedSeeds, Outstanding;
    TasksOf(c, s);
    RewoundKeepsTasks(c, s.q, s.n, s.agg.completed);
    SameLaunches(s, Rewound(s));
  }

  /** Resuming any saved checkpoint re-establishes the invariant. */
  lemma ResumeInv(c: Settings, fingerprint: string, s: Schedule)
    requires Inv(c, s)
    ensures Inv(c, Resume(Save(c, fingerprint, s), s.corpus.entries, s.history, s.losses))
  {
    ResumeIsRewound(c, fingerprint, s);
    RewoundKeepsInv(c, s);
  }
}
