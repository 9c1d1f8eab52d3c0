/** RunFeedback: the coordinator's variables as fields, its loop as methods. */
module Scheduler {
  import opened Keys
  import opened Corpora
  import opened Aggregation
  import opened Lifecycle
  import opened SchedulerSpec
  import opened SchedulerInvariant
  import opened SchedulerRecovery

  /** What a select may receive next: preferably a finished mutation or a finished
      execution, the pick-th outstanding one, with the result its worker computed. */
  datatype Arrival = Arrival(mutation: bool, pick: nat, outcome: Outcome, result: MutationResult)

  function Pick(keys: set<int>, pick: nat): (k: int)
    requires |keys| > 0
    ensures k in keys
  {
    var list := Sorted(keys);
    assert list[pick % |list|] in Elements(list);
    list[pick % |list|]
  }

  // ---------------------------------------------------------------- progress

  /** The launch loops stop only when the slots are full or nothing is left to
      launch, and touch nothing but the queue, the slots and the run index. */
  lemma FillSettles(c: Settings, s: Schedule)
    requires Inv(c, s)
    ensures s.n.nextCandidateId >= 0
    ensures var t := Fill(c, s);
            && Inv(c, t) && !CanLaunch(c, t) && !CanRerun(c, t.q)
            && t.q.pending == s.q.pending && t.n.completed == s.n.completed && t.n.nextRunIndex >= s.n.nextRunIndex
            && (t.n.nextRunIndex == s.n.nextRunIndex ==> t.q.ready == s.q.ready)
  {
    InvBounds(c, s);
    hide Inv;
    FillRerunKeepsInv(c, s);
    var u := s.(q := FillRerun(c, s.q));
    FillReadyKeepsInv(c, u);
    FillReadyFrame(c, u);
  }

  lemma InvBounds(c: Settings, s: Schedule)
    requires Inv(c, s)
    ensures s.n.nextCandidateId >= 0 && c.maxReady > 0 && 0 < c.parallelism <= c.runs && |s.q.inFlight| <= c.parallelism
    ensures 0 <= s.n.completed <= s.n.nextRunIndex <= c.runs
    ensures |s.q.rerun| > 0 ==> s.q.rerun[0].index !in s.q.inFlight
  {
    TasksAddUp(c, s.q, s.n, s.agg.completed);
    if |s.q.rerun| > 0 {
      assert s.q.rerun[0].index in TaskMap(s.q.rerun);
    }
  }

  /** Whenever the loop waits for an event, an execution or a mutation is outstanding. */
  lemma SelectNeverStarves(c: Settings, s: Schedule)
    requires Inv(c, s) && s.n.completed < c.runs && s.n.nextCandidateId >= 0
    ensures var t := Fill(c, s); !NeedsSeed(c, t) ==> |t.q.inFlight| > 0 || |t.q.pending| > 0
  {
    FillSettles(c, s);
    hide Fill;
    var t := Fill(c, s);
    TasksAddUp(c, t.q, t.n, t.agg.completed);
    InvBounds(c, t);
  }

  /** The channels hold `runs` messages and never more are in transit. */
  lemma ChannelsNeverBlock(c: Settings, s: Schedule)
    requires Inv(c, s)
    ensures |s.q.inFlight| <= c.runs && |s.q.pending| <= s.n.completed <= c.runs
  {
    InvBounds(c, s);
    KeysBelow(s.q.pending.Keys, |s.corpus.entries|);
  }

  lemma {:induction false} KeysBelow(keys: set<int>, bound: nat)
    requires forall k | k in keys :: 0 <= k < bound
    ensures |keys| <= bound
  {
    if bound > 0 {
      KeysBelow(keys - {bound - 1}, bound - 1);
    } else if keys != {} {
      SomeMember(keys);
    }
  }

  /** The lexicographic measure of the loop: runs left, mutations outstanding,
      indices left to assign, and whether the queue is empty. */
  ghost predicate Falls(c: Settings, s: Schedule, t: Schedule) {
    || Advances(s, t)
    || (t.n.completed == s.n.completed && |t.q.pending| == |s.q.pending|
        && (t.n.nextRunIndex > s.n.nextRunIndex || (t.n.nextRunIndex == s.n.nextRunIndex && |s.q.ready| == 0 < |t.q.ready|)))
  }

  /** An event completes a run or retires a mutation. */
  ghost predicate Advances(s: Schedule, t: Schedule) {
    t.n.completed > s.n.completed || (t.n.completed == s.n.completed && |t.q.pending| < |s.q.pending|)
  }

  lemma AdvanceFalls(c: Settings, s: Schedule, t: Schedule)
    requires Advances(s, t)
    ensures Falls(c, s, t)
  {
  }

  lemma RefillFalls(c: Settings, s: Schedule, plan: Option<Plan>)
    requires Inv(c, s) && s.n.nextCandidateId >= 0 && NeedsSeed(c, Fill(c, s))
    ensures Inv(c, Fill(c, s)) && Fill(c, s).n.nextCandidateId >= 0
    ensures Inv(c, Refill(Fill(c, s), plan)) && Falls(c, s, Refill(Fill(c, s), plan))
  {
    FillSettles(c, s);
    hide Fill, Inv;
    InvBounds(c, Fill(c, s));
    RefillKeepsInv(c, Fill(c, s), plan);
  }

  lemma FreshIndex(c: Settings, s: Schedule, index: int)
    requires Inv(c, s) && index in s.q.inFlight
    ensures index !in s.agg.completed && s.q.inFlight[index].index == index
  {
    SomethingLeft(c, s, index);
  }

  /** The aggregate after classification and kind counting, before addRun. */
  function Counted(a: Aggregate, run: RunRecord): Aggregate {
    a.(seen := Classified(a.seen, run), report := a.report.(runs := WithKind(a.report.runs, run.kind)))
  }

  lemma KindOf(task: Scheduled, o: Outcome)
    requires task.index >= 0
    ensures NewRecord(task, o).kind == task.candidate.kind
  {
  }

  lemma EntriesAfter(c: Config, corpus: Corpora.State, input: Input)
    ensures After(c, corpus, input).entries
         == corpus.entries + (if Verdicts(c, corpus, input).Considered? && Verdicts(c, corpus, input).retained
                              then [Verdicts(c, corpus, input).entry] else [])
  {
  }

  function Released(c: Settings, s: Schedule, index: int): Schedule
    requires s.n.nextSeedAt > 0 ==> c.seedInterval > 0
  {
    s.(q := s.q.(inFlight := s.q.inFlight - {index}), n := CountersAfter(c, s.n))
  }

  function Recorded(c: Settings, s: Schedule, task: Scheduled, o: Outcome): Schedule
    requires task.index >= 0
  {
    var run := FinalRecord(c, s, task, o);
    var corpus := CorpusAfter(c, s, task, o);
    Schedule(s.q.(pending := PendingAfter(c, s.n, s.corpus, s.q.pending, task, o)), s.n, corpus,
             Added(Counted(s.agg, NewRecord(task, o)), run, |corpus.entries|), s.history + [run], s.losses)
  }

  /** Releasing the slot and recording the run in turn is one completion: neither
      step disturbs what the other reads, and judging keeps the digests and kind. */
  lemma ReleaseThenRecord(c: Settings, s: Schedule, index: int, o: Outcome)
    requires index in s.q.inFlight && s.q.inFlight[index].index == index >= 0
    requires s.n.nextSeedAt > 0 ==> c.seedInterval > 0
    ensures Recorded(c, Released(c, s, index), s.q.inFlight[index], o) == Complete(c, s, index, o)
  {
    var task := s.q.inFlight[index];
    ReleasedPending(c, s, index, task, o);
    SameDigests(c, s, task, o);
    hide CountersAfter, ClassifiedRun, WithVerdict, Verdicts, After, Classified, WithKind, Added, PendingAfter, NewRecord;
    assert FinalRecord(c, Released(c, s, index), task, o) == FinalRecord(c, s, task, o);
  }

  lemma ReleasedPending(c: Settings, s: Schedule, index: int, task: Scheduled, o: Outcome)
    requires s.n.nextSeedAt > 0 ==> c.seedInterval > 0
    ensures PendingAfter(c, CountersAfter(c, s.n), s.corpus, s.q.pending, task, o) == PendingAfter(c, s.n, s.corpus, s.q.pending, task, o)
  {
    hide AdvanceSeeds, Verdicts, RequestFor;
  }

  lemma SameDigests(c: Settings, s: Schedule, task: Scheduled, o: Outcome)
    requires task.index >= 0
    ensures var run, fresh' := FinalRecord(c, s, task, o), NewRecord(task, o);
            run.kind == fresh'.kind && Classified(s.agg.seen, run) == Classified(s.agg.seen, fresh')
  {
    hide Verdicts, After;
  }

  lemma CountedKeepsIndices(a: Aggregate, run: RunRecord)
    ensures Counted(a, run).completed == a.completed
  {
  }

  lemma RecordsItsIndex(c: Settings, s: Schedule, task: Scheduled, o: Outcome)
    requires task.index >= 0
    ensures FinalRecord(c, s, task, o).index == task.index
  {
  }

  lemma CompletesOne(c: Settings, s: Schedule, index: int, o: Outcome)
    requires Inv(c, s) && index in s.q.inFlight
    ensures s.q.inFlight[index].index >= 0 && (s.n.nextSeedAt > 0 ==> c.seedInterval > 0)
    ensures Complete(c, s, index, o).n.completed == s.n.completed + 1
  {
    hide Inv, Complete;
    CompleteKeepsInv(c, s, index, o);
  }

  lemma SeedCompletesNothing(c: Settings, s: Schedule, plan: Option<Plan>)
    requires Inv(c, s)
    ensures s.n.nextCandidateId >= 0 && Fill(c, s).n.nextCandidateId >= 0
    ensures Refill(Fill(c, s), plan).n.completed == s.n.completed
  {
    FillSettles(c, s);
    InvBounds(c, Fill(c, s));
  }

  lemma {:induction false} AdmitAllKeepsCount(c: Settings, s: Schedule, entry: Entry, plans: seq<Plan>)
    requires c.maxReady > 0 && s.n.nextCandidateId >= 0
    ensures AdmitAll(c, s, entry, plans).n.completed == s.n.completed
  {
    if plans != [] {
      AdmitAllKeepsCount(c, s, entry, plans[..|plans| - 1]);
    }
  }

  lemma MutationAdvances(c: Settings, s: Schedule, id: int, result: MutationResult)
    requires Inv(c, s) && id in s.q.pending && c.maxReady > 0 && s.n.nextCandidateId >= 0
    ensures Advances(s, MutationDone(c, s, id, result)) && MutationDone(c, s, id, result).n.completed == s.n.completed
  {
    hide Inv, AdmitAll;
    MutationDoneKeepsInv(c, s, id, result);
    assert (s.q.pending - {id}).Keys == s.q.pending.Keys - {id};
    if result.Mutated? {
      var queue := s.agg.report.queue;
      AdmitAllKeepsCount(c, Cleared(s, id, queue.(generated := queue.generated + |result.plans|)), s.q.pending[id].entry,
                         result.plans);
    }
  }

  lemma LaunchAdvances(c: Settings, s: Schedule)
    requires CanLaunch(c, s) && s.n.nextCandidateId >= 0
    ensures LaunchNext(c, s).n.nextRunIndex == s.n.nextRunIndex + 1
  {
  }

  lemma NextIndexIsFree(c: Settings, s: Schedule)
    requires Inv(c, s) && CanLaunch(c, s)
    ensures s.n.nextRunIndex !in s.q.inFlight
  {
    LaunchAssigns(c, s);
  }

  lemma OneFewer<K, V>(m: map<K, V>, k: K)
    requires k in m
    ensures |m - {k}| == |m| - 1
  {
    assert (m - {k}).Keys == m.Keys - {k};
  }

  // ---------------------------------------------------------------- the coordinator

  ghost predicate Journals(history: seq<RunRecord>, index: int) {
    exists i :: 0 <= i < |history| && history[i].index == index
  }

  /** runs.jsonl of a finished experiment. */
  ghost predicate EachIndexOnce(history: seq<RunRecord>, count: int) {
    && |history| == count
    && (forall i :: 0 <= i < |history| ==> 0 <= history[i].index < count)
    && (forall i, j :: 0 <= i < j < |history| ==> history[i].index != history[j].index)
    && (forall k :: 0 <= k < count ==> Journals(history, k))
  }

  function IndexSet(history: seq<RunRecord>): set<int> {
    set run | run in history :: run.index
  }

  lemma {:induction false} IndexSetSize(history: seq<RunRecord>)
    requires forall i, j :: 0 <= i < j < |history| ==> history[i].index != history[j].index
    ensures |IndexSet(history)| == |history|
  {
    if history != [] {
      var init, last := history[..|history| - 1], history[|history| - 1];
      assert history == init + [last];
      IndexSetSize(init);
      assert forall i :: 0 <= i < |init| ==> init[i] == history[i];
      assert last.index !in IndexSet(init);
      assert IndexSet(history) == IndexSet(init) + {last.index};
    }
  }

  lemma SubsetOfSameSize(a: set<int>, b: set<int>)
    requires a <= b && |a| == |b|
    ensures a == b
  {
    assert b == a + (b - a);
    DisjointSets(a, b - a);
    if b != a {
      SomeMember(b - a);
    }
  }

  lemma JournalCoversCompleted(history: seq<RunRecord>, done: set<int>)
    requires HistoryOk(history, done)
    ensures IndexSet(history) == done
  {
    IndexSetSize(history);
    SubsetOfSameSize(IndexSet(history), done);
  }

  lemma FullJournal(history: seq<RunRecord>, done: set<int>, count: nat)
    requires HistoryOk(history, done) && |done| == count
    requires forall k :: k in done <==> 0 <= k < count
    ensures EachIndexOnce(history, count)
  {
    JournalCoversCompleted(history, done);
    forall k | 0 <= k < count
      ensures Journals(history, k)
    {
      assert k in done && k in IndexSet(history);
    }
  }

  lemma CompletedHistory(c: Settings, s: Schedule)
    requires Inv(c, s) && s.n.completed == c.runs
    ensures EachIndexOnce(s.history, c.runs)
  {
    NothingAssigned(c, s);
    FullJournal(s.history, s.agg.completed, c.runs);
  }

  lemma NothingAssigned(c: Settings, s: Schedule)
    requires Inv(c, s) && s.n.completed == c.runs
    ensures forall k :: k in s.agg.completed <==> 0 <= k < c.runs
  {
    TasksAddUp(c, s.q, s.n, s.agg.completed);
    assert |Assigned(s.q).Keys| == 0;
    assert Assigned(s.q).Keys == {};
  }

  /** What one message does: the preferred kind when both are outstanding. */
  ghost function Received(c: Settings, s: Schedule, a: Arrival): Schedule
    requires Inv(c, s) && |s.q.inFlight| + |s.q.pending| > 0
  {
    InvBounds(c, s);
    if TakesExecution(s, a) then
      CompleteKeepsInv(c, s, Pick(s.q.inFlight.Keys, a.pick), a.outcome);
      Complete(c, s, Pick(s.q.inFlight.Keys, a.pick), a.outcome)
    else
      MutationDone(c, s, Pick(s.q.pending.Keys, a.pick), a.result)
  }

  predicate TakesExecution(s: Schedule, a: Arrival) {
    |s.q.inFlight| > 0 && (|s.q.pending| == 0 || !a.mutation)
  }

  /** One pass of the loop body: fill the slots, then refill an idle queue, stop on
      cancellation, or take one message. */
  ghost function Stepped(c: Settings, s: Schedule, plan: Option<Plan>, arrival: Option<Arrival>): Schedule
    requires Inv(c, s) && s.n.completed < c.runs
  {
    InvBounds(c, s);
    FillSettles(c, s);
    SelectNeverStarves(c, s);
    var t := Fill(c, s);
    InvBounds(c, t);
    if NeedsSeed(c, t) then Refill(t, plan) else if arrival.None? then t else Received(c, t, arrival.value)
  }

  /** A completed run is checkpointed every so often. */
  ghost function Checkpoints(c: Settings, fingerprint: string, before: Schedule, after: Schedule, every: int): seq<SavedState>
    requires every > 0
  {
    if after.n.completed > before.n.completed && after.n.completed % every == 0 then [Save(c, fingerprint, after)] else []
  }

  ghost predicate AllValid(saved: seq<SavedState>, c: Settings, fingerprint: string) {
    forall i :: 0 <= i < |saved| ==> Valid(saved[i], c, fingerprint)
  }

  lemma AppendValid(saved: seq<SavedState>, last: SavedState, c: Settings, fingerprint: string)
    requires AllValid(saved, c, fingerprint) && Valid(last, c, fingerprint)
    ensures AllValid(saved + [last], c, fingerprint)
  {
    hide Valid;
  }

  lemma EntriesAgree(c: Settings, s: Schedule)
    requires Inv(c, s)
    ensures s.agg.report.corpus.entries == |s.corpus.entries|
  {
  }

  ghost predicate Referenced(list: seq<Pending>, entries: seq<Entry>) {
    forall i :: 0 <= i < |list| ==> 0 <= list[i].entryId < |entries|
  }

  /** Looks every saved mutation reference up in the restored corpus. */
  method RebuildPending(list: seq<Pending>, collection: Corpus) returns (ok: bool, requests: map<int, Request>)
    requires forall i :: 0 <= i < |collection.entries| ==> GoodEntry(collection.entries[i], i)
    ensures ok <==> Referenced(list, collection.entries)
    ensures ok ==> requests == RestoredPending(list, collection.entries)
  {
    requests := map[];
    for i := 0 to |list|
      invariant Referenced(list[..i], collection.entries)
      invariant requests == RestoredPending(list[..i], collection.entries)
    {
      assert list[..i + 1][..i] == list[..i];
      if list[i].entryId < 0 {
        return false, requests;
      }
      var entry := collection.Find(list[i].entryId);
      if entry.None? {
        IdsArePositions(collection.entries, list[i].entryId);
        return false, requests;
      }
      requests := requests[list[i].entryId := Request(entry.value, list[i].count)];
    }
    assert list[..|list|] == list;
    ok := true;
  }

  lemma IdsArePositions(entries: seq<Entry>, id: nat)
    requires forall i :: 0 <= i < |entries| ==> GoodEntry(entries[i], i)
    ensures id < |entries| ==> exists e :: e in entries && e.id == id
  {
    if id < |entries| {
      assert entries[id] in entries;
    }
  }

  class Coordinator {
    const c: Settings
    const fingerprint: string
    const collection: Corpus
    const accumulator: Accumulator
    var ready: seq<Candidate>
    var rerun: seq<Scheduled>
    var inFlight: map<int, Scheduled>
    var pending: map<int, Request>
    var running: int
    var nextCandidateId: int
    var nextRunIndex: int
    var completed: int
    var nextSeedAt: int
    var seedsDue: int
    // What the hooks have received: runs.jsonl, corpus.jsonl and every checkpoint.
    var runs: seq<RunRecord>
    var entries: seq<Entry>
    var saved: seq<SavedState>
    // Which candidates will never run; the program keeps no such tally.
    ghost var losses: Losses

    ghost function View(): Schedule
      reads this, collection, accumulator
    {
      Schedule(Queues(ready, rerun, inFlight, pending),
               Counters(nextCandidateId, nextRunIndex, completed, nextSeedAt, seedsDue),
               collection.View(), accumulator.View(), runs, losses)
    }

    ghost predicate Reachable()
      reads this, collection, accumulator
    {
      && Inv(c, View())
      && collection.config == c.corpus
      && running == |inFlight|
      && entries == collection.entries
    }

    constructor (settings: Settings, tag: string, plans: seq<Option<Plan>>)
      requires WellConfigured(settings) && |plans| > 0
      ensures c == settings && fingerprint == tag && fresh(collection) && fresh(accumulator)
      ensures View() == Start(settings, plans) && Reachable() && saved == []
    {
      hide Inv, Last, Seeds;
      c, fingerprint := settings, tag;
      collection := new Corpus(settings.corpus);
      var empty := new Accumulator(settings);
      accumulator := empty;
      ready := Last(Seeds(0, plans), settings.maxReady);
      rerun, inFlight, pending, running := [], map[], map[], 0;
      nextCandidateId, nextRunIndex, completed, nextSeedAt, seedsDue := |plans|, 0, 0, settings.seedInterval, 0;
      runs, entries, saved := [], [], [];
      losses := Start(settings, plans).losses;
      new;
      StartInv(settings, plans);
      accumulator.RaisePeak(|ready|);
    }

    /** The resumed loop's variables: everything that was running waits for a rerun. */
    constructor FromCheckpoint(settings: Settings, tag: string, cp: SavedState, loaded: State, journaled: seq<RunRecord>,
                               ghost lost: Losses)
      requires loaded == Restored(cp.corpus, loaded.entries)
      requires forall i :: 0 <= i < |loaded.entries| ==> GoodEntry(loaded.entries[i], i)
      requires Inv(settings, Resume(cp, loaded.entries, journaled, lost)) && settings.corpus.minNew > 0
      requires Referenced(cp.pending, loaded.entries)
      ensures c == settings && fingerprint == tag && fresh(collection) && fresh(accumulator)
      ensures View() == Resume(cp, loaded.entries, journaled, lost) && Reachable() && saved == []
    {
      hide Inv, Unpacked, RestoredPending, Restored, GoodEntry;
      c, fingerprint := settings, tag;
      collection := new Corpus.FromState(settings.corpus, loaded);
      accumulator := new Accumulator.Restore(cp.aggregation);
      ready, rerun, inFlight, running := cp.ready, cp.inFlight, map[], 0;
      nextCandidateId, nextRunIndex, completed := cp.nextCandidateId, cp.nextRunIndex, cp.completed;
      nextSeedAt, seedsDue := cp.nextSeedAt, cp.seedsDue;
      runs, entries, saved, losses := journaled, loaded.entries, [], lost;
      pending := map[];
      new;
      var ok, requests := RebuildPending(cp.pending, collection);
      pending := requests;
    }

    method Launch(task: Scheduled)
      requires task.index !in inFlight
      modifies this`inFlight, this`running
      ensures inFlight == old(inFlight)[task.index := task] && running == old(running) + 1
    {
      inFlight := inFlight[task.index := task];
      running := running + 1;
    }

    /** The first launch loop: tasks saved as in flight by an earlier process. */
    method LaunchSaved()
      requires Reachable()
      modifies this`rerun, this`inFlight, this`running
      ensures View() == old(View()).(q := FillRerun(c, old(View()).q)) && Reachable()
    {
      hide Inv;
      ghost var start := View();
      while running < c.parallelism && |rerun| > 0
        invariant Reachable()
        invariant FillRerun(c, View().q) == FillRerun(c, start.q)
        invariant View() == start.(q := View().q)
        decreases |rerun|
      {
        var task := rerun[0];
        InvBounds(c, View());
        RerunKeepsInv(c, View());
        rerun := rerun[1..];
        Launch(task);
      }
    }

    /** The next run index goes to a due seed, otherwise to the head of the queue. */
    method LaunchCandidate()
      requires CanLaunch(c, View()) && nextCandidateId >= 0 && nextRunIndex !in inFlight && running == |inFlight|
      modifies this`ready, this`inFlight, this`running, this`nextCandidateId, this`nextRunIndex, this`seedsDue
      ensures View() == LaunchNext(c, old(View())) && running == |inFlight| && nextCandidateId >= 0
    {
      var candidate;
      if seedsDue > 0 {
        candidate := Candidate(nextCandidateId, None, PeriodicRandom, PERIODIC_SOURCE, 0, None);
        nextCandidateId := nextCandidateId + 1;
        seedsDue := seedsDue - 1;
      } else {
        candidate := ready[0];
        ready := ready[1..];
      }
      var task := Scheduled(nextRunIndex, c.baseSeed + nextRunIndex, candidate);
      nextRunIndex := nextRunIndex + 1;
      Launch(task);
    }

    /** The second launch loop. */
    method LaunchFresh()
      requires Reachable() && nextCandidateId >= 0
      modifies this`ready, this`inFlight, this`running, this`nextCandidateId, this`nextRunIndex, this`seedsDue
      ensures View() == FillReady(c, old(View())) && Reachable()
    {
      hide Inv, LaunchNext;
      ghost var start := View();
      while nextRunIndex < c.runs && running < c.parallelism && (seedsDue > 0 || |ready| > 0)
        invariant Reachable() && nextCandidateId >= 0
        invariant FillReady(c, View()) == FillReady(c, start)
        decreases c.runs - nextRunIndex
      {
        LaunchKeepsInv(c, View());
        NextIndexIsFree(c, View());
        LaunchAdvances(c, View());
        LaunchCandidate();
      }
    }

    method FillSlots()
      requires Reachable()
      modifies this`ready, this`rerun, this`inFlight, this`running, this`nextCandidateId, this`nextRunIndex, this`seedsDue
      ensures old(nextCandidateId) >= 0 && View() == Fill(c, old(View())) && Reachable()
    {
      InvBounds(c, View());
      hide Inv, FillRerun, FillReady;
      LaunchSaved();
      LaunchFresh();
    }

    /** An idle scheduler asks the initializer for one more seed. */
    method AddSeed(plan: Option<Plan>)
      requires Reachable() && nextCandidateId >= 0 && NeedsSeed(c, View())
      modifies this`ready, this`nextCandidateId
      ensures View() == Refill(old(View()), plan) && Reachable()
    {
      hide Inv;
      RefillKeepsInv(c, View(), plan);
      ready := ready + [Seed(nextCandidateId, plan)];
      nextCandidateId := nextCandidateId + 1;
    }

    // -------------------------------------------------------------- a finished execution

    /** Thresholds follow the number of completed runs, not the run index. */
    method AdvanceThreshold()
      requires nextSeedAt > 0 ==> c.seedInterval > 0
      modifies this`nextSeedAt, this`seedsDue
      ensures (nextSeedAt, seedsDue) == AdvanceSeeds(c, completed, old(nextSeedAt), old(seedsDue))
    {
      while nextSeedAt > 0 && completed >= nextSeedAt
        invariant nextSeedAt > 0 ==> c.seedInterval > 0
        invariant AdvanceSeeds(c, completed, nextSeedAt, seedsDue)
               == AdvanceSeeds(c, completed, old(nextSeedAt), old(seedsDue))
        decreases completed - nextSeedAt
      {
        seedsDue := seedsDue + c.seedsPerInterval;
        nextSeedAt := nextSeedAt + c.seedInterval;
      }
    }

    method ReleaseSlot(index: int)
      requires index in inFlight && running == |inFlight| && (nextSeedAt > 0 ==> c.seedInterval > 0)
      modifies this`inFlight, this`running, this`completed, this`nextSeedAt, this`seedsDue
      ensures View() == Released(c, old(View()), index) && running == |inFlight|
    {
      hide AdvanceSeeds;
      OneFewer(inFlight, index);
      running := running - 1;
      inFlight := inFlight - {index};
      completed := completed + 1;
      ghost var freed := View();
      AdvanceThreshold();
      assert View() == freed.(n := CountersAfter(c, freed.n.(completed := completed - 1)));
    }

    /** Offers an execution to the corpus: a retained entry is persisted and may
        ask for mutations. */
    method Judge(task: Scheduled, o: Outcome, run: RunRecord) returns (judged: RunRecord)
      requires Judged(o) && collection.config == c.corpus && entries == collection.entries
      modifies this`entries, this`pending, collection
      ensures var verdict := Verdicts(c.corpus, old(collection.View()), CorpusInput(task, o));
              && judged == WithVerdict(run, verdict)
              && pending == WithRequest(c, View().n, old(pending), verdict)
      ensures collection.View() == After(c.corpus, old(collection.View()), CorpusInput(task, o))
      ensures entries == collection.entries
    {
      hide Verdicts, After, WithVerdict, CorpusInput, RequestFor;
      EntriesAfter(c.corpus, collection.View(), CorpusInput(task, o));
      var verdict := collection.Consider(CorpusInput(task, o));
      judged := WithVerdict(run, verdict);
      if verdict.Considered? && verdict.retained {
        entries := entries + [verdict.entry];
        var request := RequestFor(c, verdict.entry);
        if request.count > 0 && nextRunIndex < c.runs {
          pending := pending[verdict.entry.id := request];
        }
      }
    }

    /** Summarizes, classifies and judges one execution. */
    method Summarize(task: Scheduled, o: Outcome) returns (run: RunRecord)
      requires task.index >= 0 && collection.config == c.corpus && entries == collection.entries
      modifies this`entries, this`pending, collection, accumulator
      ensures run == FinalRecord(c, old(View()), task, o)
      ensures collection.View() == CorpusAfter(c, old(View()), task, o) && entries == collection.entries
      ensures pending == PendingAfter(c, View().n, old(collection.View()), old(pending), task, o)
      ensures accumulator.View() == Counted(old(accumulator.View()), NewRecord(task, o))
    {
      hide Verdicts, After, WithVerdict, CorpusInput, WithRequest, ClassifiedRun, Classified, WithKind, NewRecord;
      KindOf(task, o);
      run := accumulator.Classify(NewRecord(task, o));
      accumulator.CountKind(task.candidate.kind);
      if Judged(o) {
        run := Judge(task, o, run);
      }
    }

    /** Judges, aggregates and journals one execution. */
    method Record(task: Scheduled, o: Outcome)
      requires task.index >= 0 && task.index !in accumulator.completed
      requires entries == collection.entries && collection.config == c.corpus
      modifies this`entries, this`pending, this`runs, collection, accumulator
      ensures View() == Recorded(c, old(View()), task, o) && entries == collection.entries
    {
      hide FinalRecord, CorpusAfter, Added, Counted, PendingAfter, NewRecord;
      RecordsItsIndex(c, View(), task, o);
      CountedKeepsIndices(accumulator.View(), NewRecord(task, o));
      var run := Summarize(task, o);
      var added := accumulator.AddRun(run, |entries|);
      runs := runs + [run];
    }

    /** Frees the slot, then records the run. */
    method Settle(index: int, o: Outcome)
      requires index in inFlight && inFlight[index].index == index >= 0 && index !in accumulator.completed
      requires running == |inFlight| && entries == collection.entries && collection.config == c.corpus
      requires nextSeedAt > 0 ==> c.seedInterval > 0
      modifies this`inFlight, this`running, this`completed, this`nextSeedAt, this`seedsDue, this`entries, this`pending,
               this`runs, collection, accumulator
      ensures View() == Complete(c, old(View()), index, o)
      ensures running == |inFlight| && entries == collection.entries
    {
      ReleaseThenRecord(c, View(), index, o);
      hide Released, Recorded, Complete;
      var task := inFlight[index];
      ReleaseSlot(index);
      Record(task, o);
    }

    /** One message from executionResults. */
    method OnExecution(index: int, o: Outcome)
      requires Reachable() && index in inFlight
      modifies this`inFlight, this`running, this`completed, this`nextSeedAt, this`seedsDue, this`entries, this`pending,
               this`runs, collection, accumulator
      ensures old(inFlight[index].index >= 0 && (nextSeedAt > 0 ==> c.seedInterval > 0))
      ensures View() == Complete(c, old(View()), index, o) && Reachable()
    {
      CompleteKeepsInv(c, View(), index, o);
      hide Inv, Complete;
      FreshIndex(c, View(), index);
      Settle(index, o);
    }

    // -------------------------------------------------------------- a finished mutation

    /** Queues one mutated plan, evicting the oldest candidate of a full queue. */
    method AdmitPlan(entry: Entry, plan: Plan)
      requires c.maxReady > 0 && nextCandidateId >= 0
      modifies this`ready, this`nextCandidateId, this`losses, accumulator`report
      ensures View() == Admit(c, old(View()), entry, plan) && nextCandidateId >= 0
    {
      var queue := accumulator.report.queue;
      if nextRunIndex + |ready| >= c.runs {
        accumulator.SetQueue(queue.(discarded := queue.discarded + 1));
        losses := losses.(overBudget := losses.overBudget + 1);
        return;
      }
      var candidate := Descendant(nextCandidateId, entry, plan);
      if |ready| == c.maxReady {
        losses := losses.(evicted := OneMore(losses.evicted, ready[0].kind));
        ready := ready[1..];
        queue := queue.(discarded := queue.discarded + 1);
      }
      ready := ready + [candidate];
      queue := queue.(admitted := queue.admitted + 1);
      if |ready| > queue.peak {
        queue := queue.(peak := |ready|);
      }
      accumulator.SetQueue(queue);
      nextCandidateId := nextCandidateId + 1;
    }

    method AdmitPlans(entry: Entry, plans: seq<Plan>)
      requires c.maxReady > 0 && nextCandidateId >= 0
      modifies this`ready, this`nextCandidateId, this`losses, accumulator`report
      ensures View() == AdmitAll(c, old(View()), entry, plans)
    {
      hide Admit;
      for i := 0 to |plans|
        invariant nextCandidateId >= 0
        invariant View() == AdmitAll(c, old(View()), entry, plans[..i])
      {
        assert plans[..i + 1][..i] == plans[..i];
        AdmitPlan(entry, plans[i]);
      }
      assert plans[..|plans|] == plans;
    }

    /** One message from mutationResults. */
    method OnMutation(id: int, result: MutationResult)
      requires Reachable() && id in pending
      modifies this`ready, this`pending, this`nextCandidateId, this`losses, accumulator`report
      ensures old(c.maxReady > 0 && nextCandidateId >= 0)
      ensures View() == MutationDone(c, old(View()), id, result) && Reachable()
    {
      hide Inv, AdmitAll;
      InvBounds(c, View());
      MutationDoneKeepsInv(c, View(), id, result);
      var entry := pending[id].entry;
      pending := pending - {id};
      var queue := accumulator.report.queue;
      match result
      case MutationFailed =>
        accumulator.SetQueue(queue.(errors := queue.errors + 1));
      case Mutated(plans) =>
        accumulator.SetQueue(queue.(generated := queue.generated + |plans|));
        AdmitPlans(entry, plans);
    }

    // -------------------------------------------------------------- checkpoints and the loop

    /** The tally of lost candidates is not part of what is saved. */
    method SaveCheckpoint()
      requires Reachable() && AllValid(saved, c, fingerprint)
      modifies this`saved, accumulator`report
      ensures View() == old(View()) && Reachable()
      ensures saved == old(saved) + [Save(c, fingerprint, View())]
      ensures AllValid(saved, c, fingerprint)
    {
      hide Inv, Valid, AllValid, TaskList, PendingList, Assigned, Snapshotted, Checkpointed;
      SaveIsValid(c, fingerprint, View());
      AppendValid(saved, Save(c, fingerprint, View()), c, fingerprint);
      EntriesAgree(c, View());
      var aggregation := accumulator.TakeSnapshot(|collection.entries|);
      var coverage := collection.Watermark();
      var scheduled := TaskList(Assigned(Queues(ready, rerun, inFlight, pending)));
      saved := saved + [SavedState(CHECKPOINT_VERSION, c, fingerprint, aggregation, coverage, ready, scheduled,
                                   PendingList(pending), nextCandidateId, nextRunIndex, completed, completed, nextSeedAt,
                                   seedsDue)];
    }

    /** A completion, and the checkpoint that may follow it. */
    method ReceiveExecution(index: int, o: Outcome, every: int)
      requires Reachable() && AllValid(saved, c, fingerprint) && every > 0 && index in inFlight
      modifies this, collection, accumulator
      ensures Reachable() && AllValid(saved, c, fingerprint)
      ensures old(inFlight[index].index >= 0 && (nextSeedAt > 0 ==> c.seedInterval > 0))
      ensures View() == Complete(c, old(View()), index, o) && completed == old(completed) + 1
      ensures saved == old(saved) + if completed % every == 0 then [Save(c, fingerprint, View())] else []
    {
      hide Inv, AllValid, Save, Complete;
      CompletesOne(c, View(), index, o);
      OnExecution(index, o);
      if completed % every == 0 {
        SaveCheckpoint();
      }
    }

    /** One message from either result channel. */
    method Receive(arrival: Arrival, every: int)
      requires Reachable() && AllValid(saved, c, fingerprint) && every > 0 && |inFlight| + |pending| > 0
      modifies this, collection, accumulator
      ensures Reachable() && AllValid(saved, c, fingerprint)
      ensures View() == Received(c, old(View()), arrival) && Advances(old(View()), View())
      ensures saved == old(saved) + Checkpoints(c, fingerprint, old(View()), View(), every)
    {
      hide Inv, AllValid, Save, Complete, MutationDone, Pick;
      ghost var before := View();
      if running > 0 && (|pending| == 0 || !arrival.mutation) {
        ReceiveExecution(Pick(inFlight.Keys, arrival.pick), arrival.outcome, every);
      } else {
        InvBounds(c, before);
        MutationAdvances(c, before, Pick(pending.Keys, arrival.pick), arrival.result);
        OnMutation(Pick(pending.Keys, arrival.pick), arrival.result);
      }
    }

    /** One pass of the loop body; false when the context was canceled. `plan` is
        what the initializer would return, `arrival` what the select would. */
    method Step(plan: Option<Plan>, arrival: Option<Arrival>, every: int) returns (more: bool)
      requires Reachable() && AllValid(saved, c, fingerprint) && completed < c.runs && every > 0
      modifies this, collection, accumulator
      ensures Reachable() && AllValid(saved, c, fingerprint)
      ensures View() == Stepped(c, old(View()), plan, arrival)
      ensures !more ==> arrival.None? && saved == old(saved) + [Save(c, fingerprint, View())]
      ensures more ==> saved == old(saved) + Checkpoints(c, fingerprint, old(View()), View(), every)
      ensures more ==> Falls(c, old(View()), View())
    {
      hide Inv, Fill, AllValid, Save, Refill, Falls, Received;
      ghost var start := View();
      InvBounds(c, start);
      FillSettles(c, start);
      SelectNeverStarves(c, start);
      FillSlots();
      if running == 0 && |ready| == 0 && |pending| == 0 && nextRunIndex < c.runs {
        InvBounds(c, View());
        RefillFalls(c, start, plan);
        AddSeed(plan);
        SeedCompletesNothing(c, start, plan);
        return true;
      }
      if arrival.None? {
        SaveCheckpoint();
        return false;
      }
      Receive(arrival.value, every);
      AdvanceFalls(c, start, View());
      return true;
    }

    /** Drops what no run can use any more and saves the final checkpoint. */
    method FinishExperiment()
      requires Reachable() && AllValid(saved, c, fingerprint) && completed == c.runs
      modifies this`ready, this`pending, this`seedsDue, this`saved, this`losses, accumulator`report
      ensures View() == Finish(old(View())) && Reachable() && AllValid(saved, c, fingerprint)
      ensures |saved| > 0 && saved[|saved| - 1] == Save(c, fingerprint, View())
    {
      hide Inv, AllValid, Save;
      FinishKeepsInv(c, View());
      losses := losses.(abandoned := LosingAll(losses.abandoned, ready));
      ready, pending, seedsDue := [], map[], 0;
      SaveCheckpoint();
    }

    /** The whole loop. It ends for every schedule of arrivals: either canceled,
        or with every run index journaled exactly once. */
    method RunFeedback(plans: nat -> Option<Plan>, arrivals: nat -> Option<Arrival>, checkpointEvery: int)
        returns (finished: bool)
      requires Reachable() && AllValid(saved, c, fingerprint)
      modifies this, collection, accumulator
      ensures Reachable() && AllValid(saved, c, fingerprint)
      ensures |saved| > 0 && saved[|saved| - 1] == Save(c, fingerprint, View())
      ensures finished ==> completed == c.runs && EachIndexOnce(runs, c.runs)
      ensures !finished ==> exists k :: arrivals(k).None?
    {
      hide Inv, AllValid, Save;
      var every := if checkpointEvery <= 0 then 1 else checkpointEvery;
      SaveCheckpoint();
      var k := 0;
      InvBounds(c, View());
      while completed < c.runs
        invariant Reachable() && AllValid(saved, c, fingerprint) && completed <= c.runs
        decreases c.runs - completed, |pending|, c.runs - nextRunIndex, if |ready| == 0 then 1 else 0
      {
        InvBounds(c, View());
        var more := Step(plans(k), arrivals(k), every);
        if !more {
          return false;
        }
        InvBounds(c, View());
        k := k + 1;
      }
      CompletedHistory(c, View());
      FinishExperiment();
      finished := true;
    }
  }
}
