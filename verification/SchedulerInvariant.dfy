/** What every reachable scheduler state satisfies, and that each step of the
    loop keeps it. */
module SchedulerInvariant {
  import opened Arithmetic
  import opened Keys
  import opened Corpora
  import opened Aggregation
  import opened Lifecycle
  import opened SchedulerSpec

  // ---------------------------------------------------------------- run indices

  /** No two tasks of the list own the same index. */
  ghost predicate UniqueTasks(tasks: seq<Scheduled>) {
    tasks != [] ==> tasks[0].index !in TaskMap(tasks[1..]) && UniqueTasks(tasks[1..])
  }

  /** The indices 0..next-1 are exactly the done and the assigned ones, and no
      index is both. */
  ghost predicate MapOk(c: Settings, m: map<int, Scheduled>, done: set<int>, next: int) {
    && (forall k | k in m :: m[k].index == k && m[k].seed == c.baseSeed + k)
    && (forall k | k in m :: k !in done)
    && (forall i :: i in done || i in m <==> 0 <= i < next)
    && |done| + |m| == next
  }

  ghost predicate TasksOk(c: Settings, q: Queues, n: Counters, done: set<int>) {
    && UniqueTasks(q.rerun)
    && (forall k | k in q.inFlight :: k !in TaskMap(q.rerun))
    && MapOk(c, Assigned(q), done, n.nextRunIndex)
    && |done| == n.completed
    && 0 <= n.nextRunIndex <= c.runs
    && |q.inFlight| <= c.parallelism
  }

  lemma {:induction false} TaskMapSize(tasks: seq<Scheduled>)
    requires UniqueTasks(tasks)
    ensures |TaskMap(tasks)| == |tasks|
  {
    if tasks != [] {
      TaskMapSize(tasks[1..]);
    }
  }

  /** Nothing is lost or doubled: completed plus outstanding is what was assigned. */
  lemma TasksAddUp(c: Settings, q: Queues, n: Counters, done: set<int>)
    requires TasksOk(c, q, n, done)
    ensures |Assigned(q)| == |q.rerun| + |q.inFlight|
    ensures n.completed + |q.rerun| + |q.inFlight| == n.nextRunIndex
  {
    TaskMapSize(q.rerun);
    DisjointSum(TaskMap(q.rerun), q.inFlight);
  }

  lemma DisjointSum(t: map<int, Scheduled>, f: map<int, Scheduled>)
    requires forall k | k in f :: k !in t
    ensures |t + f| == |t| + |f|
  {
    DisjointSets(t.Keys, f.Keys);
    assert (t + f).Keys == t.Keys + f.Keys;
  }

  lemma DisjointSets(a: set<int>, b: set<int>)
    requires forall k | k in b :: k !in a
    ensures |a + b| == |a| + |b|
  {
    assert forall k :: k in a * b ==> k in b && k !in a;
    assert a * b == {};
  }

  lemma MoveAcross<K, V>(t: map<K, V>, f: map<K, V>, k: K, v: V)
    requires k !in f
    ensures t[k := v] + f == t + f[k := v]
  {
  }

  lemma InsertRight<K, V>(t: map<K, V>, f: map<K, V>, k: K, v: V)
    ensures t + f[k := v] == (t + f)[k := v]
  {
  }

  lemma RemoveRight<K, V>(t: map<K, V>, f: map<K, V>, k: K)
    requires k !in t && k in f
    ensures t + (f - {k}) == (t + f) - {k}
    ensures |f - {k}| == |f| - 1
  {
    assert (f - {k}).Keys == f.Keys - {k};
  }

  lemma RerunKeepsTasks(c: Settings, q: Queues, n: Counters, done: set<int>)
    requires TasksOk(c, q, n, done) && CanRerun(c, q)
    ensures Assigned(RerunFirst(q)) == Assigned(q)
    ensures TasksOk(c, RerunFirst(q), n, done)
  {
    var head, tail := q.rerun[0], TaskMap(q.rerun[1..]);
    assert head.index in TaskMap(q.rerun);
    MoveAcross(tail, q.inFlight, head.index, head);
  }

  lemma LaunchKeepsMap(c: Settings, m: map<int, Scheduled>, done: set<int>, next: int, task: Scheduled)
    requires MapOk(c, m, done, next)
    requires task.index == next && task.seed == c.baseSeed + next
    ensures next !in m && MapOk(c, m[next := task], done, next + 1)
  {
  }

  lemma CompleteKeepsMap(c: Settings, m: map<int, Scheduled>, done: set<int>, next: int, index: int)
    requires MapOk(c, m, done, next) && index in m
    ensures MapOk(c, m - {index}, done + {index}, next)
    ensures 0 <= index < next && index !in done
  {
    var m' := m - {index};
    assert m'.Keys == m.Keys - {index};
    assert |m'.Keys| == |m.Keys| - 1;
  }

  lemma LaunchKeepsTasks(c: Settings, q: Queues, n: Counters, done: set<int>, ready: seq<Candidate>, task: Scheduled,
                         n': Counters)
    requires TasksOk(c, q, n, done)
    requires n.nextRunIndex < c.runs && |q.inFlight| < c.parallelism
    requires task.index == n.nextRunIndex && task.seed == c.baseSeed + n.nextRunIndex
    requires n'.nextRunIndex == n.nextRunIndex + 1 && n'.completed == n.completed
    ensures var q' := Launched(q.(ready := ready), task);
            && task.index !in Assigned(q)
            && Assigned(q') == Assigned(q)[task.index := task]
            && TasksOk(c, q', n', done)
  {
    LaunchKeepsMap(c, Assigned(q), done, n.nextRunIndex, task);
    assert task.index !in TaskMap(q.rerun);
    InsertRight(TaskMap(q.rerun), q.inFlight, task.index, task);
  }

  lemma CompleteKeepsTasks(c: Settings, q: Queues, n: Counters, done: set<int>, index: int, q': Queues, n': Counters)
    requires TasksOk(c, q, n, done) && index in q.inFlight
    requires q'.rerun == q.rerun && q'.inFlight == q.inFlight - {index}
    requires n'.nextRunIndex == n.nextRunIndex && n'.completed == n.completed + 1
    ensures Assigned(q') == Assigned(q) - {index}
    ensures TasksOk(c, q', n', done + {index})
    ensures 0 <= index < c.runs && index !in done && q.inFlight[index].index == index
  {
    RemoveRight(TaskMap(q.rerun), q.inFlight, index);
    CompleteKeepsMap(c, Assigned(q), done, n.nextRunIndex, index);
    assert Assigned(q)[index] == q.inFlight[index];
  }

  // ---------------------------------------------------------------- counting candidate kinds

  function OfKind(m: map<int, Scheduled>, kind: Kind): set<int> {
    set k | k in m && m[k].candidate.kind == kind
  }

  function Outstanding(q: Queues, kind: Kind): nat {
    |OfKind(Assigned(q), kind)|
  }

  lemma {:induction false} QueuedAppend(ready: seq<Candidate>, last: Candidate, kind: Kind)
    ensures Queued(ready + [last], kind) == Queued(ready, kind) + (if last.kind == kind then 1 else 0)
  {
    if ready == [] {
      assert ready + [last] == [last];
    } else {
      QueuedAppend(ready[1..], last, kind);
      assert (ready + [last])[1..] == ready[1..] + [last];
    }
  }

  lemma OfKindInsert(m: map<int, Scheduled>, k: int, t: Scheduled, kind: Kind)
    requires k !in m
    ensures |OfKind(m[k := t], kind)| == |OfKind(m, kind)| + (if t.candidate.kind == kind then 1 else 0)
  {
    if t.candidate.kind == kind {
      assert OfKind(m[k := t], kind) == OfKind(m, kind) + {k};
    } else {
      assert OfKind(m[k := t], kind) == OfKind(m, kind);
    }
  }

  lemma OfKindRemove(m: map<int, Scheduled>, k: int, kind: Kind)
    requires k in m
    ensures |OfKind(m - {k}, kind)| == |OfKind(m, kind)| - (if m[k].candidate.kind == kind then 1 else 0)
  {
    if m[k].candidate.kind == kind {
      assert OfKind(m, kind) == OfKind(m - {k}, kind) + {k};
    } else {
      assert OfKind(m - {k}, kind) == OfKind(m, kind);
    }
  }

  // ---------------------------------------------------------------- the periodic seed schedule

  function NextSeedAt(c: Settings, completed: nat): int
    requires c.seedInterval >= 0
  {
    if c.seedInterval == 0 then 0 else c.seedInterval * (completed / c.seedInterval + 1)
  }

  function SeedQuota(c: Settings, completed: nat): int
    requires c.seedInterval >= 0
  {
    if c.seedInterval == 0 then 0 else c.seedsPerInterval * (completed / c.seedInterval)
  }

  /** Every interval releases its quota of periodic seeds: each is either still
      due or has been launched. The last reset happens only when all runs are done. */
  ghost predicate SeedsOk(c: Settings, n: Counters, launched: int) {
    && c.seedInterval >= 0 && n.completed >= 0
    && n.nextSeedAt == NextSeedAt(c, n.completed)
    && n.seedsDue >= 0
    && (c.seedInterval == 0 ==> n.seedsDue == 0)
    && (n.completed < c.runs ==> n.seedsDue + launched == SeedQuota(c, n.completed))
  }

  lemma DivisionStep(completed: nat, interval: int)
    requires interval > 0
    ensures var q := completed / interval;
            (completed + 1) / interval == if completed + 1 >= interval * (q + 1) then q + 1 else q
    ensures completed < interval * (completed / interval + 1)
  {
    var q, r := completed / interval, completed % interval;
    assert completed == interval * q + r;
    if r + 1 == interval {
      assert completed + 1 == interval * (q + 1);
      QuotientIs(completed + 1, interval, q + 1, 0);
    } else {
      QuotientIs(completed + 1, interval, q, r + 1);
    }
  }

  /** One more completion releases a quota exactly when it crosses a threshold. */
  lemma CompleteKeepsSeeds(c: Settings, n: Counters, launched: int)
    requires WellConfigured(c) && SeedsOk(c, n, launched) && n.completed < c.runs
    ensures SeedsOk(c, CountersAfter(c, n), launched)
    ensures CountersAfter(c, n).seedsDue + launched == SeedQuota(c, n.completed + 1)
  {
    if c.seedInterval > 0 {
      var interval, q := c.seedInterval, n.completed / c.seedInterval;
      DivisionStep(n.completed, interval);
      assert n.nextSeedAt == interval * (q + 1);
      assert interval * (q + 2) == interval * (q + 1) + interval;
      assert c.seedsPerInterval * (q + 1) == c.seedsPerInterval * q + c.seedsPerInterval;
      if n.completed + 1 >= n.nextSeedAt {
        assert AdvanceSeeds(c, n.completed + 1, n.nextSeedAt, n.seedsDue)
            == AdvanceSeeds(c, n.completed + 1, n.nextSeedAt + interval, n.seedsDue + c.seedsPerInterval);
        assert n.completed + 1 < n.nextSeedAt + interval;
      }
    }
  }

  // ---------------------------------------------------------------- the mutation queue

  /** Periodic seeds given to workers so far: outstanding or executed. */
  function LaunchedSeeds(s: Schedule): int {
    Outstanding(s.q, PeriodicRandom) + s.agg.report.runs.periodic
  }

  /** Every candidate ever made is accounted for: executed, outstanding, queued, or
      among the losses; so is every admitted mutation. */
  ghost predicate BooksOk(q: Queues, n: Counters, executed: int, queue: QueueTally, losses: Losses) {
    && n.nextCandidateId == n.nextRunIndex + |q.ready| + Size(losses.evicted) + Size(losses.abandoned)
    && queue.admitted == executed + Outstanding(q, Mutation) + Queued(q.ready, Mutation)
                         + losses.evicted.mutations + losses.abandoned.mutations
    && queue.discarded == losses.overBudget + Size(losses.evicted)
  }

  /** Every generated plan was admitted or found no run index. Between two plans of
      one result this does not hold yet. */
  ghost predicate Settled(queue: QueueTally, losses: Losses) {
    queue.generated == queue.admitted + losses.overBudget
  }

  ghost predicate QueueOk(c: Settings, ready: seq<Candidate>, queue: QueueTally) {
    && 1 <= queue.peak <= c.maxReady && |ready| <= queue.peak
    && forall i :: 0 <= i < |ready| ==> !ready[i].kind.PeriodicRandom?
  }

  // ---------------------------------------------------------------- corpus and report

  ghost predicate CorpusOk(corpus: Corpora.State, agg: Aggregate, pending: map<int, Request>) {
    && WellFormed(corpus)
    && agg.report.corpus.entries == |corpus.entries|
    && agg.report.unique.semanticStates == |corpus.semanticStates|
    && agg.report.unique.semanticTransitions == |corpus.semanticTransitions|
    && corpus.coverage <= agg.states
    && |corpus.entries| <= |agg.completed|
    && forall id | id in pending ::
         0 <= id < |corpus.entries| && pending[id].entry == corpus.entries[id] && pending[id].count > 0
  }

  /** The journal of completed runs lists exactly the completed indices, once each. */
  ghost predicate HistoryOk(history: seq<RunRecord>, done: set<int>) {
    && |history| == |done|
    && (forall i :: 0 <= i < |history| ==> history[i].index in done)
    && (forall i, j :: 0 <= i < j < |history| ==> history[i].index != history[j].index)
  }

  // ---------------------------------------------------------------- candidate IDs

  /** No candidate ID is ever shared, between any two places or times. */
  ghost predicate IdsOk(q: Queues, next: int, history: seq<RunRecord>) {
    var m := Assigned(q);
    && (forall i :: 0 <= i < |q.ready| ==> q.ready[i].id < next)
    && (forall k | k in m :: m[k].candidate.id < next)
    && (forall i :: 0 <= i < |history| ==> history[i].candidateId < next)
    && (forall i, j :: 0 <= i < j < |q.ready| ==> q.ready[i].id != q.ready[j].id)
    && (forall k, l | k in m && l in m && k != l :: m[k].candidate.id != m[l].candidate.id)
    && (forall i, j :: 0 <= i < j < |history| ==> history[i].candidateId != history[j].candidateId)
    && (forall i, k | 0 <= i < |q.ready| && k in m :: q.ready[i].id != m[k].candidate.id)
    && (forall i, j :: 0 <= i < |q.ready| && 0 <= j < |history| ==> q.ready[i].id != history[j].candidateId)
    && (forall j, k | 0 <= j < |history| && k in m :: history[j].candidateId != m[k].candidate.id)
  }

  // ---------------------------------------------------------------- the invariant

  /** What holds even between two plans of a mutation result. */
  ghost predicate Core(c: Settings, s: Schedule) {
    && WellConfigured(c) && s.n.nextCandidateId >= 0
    && TasksOk(c, s.q, s.n, s.agg.completed)
    && SeedsOk(c, s.n, LaunchedSeeds(s))
    && BooksOk(s.q, s.n, s.agg.report.runs.mutations, s.agg.report.queue, s.losses)
    && QueueOk(c, s.q.ready, s.agg.report.queue)
    && CorpusOk(s.corpus, s.agg, s.q.pending)
    && Consistent(s.agg, c)
    && HistoryOk(s.history, s.agg.completed)
    && IdsOk(s.q, s.n.nextCandidateId, s.history)
  }

  ghost predicate Inv(c: Settings, s: Schedule) {
    Core(c, s) && Settled(s.agg.report.queue, s.losses)
  }

  // ---------------------------------------------------------------- what a step leaves alone

  /** The IDs are those of the ready queue and of the assigned tasks. */
  lemma SameIds(q: Queues, next: int, history: seq<RunRecord>, q': Queues)
    requires IdsOk(q, next, history) && q'.ready == q.ready && Assigned(q') == Assigned(q)
    ensures IdsOk(q', next, history)
  {
    hide Assigned;
  }

  lemma SameTasks(c: Settings, q: Queues, n: Counters, done: set<int>, q': Queues, n': Counters)
    requires TasksOk(c, q, n, done) && q'.rerun == q.rerun && q'.inFlight == q.inFlight
    requires n'.nextRunIndex == n.nextRunIndex && n'.completed == n.completed
    ensures Assigned(q') == Assigned(q) && TasksOk(c, q', n', done)
  {
    hide TaskMap, UniqueTasks, MapOk;
  }

  lemma SameLaunches(s: Schedule, t: Schedule)
    requires Assigned(t.q) == Assigned(s.q) && t.agg.report.runs == s.agg.report.runs
    ensures LaunchedSeeds(t) == LaunchedSeeds(s) && Outstanding(t.q, Mutation) == Outstanding(s.q, Mutation)
  {
    hide Assigned, OfKind;
  }

  /** Fewer requests and another queue tally do not touch the corpus. */
  lemma SameCorpus(corpus: Corpora.State, agg: Aggregate, pending: map<int, Request>, queue: QueueTally, pending': map<int, Request>)
    requires CorpusOk(corpus, agg, pending)
    requires forall id | id in pending' :: id in pending && pending'[id] == pending[id]
    ensures CorpusOk(corpus, WithQueue(agg, queue), pending')
  {
    hide WellFormed;
  }

  /** A step that only works on the ready queue, its tally and the requests. */
  ghost predicate QueueStep(s: Schedule, t: Schedule) {
    && t.q.rerun == s.q.rerun && t.q.inFlight == s.q.inFlight
    && (forall id | id in t.q.pending :: id in s.q.pending && t.q.pending[id] == s.q.pending[id])
    && t.n == s.n.(nextCandidateId := t.n.nextCandidateId)
    && t.corpus == s.corpus && t.history == s.history
    && t.agg == WithQueue(s.agg, t.agg.report.queue)
  }

  lemma QueueStepKeeps(c: Settings, s: Schedule, t: Schedule)
    requires Core(c, s) && QueueStep(s, t)
    ensures WellConfigured(c) && Assigned(t.q) == Assigned(s.q) && Outstanding(t.q, Mutation) == Outstanding(s.q, Mutation)
    ensures TasksOk(c, t.q, t.n, t.agg.completed) && SeedsOk(c, t.n, LaunchedSeeds(t))
    ensures CorpusOk(t.corpus, t.agg, t.q.pending) && HistoryOk(t.history, t.agg.completed)
  {
    hide TasksOk, CorpusOk, HistoryOk, IdsOk, Consistent, BooksOk, QueueOk, Assigned, LaunchedSeeds, Outstanding;
    SameTasks(c, s.q, s.n, s.agg.completed, t.q, t.n);
    SameLaunches(s, t);
    SameCorpus(s.corpus, s.agg, s.q.pending, t.agg.report.queue, t.q.pending);
  }

  // ---------------------------------------------------------------- steps: launching

  lemma RerunKeepsInv(c: Settings, s: Schedule)
    requires Inv(c, s) && CanRerun(c, s.q)
    ensures Inv(c, s.(q := RerunFirst(s.q)))
  {
    hide TasksOk, CorpusOk, HistoryOk, IdsOk, Consistent, Assigned, OfKind, Queued;
    RerunKeepsTasks(c, s.q, s.n, s.agg.completed);
    SameLaunches(s, s.(q := RerunFirst(s.q)));
    SameIds(s.q, s.n.nextCandidateId, s.history, RerunFirst(s.q));
  }

  lemma {:induction false} FillRerunKeepsInv(c: Settings, s: Schedule)
    requires Inv(c, s)
    ensures Inv(c, s.(q := FillRerun(c, s.q))) && !CanRerun(c, FillRerun(c, s.q))
    ensures FillRerun(c, s.q).ready == s.q.ready && FillRerun(c, s.q).pending == s.q.pending
    decreases |s.q.rerun|
  {
    if CanRerun(c, s.q) {
      RerunKeepsInv(c, s);
      FillRerunKeepsInv(c, s.(q := RerunFirst(s.q)));
    }
  }

  /** What LaunchNext puts in flight. */
  function NextTask(c: Settings, s: Schedule): Scheduled
    requires CanLaunch(c, s) && s.n.nextCandidateId >= 0
  {
    LaunchNext(c, s).q.inFlight[s.n.nextRunIndex]
  }

  lemma LaunchAssigns(c: Settings, s: Schedule)
    requires Inv(c, s) && CanLaunch(c, s)
    ensures var t := LaunchNext(c, s);
            && s.n.nextRunIndex !in Assigned(s.q)
            && Assigned(t.q) == Assigned(s.q)[s.n.nextRunIndex := NextTask(c, s)]
            && TasksOk(c, t.q, t.n, t.agg.completed)
  {
    var t := LaunchNext(c, s);
    LaunchKeepsTasks(c, s.q, s.n, s.agg.completed, t.q.ready, NextTask(c, s), t.n);
  }

  /** How a launch moves the counts the books are made of. */
  lemma LaunchCounts(c: Settings, s: Schedule)
    requires Inv(c, s) && CanLaunch(c, s)
    ensures var t := LaunchNext(c, s);
            && LaunchedSeeds(t) == LaunchedSeeds(s) + (if s.n.seedsDue > 0 then 1 else 0)
            && Outstanding(t.q, Mutation) + Queued(t.q.ready, Mutation)
               == Outstanding(s.q, Mutation) + Queued(s.q.ready, Mutation)
  {
    LaunchAssigns(c, s);
    hide TasksOk, SeedsOk, BooksOk, CorpusOk, HistoryOk, IdsOk, Consistent, Assigned, OfKind;
    OfKindInsert(Assigned(s.q), s.n.nextRunIndex, NextTask(c, s), PeriodicRandom);
    OfKindInsert(Assigned(s.q), s.n.nextRunIndex, NextTask(c, s), Mutation);
    if s.n.seedsDue <= 0 {
      assert !s.q.ready[0].kind.PeriodicRandom?;
    }
  }

  lemma LaunchKeepsCounts(c: Settings, s: Schedule)
    requires Inv(c, s) && CanLaunch(c, s)
    ensures var t := LaunchNext(c, s);
            && SeedsOk(c, t.n, LaunchedSeeds(t))
            && BooksOk(t.q, t.n, t.agg.report.runs.mutations, t.agg.report.queue, t.losses)
            && QueueOk(c, t.q.ready, t.agg.report.queue)
  {
    hide TasksOk, CorpusOk, HistoryOk, IdsOk, Consistent, Queued, LaunchedSeeds, Outstanding, NextSeedAt, SeedQuota;
    LaunchCounts(c, s);
  }

  /** Moving a candidate from the queue (or a fresh one) into the assigned set
      keeps the IDs apart. */
  lemma IdsMove(q: Queues, next: int, history: seq<RunRecord>, q': Queues, next': int, key: int, task: Scheduled)
    requires IdsOk(q, next, history) && next' >= next >= 0 && key !in Assigned(q)
    requires Assigned(q') == Assigned(q)[key := task]
    requires (q'.ready == q.ready && task.candidate.id == next < next')
          || (q.ready != [] && q'.ready == q.ready[1..] && task.candidate == q.ready[0])
    ensures IdsOk(q', next', history)
  {
    hide Assigned;
  }

  lemma LaunchKeepsInv(c: Settings, s: Schedule)
    requires Inv(c, s) && CanLaunch(c, s)
    ensures Inv(c, LaunchNext(c, s))
  {
    hide TasksOk, SeedsOk, BooksOk, CorpusOk, HistoryOk, QueueOk, IdsOk, Consistent, Assigned, LaunchedSeeds;
    LaunchAssigns(c, s);
    LaunchKeepsCounts(c, s);
    var t := LaunchNext(c, s);
    IdsMove(s.q, s.n.nextCandidateId, s.history, t.q, t.n.nextCandidateId, s.n.nextRunIndex, NextTask(c, s));
  }

  lemma {:induction false} FillReadyKeepsInv(c: Settings, s: Schedule)
    requires Inv(c, s)
    ensures Inv(c, FillReady(c, s)) && !CanLaunch(c, FillReady(c, s))
    decreases c.runs - s.n.nextRunIndex
  {
    if CanLaunch(c, s) {
      LaunchKeepsInv(c, s);
      FillReadyKeepsInv(c, LaunchNext(c, s));
    }
  }

  /** Filling the slots leaves reruns, mutations and completions alone. */
  lemma {:induction false} FillReadyFrame(c: Settings, s: Schedule)
    requires s.n.nextCandidateId >= 0
    ensures var t := FillReady(c, s);
            && t.q.rerun == s.q.rerun && t.q.pending == s.q.pending && t.n.completed == s.n.completed
            && t.n.nextRunIndex >= s.n.nextRunIndex && t.corpus == s.corpus && t.agg == s.agg && t.history == s.history
            && t.losses == s.losses
            && s.q.inFlight.Keys <= t.q.inFlight.Keys
            && (CanLaunch(c, s) ==> s.n.nextRunIndex in t.q.inFlight && t.n.nextRunIndex > s.n.nextRunIndex)
    decreases c.runs - s.n.nextRunIndex
  {
    if CanLaunch(c, s) {
      FillReadyFrame(c, LaunchNext(c, s));
      assert s.n.nextRunIndex in LaunchNext(c, s).q.inFlight.Keys;
    }
  }

  lemma FillKeepsInv(c: Settings, s: Schedule)
    requires Inv(c, s)
    ensures Inv(c, Fill(c, s))
  {
    FillRerunKeepsInv(c, s);
    FillReadyKeepsInv(c, s.(q := FillRerun(c, s.q)));
  }

  // ---------------------------------------------------------------- steps: refilling

  lemma IdsAppend(q: Queues, next: int, history: seq<RunRecord>, ready: seq<Candidate>, q': Queues, candidate: Candidate)
    requires IdsOk(q, next, history) && candidate.id == next >= 0
    requires ready == q.ready || (q.ready != [] && ready == q.ready[1..])
    requires q'.ready == ready + [candidate] && Assigned(q') == Assigned(q)
    ensures IdsOk(q', next + 1, history)
  {
    hide Assigned;
  }

  lemma RefillKeepsInv(c: Settings, s: Schedule, plan: Option<Plan>)
    requires Inv(c, s) && NeedsSeed(c, s)
    ensures Inv(c, Refill(s, plan))
  {
    hide TasksOk, SeedsOk, CorpusOk, HistoryOk, IdsOk, Consistent, Assigned, LaunchedSeeds, Outstanding, Queued;
    var seed, t := Seed(s.n.nextCandidateId, plan), Refill(s, plan);
    QueueStepKeeps(c, s, t);
    QueuedAppend(s.q.ready, seed, Mutation);
    IdsAppend(s.q, s.n.nextCandidateId, s.history, s.q.ready, t.q, seed);
  }

  // ---------------------------------------------------------------- steps: a completed execution

  lemma SomethingLeft(c: Settings, s: Schedule, index: int)
    requires Inv(c, s) && index in s.q.inFlight
    ensures s.n.completed < c.runs
    ensures s.q.inFlight[index].index == index && 0 <= index < c.runs && index !in s.agg.completed
    ensures s.n.nextSeedAt > 0 ==> c.seedInterval > 0
  {
    TasksAddUp(c, s.q, s.n, s.agg.completed);
    CompleteKeepsTasks(c, s.q, s.n, s.agg.completed, index, s.q.(inFlight := s.q.inFlight - {index}),
                       s.n.(completed := s.n.completed + 1));
  }

  /** What the record written to runs.jsonl says, and what it does to the report. */
  lemma FinalRecordFacts(c: Settings, s: Schedule, index: int, o: Outcome)
    requires Inv(c, s) && index in s.q.inFlight && s.q.inFlight[index].index == index >= 0
    ensures var task := s.q.inFlight[index];
            var run := FinalRecord(c, s, task, o);
            && run.index == index && run.candidateId == task.candidate.id && run.kind == task.candidate.kind
            && run.stateKeys == Sorted(Elements(o.states))
            && (run.admission.Some? ==> run.succeeded)
            && |CorpusAfter(c, s, task, o).entries| == |s.corpus.entries| + (if Keeps(run.admission) then 1 else 0)
            && (run.retained <==> Keeps(run.admission))
            && (run.retained ==> run.corpusId == Some(|s.corpus.entries|))
            && run.newSemanticStates == |CorpusAfter(c, s, task, o).semanticStates| - |s.corpus.semanticStates|
            && run.newSemanticTransitions == |CorpusAfter(c, s, task, o).semanticTransitions| - |s.corpus.semanticTransitions|
  {
    if Judged(o) {
      VerdictFacts(c, s.corpus, CorpusInput(s.q.inFlight[index], o));
    }
  }

  /** A verdict agrees with what it did to the corpus. */
  lemma VerdictFacts(c: Settings, corpus: Corpora.State, input: Input)
    ensures var verdict, after := Verdicts(c.corpus, corpus, input), After(c.corpus, corpus, input);
            && (verdict.Refused? ==> after == corpus)
            && (verdict.Considered? ==>
                  && (verdict.retained <==> Keeps(Some(verdict.reason)))
                  && (verdict.retained ==> verdict.entry.id == |corpus.entries|)
                  && |after.entries| == |corpus.entries| + (if verdict.retained then 1 else 0)
                  && |verdict.entry.newSemanticStates| == |after.semanticStates| - |corpus.semanticStates|
                  && |verdict.entry.newSemanticTransitions| == |after.semanticTransitions| - |corpus.semanticTransitions|)
  {
    hide Sorted, Elements;
    AddedKeys(corpus.semanticStates, Elements(input.semanticStates));
    AddedKeys(corpus.semanticTransitions, Elements(input.semanticTransitions));
  }

  lemma AddedKeys(covered: set<Key>, more: set<Key>)
    ensures |covered + more| == |covered| + |Sorted(more - covered)|
  {
    assert covered + more == covered + (more - covered);
  }

  /** New entries and requests keep every pending request pointing at its entry. */
  lemma RequestsStayGood(c: Settings, corpus: Corpora.State, pending: map<int, Request>, n: Counters, input: Input)
    requires WellConfigured(c)
    requires forall id | id in pending ::
               0 <= id < |corpus.entries| && pending[id].entry == corpus.entries[id] && pending[id].count > 0
    ensures var verdict, after := Verdicts(c.corpus, corpus, input), After(c.corpus, corpus, input);
            var pending' := WithRequest(c, n, pending, verdict);
            forall id | id in pending' ::
               0 <= id < |after.entries| && pending'[id].entry == after.entries[id] && pending'[id].count > 0
  {
    CountIsPositive(c, Verdicts(c.corpus, corpus, input));
  }

  /** The corpus after a completion is well formed and every request points into it. */
  lemma CompletedCorpus(c: Settings, s: Schedule, task: Scheduled, o: Outcome)
    requires WellConfigured(c) && CorpusOk(s.corpus, s.agg, s.q.pending) && task.index >= 0
    ensures var corpus, pending := CorpusAfter(c, s, task, o), PendingAfter(c, s.n, s.corpus, s.q.pending, task, o);
            && WellFormed(corpus)
            && corpus.coverage <= s.corpus.coverage + Elements(o.states)
            && forall id | id in pending ::
                 0 <= id < |corpus.entries| && pending[id].entry == corpus.entries[id] && pending[id].count > 0
  {
    hide WellFormed, Verdicts, WithRequest, Elements;
    if Judged(o) {
      ConsiderKeepsWellFormed(c.corpus, s.corpus, CorpusInput(task, o));
      RequestsStayGood(c, s.corpus, s.q.pending, s.n, CorpusInput(task, o));
    }
  }

  /** The figures of the report that must agree with the corpus still do. */
  lemma CompletedFigures(c: Settings, s: Schedule, index: int, o: Outcome)
    requires Inv(c, s) && index in s.q.inFlight && s.q.inFlight[index].index == index && 0 <= index < c.runs
    requires index !in s.agg.completed && (s.n.nextSeedAt > 0 ==> c.seedInterval > 0)
    ensures var t := Complete(c, s, index, o);
            && t.agg.report.corpus.entries == |t.corpus.entries| <= |t.agg.completed|
            && t.agg.report.unique.semanticStates == |t.corpus.semanticStates|
            && t.agg.report.unique.semanticTransitions == |t.corpus.semanticTransitions|
            && t.agg.states == s.agg.states + Elements(o.states)
  {
    hide TasksOk, SeedsOk, BooksOk, HistoryOk, IdsOk, QueueOk, Consistent, FinalRecord, CorpusAfter, PendingAfter, WellFormed,
         WithAdmission, Classified, CountersAfter;
    FinalRecordFacts(c, s, index, o);
    assert |s.agg.completed + {index}| == |s.agg.completed| + 1;
  }

  lemma CompleteKeepsCorpus(c: Settings, s: Schedule, index: int, o: Outcome)
    requires Inv(c, s) && index in s.q.inFlight && s.q.inFlight[index].index == index && 0 <= index < c.runs
    requires index !in s.agg.completed && (s.n.nextSeedAt > 0 ==> c.seedInterval > 0)
    ensures var t := Complete(c, s, index, o); CorpusOk(t.corpus, t.agg, t.q.pending)
  {
    hide TasksOk, SeedsOk, BooksOk, HistoryOk, IdsOk, QueueOk, Consistent, FinalRecord, CorpusAfter, PendingAfter, WellFormed,
         Absorbed, CountersAfter, Elements;
    CompletedCorpus(c, s, s.q.inFlight[index], o);
    CompletedFigures(c, s, index, o);
  }

  lemma CountIsPositive(c: Settings, verdict: Verdict)
    requires WellConfigured(c)
    ensures verdict.Considered? ==> RequestFor(c, verdict.entry).count > 0
  {
    if verdict.Considered? {
      var novelty := |verdict.entry.newSemanticStates| + |verdict.entry.newSemanticTransitions|;
      MutationCountIsCappedProduct(if novelty > 1 then novelty else 1, c.mutationsPerNewState, c.maxMutationsPerCorpus);
    }
  }

  /** mutationCount is min(newStates * perState, maximum), and tests the quotient
      first, so the product it forms never exceeds the bound. */
  lemma MutationCountIsCappedProduct(newStates: int, perState: int, maximum: int)
    requires newStates > 0 && perState > 0 && maximum > 0
    ensures MutationCount(newStates, perState, maximum)
            == if newStates * perState < maximum then newStates * perState else maximum
    ensures newStates <= maximum / perState ==> newStates * perState <= maximum
    ensures MutationCount(newStates, perState, maximum) > 0
  {
    var quotient := maximum / perState;
    QuotientBounds(maximum, perState);
    if newStates > quotient {
      Monotone(quotient + 1, newStates, perState);
    } else {
      Monotone(newStates, quotient, perState);
    }
    Monotone(1, newStates, perState);
  }

  /** A periodic seed that completes moves from the outstanding to the executed count. */
  lemma CompleteConservesSeeds(c: Settings, s: Schedule, index: int, o: Outcome)
    requires Inv(c, s) && index in s.q.inFlight && s.q.inFlight[index].index == index >= 0
    requires s.n.nextSeedAt > 0 ==> c.seedInterval > 0
    requires Assigned(Complete(c, s, index, o).q) == Assigned(s.q) - {index} && index in Assigned(s.q)
    requires Assigned(s.q)[index] == s.q.inFlight[index]
    ensures LaunchedSeeds(Complete(c, s, index, o)) == LaunchedSeeds(s)
  {
    FinalRecordFacts(c, s, index, o);
    OfKindRemove(Assigned(s.q), index, PeriodicRandom);
  }

  lemma CompleteKeepsMutations(c: Settings, s: Schedule, index: int, o: Outcome)
    requires Inv(c, s) && index in s.q.inFlight && s.q.inFlight[index].index == index >= 0
    requires s.n.nextSeedAt > 0 ==> c.seedInterval > 0
    requires Assigned(Complete(c, s, index, o).q) == Assigned(s.q) - {index} && index in Assigned(s.q)
    requires Assigned(s.q)[index] == s.q.inFlight[index]
    ensures var t := Complete(c, s, index, o);
            BooksOk(t.q, t.n, t.agg.report.runs.mutations, t.agg.report.queue, t.losses)
    ensures s.q.inFlight[index].candidate.kind.Mutation? ==> s.agg.report.runs.mutations < s.agg.report.queue.admitted
  {
    FinalRecordFacts(c, s, index, o);
    OfKindRemove(Assigned(s.q), index, Mutation);
  }

  lemma HistoryAppend(history: seq<RunRecord>, done: set<int>, run: RunRecord)
    requires HistoryOk(history, done) && run.index !in done
    ensures HistoryOk(history + [run], done + {run.index})
  {
  }

  lemma IdsComplete(q: Queues, next: int, history: seq<RunRecord>, q': Queues, index: int, run: RunRecord)
    requires IdsOk(q, next, history) && index in Assigned(q)
    requires q'.ready == q.ready && Assigned(q') == Assigned(q) - {index}
    requires run.candidateId == Assigned(q)[index].candidate.id
    ensures IdsOk(q', next, history + [run])
  {
    hide Assigned;
  }

  lemma CompleteKeepsInv(c: Settings, s: Schedule, index: int, o: Outcome)
    requires Inv(c, s) && index in s.q.inFlight
    ensures s.q.inFlight[index].index >= 0 && (s.n.nextSeedAt > 0 ==> c.seedInterval > 0)
    ensures Inv(c, Complete(c, s, index, o))
    ensures Complete(c, s, index, o).n.completed == s.n.completed + 1
  {
    SomethingLeft(c, s, index);
    var t := Complete(c, s, index, o);
    CompleteKeepsTasks(c, s.q, s.n, s.agg.completed, index, t.q, t.n);
    assert Assigned(s.q)[index] == s.q.inFlight[index];
    FinalRecordFacts(c, s, index, o);
    CompleteConservesSeeds(c, s, index, o);
    CompleteKeepsSeeds(c, s.n, LaunchedSeeds(s));
    CompleteKeepsMutations(c, s, index, o);
    CompleteKeepsCorpus(c, s, index, o);
    var run := FinalRecord(c, s, s.q.inFlight[index], o);
    AbsorbKeepsConsistent(s.agg, run, |t.corpus.entries|, c);
    HistoryAppend(s.history, s.agg.completed, run);
    IdsComplete(s.q, s.n.nextCandidateId, s.history, t.q, index, run);
  }

  // ---------------------------------------------------------------- steps: a finished mutation

  lemma QueueTallyChange(a: Aggregate, queue: QueueTally, c: Settings)
    requires Consistent(a, c) && GoodQueue(queue, a.report.runs.mutations, c.maxReady)
    ensures Consistent(WithQueue(a, queue), c)
  {
  }

  lemma AdmitKeepsQueue(c: Settings, s: Schedule, entry: Entry, plan: Plan)
    requires Core(c, s) && s.n.nextRunIndex + |s.q.ready| < c.runs
    ensures var t := Admit(c, s, entry, plan);
            && QueueOk(c, t.q.ready, t.agg.report.queue)
            && GoodQueue(t.agg.report.queue, s.agg.report.runs.mutations, c.maxReady)
            && |t.q.ready| <= c.maxReady
  {
    hide TaskMap, UniqueTasks, MapOk, Consistent, HistoryOk, IdsOk, CorpusOk, OfKind;
    QueueWasGood(s.agg, c);
  }

  lemma AdmitKeepsBooks(c: Settings, s: Schedule, entry: Entry, plan: Plan)
    requires Core(c, s) && s.n.nextRunIndex + |s.q.ready| < c.runs
    ensures var t := Admit(c, s, entry, plan);
            BooksOk(t.q, t.n, t.agg.report.runs.mutations, t.agg.report.queue, t.losses)
  {
    hide TaskMap, UniqueTasks, MapOk, Consistent, HistoryOk, IdsOk, CorpusOk, OfKind;
    var kept := if |s.q.ready| == c.maxReady then s.q.ready[1..] else s.q.ready;
    QueuedAppend(kept, Descendant(s.n.nextCandidateId, entry, plan), Mutation);
  }

  lemma DiscardKeepsCore(c: Settings, s: Schedule, entry: Entry, plan: Plan)
    requires Core(c, s) && s.n.nextRunIndex + |s.q.ready| >= c.runs
    ensures Core(c, Admit(c, s, entry, plan))
  {
    hide TasksOk, SeedsOk, CorpusOk, HistoryOk, IdsOk, Consistent, Assigned, LaunchedSeeds, Outstanding, Queued;
    var t := Admit(c, s, entry, plan);
    QueueStepKeeps(c, s, t);
    SameIds(s.q, s.n.nextCandidateId, s.history, t.q);
    QueueWasGood(s.agg, c);
    QueueTallyChange(s.agg, t.agg.report.queue, c);
  }

  lemma EnqueueKeepsIds(c: Settings, s: Schedule, entry: Entry, plan: Plan)
    requires Core(c, s) && s.n.nextRunIndex + |s.q.ready| < c.runs
    ensures var t := Admit(c, s, entry, plan);
            IdsOk(t.q, t.n.nextCandidateId, t.history) && QueueStep(s, t) && t.n.nextCandidateId > 0
  {
    hide TasksOk, SeedsOk, CorpusOk, HistoryOk, IdsOk, Consistent, TaskMap, BooksOk;
    var kept := if |s.q.ready| == c.maxReady then s.q.ready[1..] else s.q.ready;
    IdsAppend(s.q, s.n.nextCandidateId, s.history, kept, Admit(c, s, entry, plan).q,
              Descendant(s.n.nextCandidateId, entry, plan));
  }

  lemma EnqueueKeepsCore(c: Settings, s: Schedule, entry: Entry, plan: Plan)
    requires Core(c, s) && s.n.nextRunIndex + |s.q.ready| < c.runs
    ensures Core(c, Admit(c, s, entry, plan))
  {
    hide TasksOk, SeedsOk, BooksOk, QueueOk, CorpusOk, HistoryOk, IdsOk, Consistent, Assigned, LaunchedSeeds, Admit;
    EnqueueKeepsIds(c, s, entry, plan);
    AdmitKeepsQueue(c, s, entry, plan);
    AdmitKeepsBooks(c, s, entry, plan);
    var t := Admit(c, s, entry, plan);
    QueueStepKeeps(c, s, t);
    QueueTallyChange(s.agg, t.agg.report.queue, c);
  }

  lemma AdmitKeepsCore(c: Settings, s: Schedule, entry: Entry, plan: Plan)
    requires Core(c, s)
    ensures Core(c, Admit(c, s, entry, plan))
    ensures Admit(c, s, entry, plan).q.pending == s.q.pending
  {
    if s.n.nextRunIndex + |s.q.ready| < c.runs {
      EnqueueKeepsCore(c, s, entry, plan);
    } else {
      DiscardKeepsCore(c, s, entry, plan);
    }
    hide Core;
  }

  lemma {:induction false} AdmitAllKeepsCore(c: Settings, s: Schedule, entry: Entry, plans: seq<Plan>)
    requires Core(c, s)
    ensures Core(c, AdmitAll(c, s, entry, plans))
    ensures AdmitAll(c, s, entry, plans).q.pending == s.q.pending
  {
    if plans != [] {
      AdmitAllKeepsCore(c, s, entry, plans[..|plans| - 1]);
      AdmitKeepsCore(c, AdmitAll(c, s, entry, plans[..|plans| - 1]), entry, plans[|plans| - 1]);
    }
  }

  /** Every plan of a result is either admitted or found no run index. */
  lemma {:induction false} AdmitAllSettles(c: Settings, s: Schedule, entry: Entry, plans: seq<Plan>)
    requires c.maxReady > 0 && s.n.nextCandidateId >= 0
    ensures var t := AdmitAll(c, s, entry, plans);
            && t.agg.report.queue.generated == s.agg.report.queue.generated
            && t.agg.report.queue.admitted + t.losses.overBudget
               == s.agg.report.queue.admitted + s.losses.overBudget + |plans|
  {
    if plans != [] {
      AdmitAllSettles(c, s, entry, plans[..|plans| - 1]);
    }
  }

  lemma QueueWasGood(a: Aggregate, c: Settings)
    requires Consistent(a, c)
    ensures GoodQueue(a.report.queue, a.report.runs.mutations, c.maxReady)
  {
  }

  /** The candidates made of the first plans, in order and with consecutive IDs. */
  function Descendants(first: nat, entry: Entry, plans: seq<Plan>): seq<Candidate> {
    seq(|plans|, i requires 0 <= i < |plans| => Descendant(first + i, entry, plans[i]))
  }

  function Newest(all: seq<Candidate>, bound: nat): seq<Candidate> {
    if |all| > bound then all[|all| - bound..] else all
  }

  /** The ones a line of candidates loses to the bound. */
  function Oldest(all: seq<Candidate>, bound: nat): seq<Candidate> {
    if |all| > bound then all[..|all| - bound] else []
  }

  lemma AdmitQueue(c: Settings, s: Schedule, entry: Entry, plan: Plan)
    requires c.maxReady > 0 && s.n.nextCandidateId >= 0
    ensures var t := Admit(c, s, entry, plan);
            if s.n.nextRunIndex + |s.q.ready| >= c.runs then
              t.q == s.q && t.n == s.n && t.losses == s.losses.(overBudget := s.losses.overBudget + 1)
            else
              && t.q.ready == (if |s.q.ready| == c.maxReady then s.q.ready[1..] else s.q.ready)
                              + [Descendant(s.n.nextCandidateId, entry, plan)]
              && t.n == s.n.(nextCandidateId := s.n.nextCandidateId + 1)
              && t.losses == if |s.q.ready| < c.maxReady then s.losses
                             else if |s.q.ready| == c.maxReady
                             then s.losses.(evicted := OneMore(s.losses.evicted, s.q.ready[0].kind)) else t.losses
  {
  }

  /** The queue is first in, first out: of the n plans the run budget has room for,
      every one joins at the tail in order, and only the oldest candidates beyond
      the bound are gone: exactly those are tallied as evicted. The plans after the
      n are discarded and tallied as over budget. */
  lemma {:induction false} AdmitAllIsFifo(c: Settings, s: Schedule, entry: Entry, plans: seq<Plan>) returns (n: nat)
    requires c.maxReady > 0 && s.n.nextCandidateId >= 0 && |s.q.ready| <= c.maxReady
    ensures n <= |plans|
    ensures var t := AdmitAll(c, s, entry, plans);
            var line := s.q.ready + Descendants(s.n.nextCandidateId, entry, plans[..n]);
            && t.q.ready == Newest(line, c.maxReady)
            && t.n == s.n.(nextCandidateId := s.n.nextCandidateId + n)
            && (n < |plans| ==> s.n.nextRunIndex + |t.q.ready| >= c.runs)
            && t.losses == Losses(LosingAll(s.losses.evicted, Oldest(line, c.maxReady)), s.losses.abandoned,
                                  s.losses.overBudget + |plans| - n)
  {
    hide Admit, Descendants, Newest, Oldest, Descendant, LosingAll;
    if plans == [] {
      n := 0;
      NobodyInLine(c, s.q.ready, s.n.nextCandidateId, entry, plans, s.losses.evicted);
    } else {
      var init, last := plans[..|plans| - 1], plans[|plans| - 1];
      n := AdmitAllIsFifo(c, s, entry, init);
      assert init[..n] == plans[..n];
      var t := AdmitAll(c, s, entry, init);
      AdmitQueue(c, t, entry, last);
      NewestFits(s.q.ready + Descendants(s.n.nextCandidateId, entry, init[..n]), c.maxReady);
      if s.n.nextRunIndex + |t.q.ready| < c.runs {
        OneMoreInLine(c, s.q.ready, s.n.nextCandidateId, entry, init, last);
        OneMoreGone(c, s.q.ready, s.n.nextCandidateId, entry, init, last, s.losses.evicted);
        n := n + 1;
        assert plans[..n] == plans == init + [last] && init[..|init|] == init;
      }
    }
  }

  lemma NewestFits(all: seq<Candidate>, bound: nat)
    ensures |Newest(all, bound)| <= bound
  {
  }

  lemma NobodyInLine(c: Settings, ready: seq<Candidate>, first: nat, entry: Entry, plans: seq<Plan>, lost: Lost)
    requires |ready| <= c.maxReady
    ensures var line := ready + Descendants(first, entry, plans[..0]);
            Newest(line, c.maxReady) == ready && LosingAll(lost, Oldest(line, c.maxReady)) == lost
  {
    assert ready + Descendants(first, entry, plans[..0]) == ready;
  }

  lemma OneMoreInLine(c: Settings, ready: seq<Candidate>, first: nat, entry: Entry, init: seq<Plan>, last: Plan)
    requires c.maxReady > 0
    ensures var kept := Newest(ready + Descendants(first, entry, init), c.maxReady);
            (if |kept| == c.maxReady then kept[1..] else kept) + [Descendant(first + |init|, entry, last)]
            == Newest(ready + Descendants(first, entry, init + [last]), c.maxReady)
  {
    var all := ready + Descendants(first, entry, init);
    assert ready + Descendants(first, entry, init + [last]) == all + [Descendant(first + |init|, entry, last)];
  }

  /** A full line loses its head to the next in line, a shorter one loses nobody. */
  lemma OneMoreGone(c: Settings, ready: seq<Candidate>, first: nat, entry: Entry, init: seq<Plan>, last: Plan, lost: Lost)
    requires c.maxReady > 0
    ensures var all := ready + Descendants(first, entry, init);
            var kept := Newest(all, c.maxReady);
            LosingAll(lost, Oldest(ready + Descendants(first, entry, init + [last]), c.maxReady))
            == if |kept| == c.maxReady then OneMore(LosingAll(lost, Oldest(all, c.maxReady)), kept[0].kind)
               else LosingAll(lost, Oldest(all, c.maxReady))
  {
    var all := ready + Descendants(first, entry, init);
    var longer := all + [Descendant(first + |init|, entry, last)];
    assert ready + Descendants(first, entry, init + [last]) == longer;
    if |all| >= c.maxReady {
      assert Oldest(longer, c.maxReady) == Oldest(all, c.maxReady) + [all[|all| - c.maxReady]];
    }
  }

  /** Nothing is lost unnoticed: run indices, periodic seeds, every candidate ever
      made, every admitted mutation, every generated plan and every discarded one. */
  ghost predicate Balanced(c: Settings, s: Schedule) {
    && s.n.completed + |s.q.rerun| + |s.q.inFlight| == s.n.nextRunIndex <= c.runs
    && c.seedInterval >= 0 && s.n.completed >= 0 && s.n.nextSeedAt == NextSeedAt(c, s.n.completed)
    && (s.n.completed < c.runs ==> s.n.seedsDue + LaunchedSeeds(s) == SeedQuota(c, s.n.completed))
    && s.n.nextCandidateId == s.n.completed + |s.q.rerun| + |s.q.inFlight| + |s.q.ready|
                              + Size(s.losses.evicted) + Size(s.losses.abandoned)
    && s.agg.report.queue.admitted == s.agg.report.runs.mutations + Outstanding(s.q, Mutation) + Queued(s.q.ready, Mutation)
                                      + s.losses.evicted.mutations + s.losses.abandoned.mutations
    && s.agg.report.queue.generated == s.agg.report.queue.admitted + s.losses.overBudget
    && s.agg.report.queue.discarded == s.losses.overBudget + Size(s.losses.evicted)
    && |s.q.ready| <= c.maxReady
  }

  /** The books balance in every reachable state. */
  lemma BooksBalance(c: Settings, s: Schedule)
    requires Inv(c, s)
    ensures Balanced(c, s)
  {
    hide CorpusOk, HistoryOk, IdsOk, Consistent, TaskMap, MapOk, OfKind, Queued;
    TasksAddUp(c, s.q, s.n, s.agg.completed);
  }

  lemma ClearKeepsCore(c: Settings, s: Schedule, id: int, queue: QueueTally)
    requires Core(c, s) && id in s.q.pending
    requires queue.admitted == s.agg.report.queue.admitted && queue.peak == s.agg.report.queue.peak
    requires queue.generated >= s.agg.report.queue.generated && queue.discarded == s.agg.report.queue.discarded
    ensures Core(c, Cleared(s, id, queue))
  {
    hide TasksOk, SeedsOk, CorpusOk, HistoryOk, IdsOk, Consistent, Assigned, LaunchedSeeds, Outstanding, Queued;
    var t := Cleared(s, id, queue);
    QueueStepKeeps(c, s, t);
    SameIds(s.q, s.n.nextCandidateId, s.history, t.q);
    QueueWasGood(s.agg, c);
    QueueTallyChange(s.agg, queue, c);
  }

  lemma MutationDoneUnfolds(c: Settings, s: Schedule, id: int, plans: seq<Plan>)
    requires id in s.q.pending && c.maxReady > 0 && s.n.nextCandidateId >= 0
    ensures MutationDone(c, s, id, Mutated(plans))
         == AdmitAll(c, Cleared(s, id, s.agg.report.queue.(generated := s.agg.report.queue.generated + |plans|)),
                     s.q.pending[id].entry, plans)
  {
    hide AdmitAll;
  }

  lemma MutationDoneKeepsInv(c: Settings, s: Schedule, id: int, result: MutationResult)
    requires Inv(c, s) && id in s.q.pending
    ensures Inv(c, MutationDone(c, s, id, result))
    ensures MutationDone(c, s, id, result).q.pending == s.q.pending - {id}
  {
    hide Inv, MutationDone, AdmitAll, Cleared;
    match result
    case MutationFailed => FailedKeepsInv(c, s, id);
    case Mutated(plans) => MutatedKeepsInv(c, s, id, plans);
  }

  lemma FailedKeepsInv(c: Settings, s: Schedule, id: int)
    requires Inv(c, s) && id in s.q.pending
    ensures Inv(c, MutationDone(c, s, id, MutationFailed))
    ensures MutationDone(c, s, id, MutationFailed).q.pending == s.q.pending - {id}
  {
    hide Core, AdmitAll;
    ClearKeepsCore(c, s, id, s.agg.report.queue.(errors := s.agg.report.queue.errors + 1));
  }

  lemma MutatedKeepsInv(c: Settings, s: Schedule, id: int, plans: seq<Plan>)
    requires Inv(c, s) && id in s.q.pending
    ensures Inv(c, MutationDone(c, s, id, Mutated(plans)))
    ensures MutationDone(c, s, id, Mutated(plans)).q.pending == s.q.pending - {id}
  {
    var counted := s.agg.report.queue.(generated := s.agg.report.queue.generated + |plans|);
    var cleared, entry := Cleared(s, id, counted), s.q.pending[id].entry;
    ClearKeepsCore(c, s, id, counted);
    AdmitAllKeepsCore(c, cleared, entry, plans);
    AdmitAllSettles(c, cleared, entry, plans);
    MutationDoneUnfolds(c, s, id, plans);
  }

  // ---------------------------------------------------------------- first and last states

  lemma NoAdmissions(t: CorpusTally)
    requires t.counts == map[] && t.entries == t.rejectedRaw == t.rejectedNoNovelty == t.byState == t.byTransition == 0
    ensures GoodAdmissions(t, 0)
  {
  }

  lemma EmptyReportIsGood(r: Report, c: Settings)
    requires r.settings == c && r.runs == RunTally(0, 0, 0, 0, 0, 0) && GoodQueue(r.queue, 0, c.maxReady)
    requires GoodAdmissions(r.corpus, 0) && r.unique.semanticStates == r.unique.semanticTransitions == 0
    ensures GoodReport(r, c, 0)
  {
  }

  lemma EmptyAggregateIsConsistent(c: Settings, agg: Aggregate)
    requires GoodReport(agg.report, c, 0) && agg.report.unique == UniqueTally(0, 0, 0, 0, 0, 0)
    requires agg.completed == {} && agg.states == {} && agg.seen == Digests({}, {}, {}) && agg.durations == []
    ensures Consistent(agg, c)
  {
  }

  lemma SeedsStartOk(c: Settings, n: Counters)
    requires WellConfigured(c) && n.completed == 0 && n.nextSeedAt == c.seedInterval && n.seedsDue == 0
    ensures SeedsOk(c, n, 0)
  {
    if c.seedInterval > 0 {
      QuotientIs(0, c.seedInterval, 0, 0);
    }
  }

  lemma StartInv(c: Settings, plans: seq<Option<Plan>>)
    requires WellConfigured(c) && |plans| > 0
    ensures Inv(c, Start(c, plans))
  {
    hide Consistent, CorpusOk, IdsOk, SeedsOk, TasksOk;
    var s := Start(c, plans);
    StartReady(c, plans);
    EmptyAggregateOk(s.agg, c);
    SeedsStartOk(c, s.n);
    EmptyCorpusOk(s.agg);
    StartQueuesOk(c, s.q, s.n);
    StartIdsOk(s.q, |plans|);
    NoneQueued(s.q.ready);
  }

  lemma StartReady(c: Settings, plans: seq<Option<Plan>>)
    requires WellConfigured(c) && |plans| > 0
    ensures var ready := Start(c, plans).q.ready;
            && 1 <= |ready| <= c.maxReady
            && (forall i :: 0 <= i < |ready| ==> ready[i].kind == Initial && ready[i].id < |plans|)
            && (forall i, j :: 0 <= i < j < |ready| ==> ready[i].id != ready[j].id)
  {
  }

  lemma EmptyAggregateOk(agg: Aggregate, c: Settings)
    requires agg.report.settings == c && agg.report.runs == RunTally(0, 0, 0, 0, 0, 0)
    requires agg.report.unique == UniqueTally(0, 0, 0, 0, 0, 0) && agg.report.corpus == CorpusTally(0, map[], 0, 0, 0, 0)
    requires GoodQueue(agg.report.queue, 0, c.maxReady)
    requires agg.completed == {} && agg.states == {} && agg.seen == Digests({}, {}, {}) && agg.durations == []
    ensures Consistent(agg, c)
  {
    NoAdmissions(agg.report.corpus);
    EmptyReportIsGood(agg.report, c);
    EmptyAggregateIsConsistent(c, agg);
  }

  lemma StartIdsOk(q: Queues, next: int)
    requires Assigned(q) == map[] && next >= 0
    requires forall i :: 0 <= i < |q.ready| ==> q.ready[i].id < next
    requires forall i, j :: 0 <= i < j < |q.ready| ==> q.ready[i].id != q.ready[j].id
    ensures IdsOk(q, next, [])
  {
  }

  lemma StartQueuesOk(c: Settings, q: Queues, n: Counters)
    requires WellConfigured(c)
    requires q.rerun == [] && q.inFlight == map[] && n.nextRunIndex == n.completed == 0
    ensures Assigned(q) == map[]
    ensures Outstanding(q, PeriodicRandom) == Outstanding(q, Mutation) == 0
    ensures TasksOk(c, q, n, {})
  {
    assert OfKind(Assigned(q), PeriodicRandom) == {} && OfKind(Assigned(q), Mutation) == {};
  }

  lemma EmptyCorpusOk(agg: Aggregate)
    requires agg.report.corpus.entries == agg.report.unique.semanticStates == agg.report.unique.semanticTransitions == 0
    ensures CorpusOk(Empty, agg, map[])
  {
  }

  lemma {:induction false} NoneQueued(ready: seq<Candidate>)
    requires forall i :: 0 <= i < |ready| ==> ready[i].kind == Initial
    ensures Queued(ready, Mutation) == 0
  {
    if ready != [] {
      NoneQueued(ready[1..]);
    }
  }

  lemma {:induction false} LosingAllCounts(lost: Lost, gone: seq<Candidate>)
    ensures var all := LosingAll(lost, gone);
            all.mutations == lost.mutations + Queued(gone, Mutation) && Size(all) == Size(lost) + |gone|
  {
    if gone != [] {
      var init, last := gone[..|gone| - 1], gone[|gone| - 1];
      assert gone == init + [last];
      QueuedAppend(init, last, Mutation);
      LosingAllCounts(lost, init);
    }
  }

  lemma NobodyQueued(q: Queues, next: int, history: seq<RunRecord>, q': Queues)
    requires IdsOk(q, next, history) && q'.ready == [] && Assigned(q') == Assigned(q)
    ensures IdsOk(q', next, history)
  {
    hide Assigned;
  }

  lemma FinishKeepsInv(c: Settings, s: Schedule)
    requires Inv(c, s) && s.n.completed == c.runs
    ensures Inv(c, Finish(s))
    ensures Assigned(s.q) == map[]
  {
    hide CorpusOk, HistoryOk, IdsOk, Consistent, OfKind, LosingAll, SeedQuota, NextSeedAt;
    LosingAllCounts(s.losses.abandoned, s.q.ready);
    TasksAddUp(c, s.q, s.n, s.agg.completed);
    assert |Assigned(s.q)| == 0;
    SameLaunches(s, Finish(s));
    SameTasks(c, s.q, s.n, s.agg.completed, Finish(s).q, Finish(s).n);
    SameCorpus(s.corpus, s.agg, s.q.pending, s.agg.report.queue, map[]);
    NobodyQueued(s.q, s.n.nextCandidateId, s.history, Finish(s).q);
  }
}
