/** Who is launched when: the ready queue is first in, first out at both ends. */
module LaunchOrder {
  import opened Keys
  import opened Corpora
  import opened Aggregation
  import opened Lifecycle
  import opened SchedulerSpec
  import opened SchedulerInvariant
  import opened SchedulerRecovery

  // ---------------------------------------------------------------- one filling of the slots

  /** From `s` to `t` the new run indices went, in order, to `seeds` due periodic seeds
      and then to the first `taken` candidates of the queue; the rest of the queue and
      everything in flight is untouched. */
  ghost predicate Filled(c: Settings, s: Schedule, t: Schedule, seeds: nat, taken: nat)
    requires s.n.nextCandidateId >= 0
  {
    var first := s.n.nextRunIndex;
    && seeds <= s.n.seedsDue && taken <= |s.q.ready| && (taken > 0 ==> seeds == s.n.seedsDue)
    && t.q.ready == s.q.ready[taken..]
    && t.n == s.n.(nextRunIndex := first + seeds + taken, nextCandidateId := s.n.nextCandidateId + seeds,
                   seedsDue := s.n.seedsDue - seeds)
    && (forall i | i in t.q.inFlight :: i in s.q.inFlight || first <= i < first + seeds + taken)
    && (forall i | i in s.q.inFlight :: i in t.q.inFlight && t.q.inFlight[i] == s.q.inFlight[i])
    && (forall i :: first <= i < first + seeds ==> i in t.q.inFlight && t.q.inFlight[i] == SeedTask(c, s, i))
    && (forall i :: first + seeds <= i < first + seeds + taken ==>
          i in t.q.inFlight && t.q.inFlight[i] == Scheduled(i, c.baseSeed + i, s.q.ready[i - first - seeds]))
  }

  /** The periodic seed that run index i gets: online, without parent, under the next free ID. */
  ghost function SeedTask(c: Settings, s: Schedule, i: int): Scheduled
    requires s.n.nextCandidateId >= 0 && i >= s.n.nextRunIndex
  {
    Scheduled(i, c.baseSeed + i,
              Candidate(s.n.nextCandidateId + (i - s.n.nextRunIndex), None, PeriodicRandom, "periodic_random", 0, None))
  }

  lemma {:induction false} FillReadyIsFifo(c: Settings, s: Schedule) returns (seeds: nat, taken: nat)
    requires s.n.nextCandidateId >= 0 && s.n.seedsDue >= 0
    requires forall i | i in s.q.inFlight :: i < s.n.nextRunIndex
    ensures Filled(c, s, FillReady(c, s), seeds, taken)
    decreases c.runs - s.n.nextRunIndex
  {
    hide LaunchNext, Filled;
    if CanLaunch(c, s) {
      var u := LaunchNext(c, s);
      OneLaunch(c, s);
      var laterSeeds, laterTaken := FillReadyIsFifo(c, u);
      if s.n.seedsDue > 0 {
        seeds, taken := laterSeeds + 1, laterTaken;
        SeedFirst(c, s, u, FillReady(c, u), laterSeeds, laterTaken);
      } else {
        seeds, taken := 0, laterTaken + 1;
        HeadFirst(c, s, u, FillReady(c, u), laterSeeds, laterTaken);
      }
    } else {
      seeds, taken := 0, 0;
      NoLaunch(c, s);
    }
  }

  lemma NoLaunch(c: Settings, s: Schedule)
    requires s.n.nextCandidateId >= 0 && s.n.seedsDue >= 0
    requires forall i | i in s.q.inFlight :: i < s.n.nextRunIndex
    ensures Filled(c, s, s, 0, 0)
  {
  }

  lemma OneLaunch(c: Settings, s: Schedule)
    requires CanLaunch(c, s) && s.n.nextCandidateId >= 0 && s.n.seedsDue >= 0
    requires forall i | i in s.q.inFlight :: i < s.n.nextRunIndex
    ensures if s.n.seedsDue > 0 then Filled(c, s, LaunchNext(c, s), 1, 0) else Filled(c, s, LaunchNext(c, s), 0, 1)
    ensures var n := LaunchNext(c, s).n; n.nextRunIndex == s.n.nextRunIndex + 1 && n.nextCandidateId >= 0 && n.seedsDue >= 0
    ensures forall i | i in LaunchNext(c, s).q.inFlight :: i < s.n.nextRunIndex + 1
  {
  }

  lemma SeedFirst(c: Settings, s: Schedule, u: Schedule, t: Schedule, seeds: nat, taken: nat)
    requires s.n.nextCandidateId >= 0 && u.n.nextCandidateId >= 0
    requires Filled(c, s, u, 1, 0) && Filled(c, u, t, seeds, taken)
    ensures Filled(c, s, t, seeds + 1, taken)
  {
    assert s.q.ready[0..] == s.q.ready;
  }

  lemma HeadFirst(c: Settings, s: Schedule, u: Schedule, t: Schedule, seeds: nat, taken: nat)
    requires s.n.nextCandidateId >= 0 && u.n.nextCandidateId >= 0
    requires Filled(c, s, u, 0, 1) && Filled(c, u, t, seeds, taken)
    ensures seeds == 0 && Filled(c, s, t, 0, taken + 1)
  {
    assert s.q.ready[1..][taken..] == s.q.ready[taken + 1..];
  }

  /** Saved tasks are launched in the order of the saved list. */
  lemma {:induction false} FillRerunIsFifo(c: Settings, q: Queues) returns (taken: nat)
    ensures taken <= |q.rerun| && FillRerun(c, q).rerun == q.rerun[taken..]
    ensures FillRerun(c, q).ready == q.ready
    ensures forall i | i in FillRerun(c, q).inFlight ::
              i in q.inFlight || exists k :: 0 <= k < taken && q.rerun[k].index == i
    ensures forall k :: 0 <= k < taken ==> q.rerun[k].index in FillRerun(c, q).inFlight
    decreases |q.rerun|
  {
    if CanRerun(c, q) {
      var next := RerunFirst(q);
      var later := FillRerunIsFifo(c, next);
      taken := later + 1;
      assert q.rerun[1..][later..] == q.rerun[taken..];
      forall i | i in FillRerun(c, q).inFlight
        ensures i in q.inFlight || exists k :: 0 <= k < taken && q.rerun[k].index == i
      {
        if i !in next.inFlight {
          var k :| 0 <= k < later && next.rerun[k].index == i;
          assert q.rerun[k + 1].index == i;
        } else if i !in q.inFlight {
          assert q.rerun[0].index == i;
        }
      }
      RerunsStay(c, next, q.rerun[0].index);
      forall k | 0 <= k < taken
        ensures q.rerun[k].index in FillRerun(c, q).inFlight
      {
        if k > 0 {
          assert next.rerun[k - 1].index == q.rerun[k].index;
        }
      }
    } else {
      taken := 0;
    }
  }

  lemma {:induction false} RerunsStay(c: Settings, q: Queues, index: int)
    requires index in q.inFlight
    ensures index in FillRerun(c, q).inFlight
    decreases |q.rerun|
  {
    if CanRerun(c, q) {
      RerunsStay(c, RerunFirst(q), index);
    }
  }

  lemma InFlightIsEarlier(c: Settings, s: Schedule)
    requires Inv(c, s)
    ensures s.n.nextCandidateId >= 0 && s.n.seedsDue >= 0
    ensures forall i | i in s.q.inFlight :: i < s.n.nextRunIndex
  {
    hide TaskMap, UniqueTasks, CorpusOk, Consistent, HistoryOk, IdsOk, BooksOk;
    assert forall i | i in s.q.inFlight :: i in Assigned(s.q);
  }

  /** One filling, from any reachable state: saved tasks first, then due seeds, then a
      prefix of the queue; it stops only with no run left, no slot free or nobody waiting. */
  lemma FillIsFifo(c: Settings, s: Schedule) returns (seeds: nat, taken: nat)
    requires Inv(c, s)
    ensures s.n.nextCandidateId >= 0
    ensures Filled(c, s.(q := FillRerun(c, s.q)), Fill(c, s), seeds, taken)
    ensures FillRerun(c, s.q).ready == s.q.ready
    ensures var t := Fill(c, s);
            t.n.nextRunIndex == c.runs || |t.q.inFlight| == c.parallelism || (t.n.seedsDue == 0 && t.q.ready == [])
  {
    hide Inv, Filled, FillReady, FillRerun;
    FillRerunKeepsInv(c, s);
    var u := s.(q := FillRerun(c, s.q));
    InFlightIsEarlier(c, u);
    seeds, taken := FillReadyIsFifo(c, u);
    FillReadyKeepsInv(c, u);
    WhyItStops(c, FillReady(c, u));
  }

  lemma WhyItStops(c: Settings, t: Schedule)
    requires Inv(c, t) && !CanLaunch(c, t)
    ensures t.n.nextRunIndex == c.runs || |t.q.inFlight| == c.parallelism || (t.n.seedsDue == 0 && t.q.ready == [])
  {
    hide MapOk, CorpusOk, Consistent, HistoryOk, IdsOk, BooksOk;
  }

  // ---------------------------------------------------------------- over whole histories

  /** A candidate that came through the queue, and the run index it got. */
  datatype Service = Service(index: int, id: int)

  ghost function ServedTasks(m: map<int, Scheduled>): set<Service> {
    set k | k in m && !m[k].candidate.kind.PeriodicRandom? :: Service(k, m[k].candidate.id)
  }

  ghost function ServedRuns(history: seq<RunRecord>): set<Service> {
    set r | r in history && !r.kind.PeriodicRandom? :: Service(r.index, r.candidateId)
  }

  /** Served so far: still assigned, or completed. */
  ghost function Served(m: map<int, Scheduled>, history: seq<RunRecord>): set<Service> {
    ServedTasks(m) + ServedRuns(history)
  }

  lemma InServedTasks(m: map<int, Scheduled>, a: Service)
    ensures a in ServedTasks(m) <==>
              a.index in m && !m[a.index].candidate.kind.PeriodicRandom? && m[a.index].candidate.id == a.id
  {
  }

  /** Smaller IDs get smaller run indices, and whoever still waits came later. */
  ghost predicate InTurn(served: set<Service>, ready: seq<Candidate>) {
    && (forall a, b | a in served && b in served && a.index < b.index :: a.id < b.id)
    && (forall a, i | a in served && 0 <= i < |ready| :: a.id < ready[i].id)
    && (forall i, j :: 0 <= i < j < |ready| ==> ready[i].id < ready[j].id)
  }

  ghost predicate OrderOk(s: Schedule) {
    InTurn(Served(Assigned(s.q), s.history), s.q.ready)
  }

  lemma ServedBounds(c: Settings, s: Schedule)
    requires Core(c, s)
    ensures forall a | a in Served(Assigned(s.q), s.history) :: a.index < s.n.nextRunIndex && a.id < s.n.nextCandidateId
    ensures forall i :: 0 <= i < |s.q.ready| ==> s.q.ready[i].id < s.n.nextCandidateId
  {
    hide TaskMap, UniqueTasks, CorpusOk, Consistent, BooksOk, SeedsOk, Assigned;
    var done := s.agg.completed;
    assert MapOk(c, Assigned(s.q), done, s.n.nextRunIndex);
    forall r | r in s.history
      ensures r.index in done && r.candidateId < s.n.nextCandidateId
    {
      var i :| 0 <= i < |s.history| && s.history[i] == r;
    }
  }

  /** Serving the head of the queue next keeps the order. */
  lemma HeadIsServed(served: set<Service>, ready: seq<Candidate>, next: int)
    requires InTurn(served, ready) && ready != [] && forall a | a in served :: a.index < next
    ensures InTurn(served + {Service(next, ready[0].id)}, ready[1..])
  {
  }

  /** A newcomer joins at the tail, whether or not the head was evicted. */
  lemma NewcomerIsLast(served: set<Service>, ready: seq<Candidate>, kept: seq<Candidate>, newcomer: Candidate)
    requires InTurn(served, ready) && (kept == ready || (ready != [] && kept == ready[1..]))
    requires (forall a | a in served :: a.id < newcomer.id) && forall i :: 0 <= i < |ready| ==> ready[i].id < newcomer.id
    ensures InTurn(served, kept + [newcomer])
  {
  }

  lemma ServedInsert(m: map<int, Scheduled>, history: seq<RunRecord>, k: int, t: Scheduled)
    requires k !in m
    ensures Served(m[k := t], history)
         == Served(m, history) + if t.candidate.kind.PeriodicRandom? then {} else {Service(k, t.candidate.id)}
  {
    forall a
      ensures a in ServedTasks(m[k := t]) <==>
                a in ServedTasks(m) || (!t.candidate.kind.PeriodicRandom? && a == Service(k, t.candidate.id))
    {
      InServedTasks(m[k := t], a);
      InServedTasks(m, a);
    }
  }

  /** A completed run is recorded with the index and the candidate it had. */
  lemma ServedComplete(m: map<int, Scheduled>, history: seq<RunRecord>, k: int, run: RunRecord)
    requires k in m && run.index == k && run.candidateId == m[k].candidate.id && run.kind == m[k].candidate.kind
    ensures Served(m - {k}, history + [run]) == Served(m, history)
  {
    var mine := Service(k, run.candidateId);
    forall a
      ensures a in ServedTasks(m) <==> a in ServedTasks(m - {k}) || (!run.kind.PeriodicRandom? && a == mine)
    {
      InServedTasks(m - {k}, a);
      InServedTasks(m, a);
    }
    OneMoreRun(history, run);
  }

  lemma OneMoreRun(history: seq<RunRecord>, run: RunRecord)
    ensures ServedRuns(history + [run])
         == ServedRuns(history) + if run.kind.PeriodicRandom? then {} else {Service(run.index, run.candidateId)}
  {
    assert forall r :: r in history + [run] <==> r in history || r == run;
  }

  lemma StartOrder(c: Settings, plans: seq<Option<Plan>>)
    requires WellConfigured(c)
    ensures OrderOk(Start(c, plans))
  {
    var s := Start(c, plans);
    assert Assigned(s.q) == map[];
    assert Served(map[], []) == {};
  }

  lemma SameOrder(s: Schedule, t: Schedule)
    requires OrderOk(s) && Assigned(t.q) == Assigned(s.q) && t.history == s.history && t.q.ready == s.q.ready
    ensures OrderOk(t)
  {
  }

  lemma LaunchOrder(c: Settings, s: Schedule)
    requires Inv(c, s) && OrderOk(s) && CanLaunch(c, s)
    ensures OrderOk(LaunchNext(c, s))
  {
    hide TasksOk, SeedsOk, BooksOk, CorpusOk, Consistent, HistoryOk, IdsOk, QueueOk, Assigned, Served, InTurn;
    ServedBounds(c, s);
    LaunchAssigns(c, s);
    QueueIsNotPeriodic(c, s);
    ServedInsert(Assigned(s.q), s.history, s.n.nextRunIndex, NextTask(c, s));
    if s.n.seedsDue <= 0 {
      HeadIsServed(Served(Assigned(s.q), s.history), s.q.ready, s.n.nextRunIndex);
    } else {
      NothingMore(Served(Assigned(s.q), s.history));
    }
  }

  lemma NothingMore(served: set<Service>)
    ensures served + {} == served
  {
  }

  lemma QueueIsNotPeriodic(c: Settings, s: Schedule)
    requires Inv(c, s)
    ensures forall i :: 0 <= i < |s.q.ready| ==> !s.q.ready[i].kind.PeriodicRandom?
  {
  }

  lemma {:induction false} FillReadyOrder(c: Settings, s: Schedule)
    requires Inv(c, s) && OrderOk(s)
    ensures s.n.nextCandidateId >= 0 && OrderOk(FillReady(c, s))
    decreases c.runs - s.n.nextRunIndex
  {
    InFlightIsEarlier(c, s);
    hide Inv, OrderOk, LaunchNext;
    if CanLaunch(c, s) {
      LaunchKeepsInv(c, s);
      LaunchOrder(c, s);
      LaunchedNext(c, s);
      FillReadyOrder(c, LaunchNext(c, s));
    }
  }

  lemma LaunchedNext(c: Settings, s: Schedule)
    requires CanLaunch(c, s) && s.n.nextCandidateId >= 0
    ensures LaunchNext(c, s).n.nextRunIndex == s.n.nextRunIndex + 1 && LaunchNext(c, s).n.nextCandidateId >= 0
  {
  }

  lemma {:induction false} FillRerunAssigns(c: Settings, s: Schedule)
    requires Inv(c, s)
    ensures Assigned(FillRerun(c, s.q)) == Assigned(s.q) && FillRerun(c, s.q).ready == s.q.ready
    decreases |s.q.rerun|
  {
    hide SeedsOk, BooksOk, CorpusOk, Consistent, HistoryOk, IdsOk, QueueOk, Assigned, MapOk;
    if CanRerun(c, s.q) {
      RerunKeepsTasks(c, s.q, s.n, s.agg.completed);
      RerunKeepsInv(c, s);
      FillRerunAssigns(c, s.(q := RerunFirst(s.q)));
    }
  }

  lemma FillOrder(c: Settings, s: Schedule)
    requires Inv(c, s) && OrderOk(s)
    ensures s.n.nextCandidateId >= 0 && OrderOk(Fill(c, s))
  {
    hide Inv, OrderOk, FillReady, FillRerun;
    FillRerunAssigns(c, s);
    FillRerunKeepsInv(c, s);
    SameOrder(s, s.(q := FillRerun(c, s.q)));
    FillReadyOrder(c, s.(q := FillRerun(c, s.q)));
  }

  lemma RefillOrder(c: Settings, s: Schedule, plan: Option<Plan>)
    requires Core(c, s) && OrderOk(s)
    ensures s.n.nextCandidateId >= 0 && OrderOk(Refill(s, plan))
  {
    ServedBounds(c, s);
    hide TasksOk, SeedsOk, BooksOk, CorpusOk, Consistent, HistoryOk, IdsOk, QueueOk, Served, InTurn, TaskMap;
    NewcomerIsLast(Served(Assigned(s.q), s.history), s.q.ready, s.q.ready, Seed(s.n.nextCandidateId, plan));
  }

  lemma CompleteOrder(c: Settings, s: Schedule, index: int, o: Outcome)
    requires Inv(c, s) && OrderOk(s) && index in s.q.inFlight
    ensures s.q.inFlight[index].index >= 0 && (s.n.nextSeedAt > 0 ==> c.seedInterval > 0)
    ensures OrderOk(Complete(c, s, index, o))
  {
    SomethingLeft(c, s, index);
    CompleteAssigns(c, s, index, o);
    FinalRecordFacts(c, s, index, o);
    hide Inv, Assigned, Served, InTurn, FinalRecord, CountersAfter, CorpusAfter, PendingAfter, Absorbed;
    ServedComplete(Assigned(s.q), s.history, index, FinalRecord(c, s, s.q.inFlight[index], o));
  }

  lemma CompleteAssigns(c: Settings, s: Schedule, index: int, o: Outcome)
    requires Inv(c, s) && index in s.q.inFlight && s.q.inFlight[index].index >= 0
    requires s.n.nextSeedAt > 0 ==> c.seedInterval > 0
    ensures index in Assigned(s.q) && Assigned(s.q)[index] == s.q.inFlight[index]
    ensures Assigned(Complete(c, s, index, o).q) == Assigned(s.q) - {index}
  {
    hide SeedsOk, BooksOk, CorpusOk, Consistent, HistoryOk, IdsOk, QueueOk, FinalRecord, CorpusAfter, PendingAfter, Absorbed,
         AdvanceSeeds;
    var t := Complete(c, s, index, o);
    CompleteKeepsTasks(c, s.q, s.n, s.agg.completed, index, t.q, t.n);
  }

  lemma AdmitOrder(c: Settings, s: Schedule, entry: Entry, plan: Plan)
    requires Core(c, s) && OrderOk(s)
    ensures OrderOk(Admit(c, s, entry, plan))
  {
    ServedBounds(c, s);
    hide TasksOk, SeedsOk, BooksOk, CorpusOk, Consistent, HistoryOk, IdsOk, Served, InTurn, TaskMap;
    if s.n.nextRunIndex + |s.q.ready| < c.runs {
      var kept := if |s.q.ready| == c.maxReady then s.q.ready[1..] else s.q.ready;
      NewcomerIsLast(Served(Assigned(s.q), s.history), s.q.ready, kept, Descendant(s.n.nextCandidateId, entry, plan));
    }
  }

  lemma {:induction false} AdmitAllOrder(c: Settings, s: Schedule, entry: Entry, plans: seq<Plan>)
    requires Core(c, s) && OrderOk(s)
    ensures c.maxReady > 0 && s.n.nextCandidateId >= 0 && OrderOk(AdmitAll(c, s, entry, plans))
  {
    CoreBounds(c, s);
    hide Core, OrderOk, Admit;
    if plans != [] {
      AdmitAllKeepsCore(c, s, entry, plans[..|plans| - 1]);
      AdmitAllOrder(c, s, entry, plans[..|plans| - 1]);
      AdmitOrder(c, AdmitAll(c, s, entry, plans[..|plans| - 1]), entry, plans[|plans| - 1]);
    }
  }

  lemma CoreBounds(c: Settings, s: Schedule)
    requires Core(c, s)
    ensures c.maxReady > 0 && s.n.nextCandidateId >= 0
  {
  }

  lemma ClearedOrder(s: Schedule, id: int, queue: QueueTally)
    requires OrderOk(s)
    ensures OrderOk(Cleared(s, id, queue))
  {
    hide InTurn, Served, TaskMap;
  }

  lemma FailedOrder(c: Settings, s: Schedule, id: int)
    requires OrderOk(s) && id in s.q.pending && c.maxReady > 0 && s.n.nextCandidateId >= 0
    ensures OrderOk(MutationDone(c, s, id, MutationFailed))
  {
    hide OrderOk, Cleared;
    ClearedOrder(s, id, s.agg.report.queue.(errors := s.agg.report.queue.errors + 1));
  }

  lemma MutatedOrder(c: Settings, s: Schedule, id: int, plans: seq<Plan>)
    requires Core(c, s) && OrderOk(s) && id in s.q.pending && c.maxReady > 0 && s.n.nextCandidateId >= 0
    ensures OrderOk(MutationDone(c, s, id, Mutated(plans)))
  {
    hide Core, OrderOk, AdmitAll, Cleared, MutationDone;
    var counted := s.agg.report.queue.(generated := s.agg.report.queue.generated + |plans|);
    ClearKeepsCore(c, s, id, counted);
    ClearedOrder(s, id, counted);
    AdmitAllOrder(c, Cleared(s, id, counted), s.q.pending[id].entry, plans);
    MutationDoneUnfolds(c, s, id, plans);
  }

  lemma MutationOrder(c: Settings, s: Schedule, id: int, result: MutationResult)
    requires Inv(c, s) && OrderOk(s) && id in s.q.pending
    ensures c.maxReady > 0 && s.n.nextCandidateId >= 0 && OrderOk(MutationDone(c, s, id, result))
  {
    CoreBounds(c, s);
    hide Core, OrderOk, MutationDone;
    match result
    case MutationFailed => FailedOrder(c, s, id);
    case Mutated(plans) => MutatedOrder(c, s, id, plans);
  }

  lemma FinishOrder(s: Schedule)
    requires OrderOk(s)
    ensures OrderOk(Finish(s))
  {
    hide Served, TaskMap, LosingAll;
  }

  lemma RewoundOrder(c: Settings, s: Schedule)
    requires Inv(c, s) && OrderOk(s)
    ensures OrderOk(Rewound(s))
  {
    hide Inv, InTurn, Served, TaskList, Assigned;
    RewoundConserves(c, s);
  }
}
