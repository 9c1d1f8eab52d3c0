/** RunFeedback as a value and the functions its loop applies to it. */
module SchedulerSpec {
  import opened Keys
  import opened Corpora
  import opened Aggregation
  import opened Lifecycle

  /** What a worker reports back: whether the engine completed without error,
      the executed plan, the model states and their projection, the digests. */
  datatype Outcome = Outcome(succeeded: bool, plan: Plan, states: seq<Key>, semanticStates: seq<Key>,
                             semanticTransitions: seq<Key>, planDigest: Digest, traceDigest: Digest, pathDigest: Digest,
                             durationMicros: int)

  datatype Request = Request(entry: Entry, count: int)

  datatype MutationResult = MutationFailed | Mutated(plans: seq<Plan>)

  datatype Queues = Queues(ready: seq<Candidate>, rerun: seq<Scheduled>, inFlight: map<int, Scheduled>,
                           pending: map<int, Request>)

  datatype Counters = Counters(nextCandidateId: int, nextRunIndex: int, completed: int, nextSeedAt: int, seedsDue: int)

  /** Queued candidates that will never run: mutations, and seeds of the initializer. */
  datatype Lost = Lost(mutations: nat, seeds: nat)

  /** A tally the loop does not keep, for stating conservation: what the full queue
      evicted, what was cut at the start or left in the queue at the end, and the
      mutated plans discarded because every run index was spoken for. */
  datatype Losses = Losses(evicted: Lost, abandoned: Lost, overBudget: nat)

  const NO_LOSSES := Losses(Lost(0, 0), Lost(0, 0), 0)

  /** `history` is what OnRunComplete has been given so far: the content of runs.jsonl. */
  datatype Schedule = Schedule(q: Queues, n: Counters, corpus: Corpora.State, agg: Aggregate, history: seq<RunRecord>,
                               losses: Losses)

  /** The bounds `New` enforces or fills in. */
  predicate WellConfigured(c: Settings) {
    && c.runs > 0 && 0 < c.parallelism <= c.runs && 0 < c.initialPopulation <= c.runs
    && c.mutationsPerNewState > 0 && c.maxMutationsPerCorpus > 0 && c.maxReady > 0 && c.corpus.minNew > 0
    && c.seedInterval >= 0 && c.seedsPerInterval >= 0 && (c.seedInterval > 0 ==> c.seedsPerInterval > 0)
  }

  // ---------------------------------------------------------------- candidates that never run

  function Queued(ready: seq<Candidate>, kind: Kind): nat {
    if ready == [] then 0 else (if ready[0].kind == kind then 1 else 0) + Queued(ready[1..], kind)
  }

  function OneMore(lost: Lost, kind: Kind): Lost {
    if kind.Mutation? then lost.(mutations := lost.mutations + 1) else lost.(seeds := lost.seeds + 1)
  }

  function LosingAll(lost: Lost, gone: seq<Candidate>): Lost {
    if gone == [] then lost else OneMore(LosingAll(lost, gone[..|gone| - 1]), gone[|gone| - 1].kind)
  }

  function Size(lost: Lost): nat {
    lost.mutations + lost.seeds
  }

  // ---------------------------------------------------------------- starting and launching

  const INITIAL_SOURCE := "initial"
  const PERIODIC_SOURCE := "periodic_random"
  const MUTATION_SOURCE := "mutation"

  function Seed(id: nat, plan: Option<Plan>): Candidate {
    Candidate(id, None, Initial, INITIAL_SOURCE, 0, plan)
  }

  function Seeds(first: nat, plans: seq<Option<Plan>>): seq<Candidate> {
    seq(|plans|, i requires 0 <= i < |plans| => Seed(first + i, plans[i]))
  }

  function Last<T>(s: seq<T>, count: int): seq<T>
    requires count >= 0
  {
    if |s| > count then s[|s| - count..] else s
  }

  /** A fresh experiment: the initial seeds, cut to the ready bound. */
  function Start(c: Settings, plans: seq<Option<Plan>>): Schedule
    requires WellConfigured(c)
  {
    var ready := Last(Seeds(0, plans), c.maxReady);
    var agg := EmptyAggregate(c);
    Schedule(Queues(ready, [], map[], map[]), Counters(|plans|, 0, 0, c.seedInterval, 0), Empty,
          agg.(report := agg.report.(queue := agg.report.queue.(peak := |ready|))), [],
          NO_LOSSES.(abandoned := Lost(0, |plans| - |ready|)))
  }

  function Launched(q: Queues, task: Scheduled): Queues {
    q.(inFlight := q.inFlight[task.index := task])
  }

  predicate CanRerun(c: Settings, q: Queues) {
    |q.inFlight| < c.parallelism && |q.rerun| > 0
  }

  function RerunFirst(q: Queues): Queues
    requires |q.rerun| > 0
  {
    Launched(q.(rerun := q.rerun[1..]), q.rerun[0])
  }

  function FillRerun(c: Settings, q: Queues): Queues
    decreases |q.rerun|
  {
    if CanRerun(c, q) then FillRerun(c, RerunFirst(q)) else q
  }

  predicate CanLaunch(c: Settings, s: Schedule) {
    s.n.nextRunIndex < c.runs && |s.q.inFlight| < c.parallelism && (s.n.seedsDue > 0 || |s.q.ready| > 0)
  }

  /** A due periodic seed goes first; otherwise the head of the ready queue. */
  function LaunchNext(c: Settings, s: Schedule): Schedule
    requires CanLaunch(c, s) && s.n.nextCandidateId >= 0
  {
    var index := s.n.nextRunIndex;
    if s.n.seedsDue > 0 then
      var periodic := Candidate(s.n.nextCandidateId, None, PeriodicRandom, PERIODIC_SOURCE, 0, None);
      s.(q := Launched(s.q, Scheduled(index, c.baseSeed + index, periodic)),
         n := s.n.(nextRunIndex := index + 1, nextCandidateId := s.n.nextCandidateId + 1, seedsDue := s.n.seedsDue - 1))
    else
      s.(q := Launched(s.q.(ready := s.q.ready[1..]), Scheduled(index, c.baseSeed + index, s.q.ready[0])),
         n := s.n.(nextRunIndex := index + 1))
  }

  function FillReady(c: Settings, s: Schedule): Schedule
    requires s.n.nextCandidateId >= 0
    decreases c.runs - s.n.nextRunIndex
  {
    if CanLaunch(c, s) then FillReady(c, LaunchNext(c, s)) else s
  }

  function Fill(c: Settings, s: Schedule): Schedule
    requires s.n.nextCandidateId >= 0
  {
    FillReady(c, s.(q := FillRerun(c, s.q)))
  }

  /** Only an idle scheduler with no queue and no mutation asks for a new seed. */
  predicate NeedsSeed(c: Settings, s: Schedule) {
    |s.q.inFlight| == 0 && |s.q.ready| == 0 && |s.q.pending| == 0 && s.n.nextRunIndex < c.runs
  }

  function Refill(s: Schedule, plan: Option<Plan>): Schedule
    requires s.n.nextCandidateId >= 0
  {
    s.(q := s.q.(ready := s.q.ready + [Seed(s.n.nextCandidateId, plan)]),
       n := s.n.(nextCandidateId := s.n.nextCandidateId + 1))
  }

  // ---------------------------------------------------------------- completions

  function AdvanceSeeds(c: Settings, completed: int, at: int, due: int): (int, int)
    requires at > 0 ==> c.seedInterval > 0
    decreases completed - at
  {
    if at > 0 && completed >= at then AdvanceSeeds(c, completed, at + c.seedInterval, due + c.seedsPerInterval)
    else (at, due)
  }

  function MutationCount(newStates: int, perState: int, maximum: int): int {
    if newStates <= 0 || perState <= 0 || maximum <= 0 then 0
    else if newStates > maximum / perState then maximum
    else if newStates * perState < maximum then newStates * perState else maximum
  }

  /** feedbackRun: the record before classification and admission. */
  function NewRecord(task: Scheduled, o: Outcome): RunRecord
    requires task.index >= 0
  {
    var candidate := task.candidate;
    RunRecord(task.index, task.seed, o.succeeded, candidate.id, candidate.kind, candidate.parent, candidate.depth,
              o.durationMicros, Sorted(Elements(o.states)), o.planDigest, o.traceDigest, o.pathDigest, false, false, false,
              false, None, None, [], 0, 0)
  }

  function CorpusInput(task: Scheduled, o: Outcome): Input {
    Input(task.candidate.parent, task.candidate.source, task.candidate.depth, task.index, task.seed, o.plan,
          o.states, o.semanticStates, o.semanticTransitions)
  }

  predicate Judged(o: Outcome) {
    o.succeeded && |o.states| > 0
  }

  function WithVerdict(run: RunRecord, verdict: Verdict): RunRecord {
    match verdict
    case Refused => run.(succeeded := false)
    case Considered(entry, reason, retained) =>
      run.(newStateKeys := entry.newStates, newSemanticStates := |entry.newSemanticStates|,
           newSemanticTransitions := |entry.newSemanticTransitions|, admission := Some(reason),
           retained := retained, corpusId := if retained then Some(entry.id) else None)
  }

  function RequestFor(c: Settings, entry: Entry): Request {
    var novelty := |entry.newSemanticStates| + |entry.newSemanticTransitions|;
    Request(entry, MutationCount(if novelty > 1 then novelty else 1, c.mutationsPerNewState, c.maxMutationsPerCorpus))
  }

  function WithRequest(c: Settings, n: Counters, pending: map<int, Request>, verdict: Verdict): map<int, Request> {
    if verdict.Considered? && verdict.retained && RequestFor(c, verdict.entry).count > 0 && n.nextRunIndex < c.runs
    then pending[verdict.entry.id := RequestFor(c, verdict.entry)]
    else pending
  }

  /** The record of a completion as it is finally aggregated and written. */
  function FinalRecord(c: Settings, s: Schedule, task: Scheduled, o: Outcome): RunRecord
    requires task.index >= 0
  {
    var run := ClassifiedRun(s.agg.seen, NewRecord(task, o));
    if Judged(o) then WithVerdict(run, Verdicts(c.corpus, s.corpus, CorpusInput(task, o))) else run
  }

  function CorpusAfter(c: Settings, s: Schedule, task: Scheduled, o: Outcome): Corpora.State {
    if Judged(o) then After(c.corpus, s.corpus, CorpusInput(task, o)) else s.corpus
  }

  function PendingAfter(c: Settings, n: Counters, corpus: Corpora.State, pending: map<int, Request>, task: Scheduled,
                        o: Outcome): map<int, Request> {
    if Judged(o) then WithRequest(c, n, pending, Verdicts(c.corpus, corpus, CorpusInput(task, o))) else pending
  }

  function QueuesAfter(c: Settings, s: Schedule, task: Scheduled, o: Outcome): Queues {
    s.q.(inFlight := s.q.inFlight - {task.index}, pending := PendingAfter(c, s.n, s.corpus, s.q.pending, task, o))
  }

  function CountersAfter(c: Settings, n: Counters): Counters
    requires n.nextSeedAt > 0 ==> c.seedInterval > 0
  {
    var (at, due) := AdvanceSeeds(c, n.completed + 1, n.nextSeedAt, n.seedsDue);
    n.(completed := n.completed + 1, nextSeedAt := at, seedsDue := due)
  }

  function Complete(c: Settings, s: Schedule, index: int, o: Outcome): Schedule
    requires index in s.q.inFlight && s.q.inFlight[index].index >= 0
    requires s.n.nextSeedAt > 0 ==> c.seedInterval > 0
  {
    var task := s.q.inFlight[index];
    var run := FinalRecord(c, s, task, o);
    var corpus := CorpusAfter(c, s, task, o);
    Schedule(QueuesAfter(c, s, task, o), CountersAfter(c, s.n), corpus, Absorbed(s.agg, run, |corpus.entries|), s.history + [run],
             s.losses)
  }

  // ---------------------------------------------------------------- mutation results

  function WithQueue(a: Aggregate, queue: QueueTally): Aggregate {
    a.(report := a.report.(queue := queue))
  }

  function Descendant(id: nat, entry: Entry, plan: Plan): Candidate {
    Candidate(id, Some(entry.id), Mutation, MUTATION_SOURCE, entry.depth + 1, Some(plan))
  }

  /** One mutated plan: discarded without budget, otherwise queued, evicting
      the oldest candidate when the queue is full. */
  function Admit(c: Settings, s: Schedule, entry: Entry, plan: Plan): Schedule
    requires c.maxReady > 0 && s.n.nextCandidateId >= 0
  {
    var queue := s.agg.report.queue;
    if s.n.nextRunIndex + |s.q.ready| >= c.runs then
      s.(agg := WithQueue(s.agg, queue.(discarded := queue.discarded + 1)),
         losses := s.losses.(overBudget := s.losses.overBudget + 1))
    else
      var full := |s.q.ready| == c.maxReady;
      var kept := if full then s.q.ready[1..] else s.q.ready;
      var ready := kept + [Descendant(s.n.nextCandidateId, entry, plan)];
      var queue' := queue.(discarded := queue.discarded + (if full then 1 else 0), admitted := queue.admitted + 1,
                           peak := if |ready| > queue.peak then |ready| else queue.peak);
      s.(q := s.q.(ready := ready), n := s.n.(nextCandidateId := s.n.nextCandidateId + 1), agg := WithQueue(s.agg, queue'),
         losses := if full then s.losses.(evicted := OneMore(s.losses.evicted, s.q.ready[0].kind)) else s.losses)
  }

  function AdmitAll(c: Settings, s: Schedule, entry: Entry, plans: seq<Plan>): (t: Schedule)
    requires c.maxReady > 0 && s.n.nextCandidateId >= 0
    ensures t.n.nextCandidateId >= s.n.nextCandidateId
  {
    if plans == [] then s else Admit(c, AdmitAll(c, s, entry, plans[..|plans| - 1]), entry, plans[|plans| - 1])
  }

  function Cleared(s: Schedule, id: int, queue: QueueTally): Schedule {
    s.(q := s.q.(pending := s.q.pending - {id}), agg := WithQueue(s.agg, queue))
  }

  function MutationDone(c: Settings, s: Schedule, id: int, result: MutationResult): Schedule
    requires id in s.q.pending && c.maxReady > 0 && s.n.nextCandidateId >= 0
  {
    var queue := s.agg.report.queue;
    match result
    case MutationFailed => Cleared(s, id, queue.(errors := queue.errors + 1))
    case Mutated(plans) =>
      AdmitAll(c, Cleared(s, id, queue.(generated := queue.generated + |plans|)), s.q.pending[id].entry, plans)
  }

  /** After the last completion: queue, due seeds and mutations are dropped. */
  function Finish(s: Schedule): Schedule {
    s.(q := s.q.(ready := [], pending := map[]), n := s.n.(seedsDue := 0),
       losses := s.losses.(abandoned := LosingAll(s.losses.abandoned, s.q.ready)))
  }

  // ---------------------------------------------------------------- saving and resuming

  function TaskMap(tasks: seq<Scheduled>): map<int, Scheduled> {
    if tasks == [] then map[] else TaskMap(tasks[1..])[tasks[0].index := tasks[0]]
  }

  /** Everything that owns a run index and is not completed. */
  function Assigned(q: Queues): map<int, Scheduled> {
    TaskMap(q.rerun) + q.inFlight
  }

  /** mergeScheduled: the tasks in index order. */
  function TaskList(m: map<int, Scheduled>): seq<Scheduled> {
    var keys := Sorted(m.Keys);
    seq(|keys|, i requires 0 <= i < |keys| => TaskAt(m, keys, i))
  }

  function TaskAt(m: map<int, Scheduled>, keys: seq<int>, i: nat): Scheduled
    requires i < |keys| && keys == Sorted(m.Keys)
  {
    assert keys[i] in Elements(keys);
    m[keys[i]]
  }

  function PendingList(pending: map<int, Request>): seq<Pending> {
    var keys := Sorted(pending.Keys);
    seq(|keys|, i requires 0 <= i < |keys| => PendingAt(pending, keys, i))
  }

  function PendingAt(pending: map<int, Request>, keys: seq<int>, i: nat): Pending
    requires i < |keys| && keys == Sorted(pending.Keys)
  {
    assert keys[i] in Elements(keys);
    Pending(keys[i], pending[keys[i]].count)
  }

  function Save(c: Settings, fingerprint: string, s: Schedule): SavedState {
    SavedState(CHECKPOINT_VERSION, c, fingerprint, Snapshotted(s.agg, |s.corpus.entries|), Checkpointed(s.corpus),
               s.q.ready, TaskList(Assigned(s.q)), PendingList(s.q.pending), s.n.nextCandidateId, s.n.nextRunIndex,
               s.n.completed, s.n.completed, s.n.nextSeedAt, s.n.seedsDue)
  }

  /** The loop that rebuilds `pending` from the saved references. */
  function RestoredPending(list: seq<Pending>, entries: seq<Entry>): map<int, Request> {
    if list == [] then map[]
    else
      var p := list[|list| - 1];
      var earlier := RestoredPending(list[..|list| - 1], entries);
      if 0 <= p.entryId < |entries| then earlier[p.entryId := Request(entries[p.entryId], p.count)] else earlier
  }

  /** The resumed loop's variables, from a checkpoint and the two truncated journals;
      `losses` is the tally as of that checkpoint. */
  function Resume(saved: SavedState, entries: seq<Entry>, history: seq<RunRecord>, losses: Losses): Schedule {
    Schedule(Queues(saved.ready, saved.inFlight, map[], RestoredPending(saved.pending, entries)),
          Counters(saved.nextCandidateId, saved.nextRunIndex, saved.completed, saved.nextSeedAt, saved.seedsDue),
          Restored(saved.corpus, entries), Unpacked(saved.aggregation), history, losses)
  }
}
