/** What feeds the queue and what it gives up: the initial seeds, the plans of a
    mutation result, and the one seed that keeps an idle experiment going. */
module QueueMeaning {
  import opened Keys
  import opened Corpora
  import opened Aggregation
  import opened Lifecycle
  import opened SchedulerSpec
  import opened SchedulerInvariant
  import opened Scheduler

  // ---------------------------------------------------------------- starting

  function Lesser(a: int, b: int): int {
    if a < b then a else b
  }

  /** Of the initial plans the latest `maxReady` are queued, oldest first, as seeds
      without ancestors; the earlier ones are given up but keep their IDs. */
  lemma StartKeepsTheNewest(c: Settings, plans: seq<Option<Plan>>)
    requires WellConfigured(c)
    ensures var s := Start(c, plans);
            var n := Lesser(|plans|, c.maxReady);
            && |s.q.ready| == n == s.agg.report.queue.peak
            && s.n.nextCandidateId == |plans| && s.n.completed == s.n.nextRunIndex == s.n.seedsDue == 0
            && s.losses.abandoned.seeds == |plans| - n
            && forall i :: 0 <= i < n ==>
                 && s.q.ready[i].id == |plans| - n + i && s.q.ready[i].plan == plans[|plans| - n + i]
                 && s.q.ready[i].kind.Initial? && s.q.ready[i].parent.None? && s.q.ready[i].depth == 0
  {
  }

  // ---------------------------------------------------------------- an idle experiment

  /** No run, no candidate, no mutation and no seed is left anywhere. */
  ghost predicate NothingLeft(s: Schedule) {
    && |s.q.inFlight| == 0 && s.q.rerun == [] && s.q.ready == [] && |s.q.pending| == 0
    && s.n.seedsDue <= 0
  }

  /** The loop asks the initializer for another seed exactly when nothing is left to wait
      for or to launch and runs are still missing. */
  lemma RefillOnlyWhenNothingIsLeft(c: Settings, s: Schedule)
    requires Inv(c, s)
    ensures s.n.nextCandidateId >= 0
    ensures var t := Fill(c, s); NeedsSeed(c, t) <==> NothingLeft(t) && t.n.completed < c.runs
  {
    FillSettles(c, s);
    hide Fill;
    var t := Fill(c, s);
    TasksAddUp(c, t.q, t.n, t.agg.completed);
    InvBounds(c, t);
  }

  // ---------------------------------------------------------------- mutation results

  /** How many of so many plans find a run index: all of them when even a full queue
      leaves indices over, otherwise as many as are not spoken for. */
  function Room(c: Settings, s: Schedule, plans: nat): nat {
    if s.n.nextRunIndex + c.maxReady < c.runs then plans
    else if c.runs - s.n.nextRunIndex <= |s.q.ready| then 0
    else Lesser(plans, c.runs - s.n.nextRunIndex - |s.q.ready|)
  }

  /** A result's plans are admitted up to the room there is and no further; the
      peak is the largest length the queue has had. */
  lemma {:induction false} AdmissionFitsTheBudget(c: Settings, s: Schedule, entry: Entry, plans: seq<Plan>)
    requires c.maxReady > 0 && s.n.nextCandidateId >= 0 && |s.q.ready| <= c.maxReady
    ensures var t, room := AdmitAll(c, s, entry, plans), Room(c, s, |plans|);
            && t.agg.report.queue.admitted == s.agg.report.queue.admitted + room
            && t.losses.overBudget == s.losses.overBudget + |plans| - room
            && |t.q.ready| == Lesser(c.maxReady, |s.q.ready| + room)
            && t.n == s.n.(nextCandidateId := s.n.nextCandidateId + room)
            && t.agg.report.queue.peak
               == (if room > 0 && |t.q.ready| > s.agg.report.queue.peak then |t.q.ready| else s.agg.report.queue.peak)
  {
    if plans != [] {
      hide Admit;
      AdmissionFitsTheBudget(c, s, entry, plans[..|plans| - 1]);
      AdmitCounts(c, AdmitAll(c, s, entry, plans[..|plans| - 1]), entry, plans[|plans| - 1]);
    }
  }

  lemma AdmitCounts(c: Settings, s: Schedule, entry: Entry, plan: Plan)
    requires c.maxReady > 0 && s.n.nextCandidateId >= 0 && |s.q.ready| <= c.maxReady
    ensures var t := Admit(c, s, entry, plan);
            var q, q' := s.agg.report.queue, t.agg.report.queue;
            if s.n.nextRunIndex + |s.q.ready| < c.runs then
              && |t.q.ready| == Lesser(c.maxReady, |s.q.ready| + 1) && q'.admitted == q.admitted + 1
              && q'.peak == (if |t.q.ready| > q.peak then |t.q.ready| else q.peak)
              && t.n == s.n.(nextCandidateId := s.n.nextCandidateId + 1) && t.losses.overBudget == s.losses.overBudget
            else
              && |t.q.ready| == |s.q.ready| && q'.admitted == q.admitted && q'.peak == q.peak
              && t.n == s.n && t.losses.overBudget == s.losses.overBudget + 1
  {
  }

  /** Either way the request is retired; a failure is counted and changes nothing else
      of the queue, a result counts all of its plans as generated. */
  lemma MutationAnswered(c: Settings, s: Schedule, id: int, result: MutationResult)
    requires id in s.q.pending && c.maxReady > 0 && s.n.nextCandidateId >= 0
    ensures var t := MutationDone(c, s, id, result);
            var q, q' := s.agg.report.queue, t.agg.report.queue;
            && t.q.pending == s.q.pending - {id} && t.q.inFlight == s.q.inFlight && t.q.rerun == s.q.rerun
            && t.history == s.history && t.corpus == s.corpus
            && q'.errors == q.errors + (if result.MutationFailed? then 1 else 0)
            && q'.generated == q.generated + (if result.Mutated? then |result.plans| else 0)
            && (result.MutationFailed? ==> t.q.ready == s.q.ready && t.n == s.n && t.losses == s.losses)
  {
    if result.Mutated? {
      var counted := s.agg.report.queue.(generated := s.agg.report.queue.generated + |result.plans|);
      AdmitAllKeepsTheRest(c, Cleared(s, id, counted), s.q.pending[id].entry, result.plans);
    }
  }

  lemma {:induction false} AdmitAllKeepsTheRest(c: Settings, s: Schedule, entry: Entry, plans: seq<Plan>)
    requires c.maxReady > 0 && s.n.nextCandidateId >= 0
    ensures var t := AdmitAll(c, s, entry, plans);
            && t.q.pending == s.q.pending && t.q.inFlight == s.q.inFlight && t.q.rerun == s.q.rerun
            && t.history == s.history && t.corpus == s.corpus
            && t.agg.report.queue.errors == s.agg.report.queue.errors
            && t.agg.report.queue.generated == s.agg.report.queue.generated
  {
    if plans != [] {
      AdmitAllKeepsTheRest(c, s, entry, plans[..|plans| - 1]);
    }
  }
}
