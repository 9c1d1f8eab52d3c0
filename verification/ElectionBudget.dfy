/** The arithmetic pre-check of AdvanceTime: how many elections a time jump can
    cause, and that an accepted jump never takes a term past the model's bound. */
module ElectionBudget {
  import opened Arithmetic
  import opened Keys

  // ---------------------------------------------------------------- the timer of one node

  /** Election timer of a running node that is not leader. */
  datatype Timer = Timer(elapsed: nat, timeout: nat)

  /** What a fired election draws: the next randomized timeout, and whether the
      candidate becomes leader at once and stops timing out. */
  datatype Draw = Draw(timeout: nat, wins: bool)

  /** ticksRemaining of the adapter's observation. */
  function TicksRemaining(t: Timer): nat {
    if t.timeout <= t.elapsed then 0 else t.timeout - t.elapsed
  }

  /** Elections in `ticks` ticks; the k-th one draws draws(used + k). */
  function Fires(t: Timer, ticks: nat, draws: nat -> Draw, used: nat): nat
    decreases ticks
  {
    if ticks == 0 then 0
    else if t.elapsed + 1 < t.timeout then Fires(t.(elapsed := t.elapsed + 1), ticks - 1, draws, used)
    else if draws(used).wins then 1
    else 1 + Fires(Timer(0, draws(used).timeout), ticks - 1, draws, used + 1)
  }

  /** maximumElectionFires for a positive election timeout. */
  function MaximumFires(remaining: nat, ticks: nat, electionTimeout: nat): nat
    requires electionTimeout > 0
  {
    var soonest := if remaining == 0 then 1 else remaining;
    if ticks < soonest then 0 else 1 + (ticks - soonest) / electionTimeout
  }

  method MaximumElectionFires(remaining: nat, ticks: nat, electionTimeout: nat) returns (fires: Option<nat>)
    requires remaining < TWO_64 && ticks < TWO_64 && electionTimeout < TWO_64
    ensures fires.None? <==> electionTimeout == 0
    ensures fires.Some? ==> fires.value == MaximumFires(remaining, ticks, electionTimeout) <= ticks
  {
    if electionTimeout == 0 {
      return None;
    }
    if ticks == 0 {
      return Some(0);
    }
    var soonest := if remaining == 0 then 1 else remaining;
    if ticks < soonest {
      return Some(0);
    }
    QuotientAtMost(ticks - soonest, electionTimeout);
    fires := Some(Wrap(1 + (ticks - soonest) / electionTimeout));
  }

  lemma OneLessPeriod(x: nat, d: nat)
    requires d > 0 && x >= d
    ensures (x - d) / d == x / d - 1
  {
    var q, r := x / d, x % d;
    assert x - d == d * (q - 1) + r;
    QuotientIs(x - d, d, q - 1, r);
  }

  ghost predicate SlowDraws(draws: nat -> Draw, electionTimeout: nat) {
    forall k :: draws(k).timeout >= electionTimeout
  }

  /** After a fired election the formula leaves room for one election per period. */
  lemma RefillBound(timeout: nat, ticks: nat, electionTimeout: nat)
    requires electionTimeout > 0 && timeout >= electionTimeout
    ensures MaximumFires(timeout, ticks, electionTimeout) <= ticks / electionTimeout
  {
    if ticks >= timeout {
      QuotientMonotone(ticks - timeout, ticks - electionTimeout, electionTimeout);
      OneLessPeriod(ticks, electionTimeout);
    } else {
      QuotientMonotone(0, ticks, electionTimeout);
    }
  }

  /** However the timeouts are drawn, no more elections than the formula says. */
  lemma {:induction false} FiresAtMost(t: Timer, ticks: nat, draws: nat -> Draw, used: nat, electionTimeout: nat)
    requires electionTimeout > 0 && SlowDraws(draws, electionTimeout)
    ensures Fires(t, ticks, draws, used) <= MaximumFires(TicksRemaining(t), ticks, electionTimeout)
    decreases ticks
  {
    if ticks > 0 {
      if t.elapsed + 1 < t.timeout {
        FiresAtMost(t.(elapsed := t.elapsed + 1), ticks - 1, draws, used, electionTimeout);
      } else if !draws(used).wins {
        var next := Timer(0, draws(used).timeout);
        FiresAtMost(next, ticks - 1, draws, used + 1, electionTimeout);
        RefillBound(next.timeout, ticks - 1, electionTimeout);
      }
    }
  }

  /** And the formula is reached when every draw is the shortest and nobody wins. */
  lemma {:induction false} FiresExactly(t: Timer, ticks: nat, draws: nat -> Draw, used: nat, electionTimeout: nat)
    requires electionTimeout > 0 && forall k :: draws(k) == Draw(electionTimeout, false)
    ensures Fires(t, ticks, draws, used) == MaximumFires(TicksRemaining(t), ticks, electionTimeout)
    decreases ticks
  {
    if ticks > 0 {
      if t.elapsed + 1 < t.timeout {
        FiresExactly(t.(elapsed := t.elapsed + 1), ticks - 1, draws, used, electionTimeout);
      } else {
        FiresExactly(Timer(0, electionTimeout), ticks - 1, draws, used + 1, electionTimeout);
        if ticks - 1 >= electionTimeout {
          OneLessPeriod(ticks - 1, electionTimeout);
        } else {
          QuotientIs(ticks - 1, electionTimeout, 0, ticks - 1);
        }
      }
    }
  }

  // ---------------------------------------------------------------- ValidateAction

  datatype Node = Node(running: bool, leader: bool, term: nat, timer: Timer, electionTimeout: nat)

  datatype Decision = Accepted | TargetInPast | TimerStateUnavailable | TermAboveBound | MayExceedTerm

  predicate CanTimeOut(n: Node) {
    n.running && !n.leader
  }

  predicate WithinBudget(n: Node, ticks: nat, largestTerm: nat) {
    n.electionTimeout > 0 && n.term + MaximumFires(TicksRemaining(n.timer), ticks, n.electionTimeout) <= largestTerm
  }

  predicate Unsigned(n: Node) {
    n.term < TWO_64 && n.timer.timeout < TWO_64 && n.electionTimeout < TWO_64
  }

  method ValidateAdvance(nodes: seq<Node>, now: nat, target: nat, largestTerm: nat) returns (decision: Decision)
    requires target < TWO_64 && largestTerm < TWO_64 && forall i :: 0 <= i < |nodes| ==> Unsigned(nodes[i])
    ensures decision.Accepted? <==>
              target > now && forall i :: 0 <= i < |nodes| && CanTimeOut(nodes[i]) ==> WithinBudget(nodes[i], target - now, largestTerm)
  {
    if target <= now {
      return TargetInPast;
    }
    var ticks := target - now;
    for i := 0 to |nodes|
      invariant forall j :: 0 <= j < i && CanTimeOut(nodes[j]) ==> WithinBudget(nodes[j], ticks, largestTerm)
    {
      var n := nodes[i];
      if n.running && !n.leader {
        var fires := MaximumElectionFires(TicksRemaining(n.timer), ticks, n.electionTimeout);
        if fires.None? {
          return TimerStateUnavailable;
        }
        if n.term > largestTerm {
          return TermAboveBound;
        }
        if fires.value > Wrap(largestTerm - n.term) {
          return MayExceedTerm;
        }
      }
    }
    decision := Accepted;
  }

  // ---------------------------------------------------------------- what acceptance buys

  /** The mapper's bound check on the k-th timeout of the jump. */
  predicate MapperAccepts(termBefore: nat, termAfter: nat, largestTerm: nat) {
    termAfter == termBefore || (termBefore < largestTerm && termAfter == termBefore + 1)
  }

  /** The election of a node raises its term by one each time it fires. */
  function TermAfterFires(n: Node, fires: nat): nat {
    n.term + fires
  }

  /** An accepted jump keeps the node within LargestTerm whatever is drawn, and the
      mapper accepts each of its timeouts. */
  lemma AcceptedStaysInBounds(n: Node, ticks: nat, draws: nat -> Draw, largestTerm: nat, k: nat)
    requires CanTimeOut(n) && WithinBudget(n, ticks, largestTerm) && SlowDraws(draws, n.electionTimeout)
    requires k < Fires(n.timer, ticks, draws, 0)
    ensures TermAfterFires(n, Fires(n.timer, ticks, draws, 0)) <= largestTerm
    ensures MapperAccepts(TermAfterFires(n, k), TermAfterFires(n, k + 1), largestTerm)
  {
    FiresAtMost(n.timer, ticks, draws, 0, n.electionTimeout);
  }

  /** The pre-check refuses exactly the jumps some draw could take past the bound. */
  lemma BudgetIsExact(n: Node, ticks: nat, largestTerm: nat)
    requires n.electionTimeout > 0
    ensures WithinBudget(n, ticks, largestTerm) <==>
              (forall draws: nat -> Draw | SlowDraws(draws, n.electionTimeout) ::
                 TermAfterFires(n, Fires(n.timer, ticks, draws, 0)) <= largestTerm)
  {
    if WithinBudget(n, ticks, largestTerm) {
      forall draws: nat -> Draw | SlowDraws(draws, n.electionTimeout)
        ensures TermAfterFires(n, Fires(n.timer, ticks, draws, 0)) <= largestTerm
      {
        FiresAtMost(n.timer, ticks, draws, 0, n.electionTimeout);
      }
    } else {
      var shortest: nat -> Draw := k => Draw(n.electionTimeout, false);
      assert SlowDraws(shortest, n.electionTimeout);
      FiresExactly(n.timer, ticks, shortest, 0, n.electionTimeout);
    }
  }

  // ---------------------------------------------------------------- the whole cluster

  /** What ValidateAdvance accepts, apart from time moving forward. */
  ghost predicate AcceptedAdvance(nodes: seq<Node>, ticks: nat, largestTerm: nat) {
    forall i :: 0 <= i < |nodes| && CanTimeOut(nodes[i]) ==> WithinBudget(nodes[i], ticks, largestTerm)
  }

  /** Time alone changes no term of a leader or a crashed node: nothing is delivered
      during the jump, and leaders do not check their quorum. */
  function TermAfter(n: Node, ticks: nat, draws: nat -> Draw): nat {
    if CanTimeOut(n) then TermAfterFires(n, Fires(n.timer, ticks, draws, 0)) else n.term
  }

  /** draws(i) is the random source of node i. */
  ghost predicate AllSlow(nodes: seq<Node>, draws: nat -> (nat -> Draw)) {
    forall i :: 0 <= i < |nodes| ==> SlowDraws(draws(i), nodes[i].electionTimeout)
  }

  ghost predicate StaysInBounds(nodes: seq<Node>, ticks: nat, draws: nat -> (nat -> Draw), largestTerm: nat) {
    forall i :: 0 <= i < |nodes| ==> TermAfter(nodes[i], ticks, draws(i)) <= largestTerm
  }

  /** From a state within the bound, the jumps the pre-check accepts are exactly those
      after which every node, leaders included, is still within it whatever is drawn. */
  lemma AdvanceIsExact(nodes: seq<Node>, ticks: nat, largestTerm: nat)
    requires forall i :: 0 <= i < |nodes| ==> nodes[i].term <= largestTerm && nodes[i].electionTimeout > 0
    ensures AcceptedAdvance(nodes, ticks, largestTerm) <==>
              (forall draws: nat -> (nat -> Draw) | AllSlow(nodes, draws) :: StaysInBounds(nodes, ticks, draws, largestTerm))
  {
    hide Fires, MaximumFires, TicksRemaining, SlowDraws;
    if AcceptedAdvance(nodes, ticks, largestTerm) {
      forall draws: nat -> (nat -> Draw) | AllSlow(nodes, draws)
        ensures StaysInBounds(nodes, ticks, draws, largestTerm)
      {
        forall i | 0 <= i < |nodes|
          ensures TermAfter(nodes[i], ticks, draws(i)) <= largestTerm
        {
          BudgetIsExact(nodes[i], ticks, largestTerm);
        }
      }
    } else {
      var i :| 0 <= i < |nodes| && CanTimeOut(nodes[i]) && !WithinBudget(nodes[i], ticks, largestTerm);
      Overshoots(nodes, ticks, largestTerm, i);
    }
  }

  lemma Overshoots(nodes: seq<Node>, ticks: nat, largestTerm: nat, i: nat)
    requires i < |nodes| && CanTimeOut(nodes[i]) && !WithinBudget(nodes[i], ticks, largestTerm)
    requires forall k :: 0 <= k < |nodes| ==> nodes[k].electionTimeout > 0
    ensures exists draws: nat -> (nat -> Draw) :: AllSlow(nodes, draws) && !StaysInBounds(nodes, ticks, draws, largestTerm)
  {
    var draws := Shortest(nodes);
    assert AllSlow(nodes, draws);
    FiresExactly(nodes[i].timer, ticks, draws(i), 0, nodes[i].electionTimeout);
    assert TermAfter(nodes[i], ticks, draws(i)) > largestTerm;
  }

  function Shortest(nodes: seq<Node>): nat -> (nat -> Draw) {
    (i: nat) => (k: nat) => Draw(if i < |nodes| then nodes[i].electionTimeout else 0, false)
  }
}
