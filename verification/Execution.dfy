/** What the trace of one execution says about the execution: every step was due when
    it was taken, and all of them together kept the limits. */
module Executions {
  import opened Arithmetic
  import opened Keys
  import opened Networks
  import opened Traces

  /** Zero means no limit. */
  datatype Limits = Limits(maxActions: nat, maxTicks: nat, maxEffects: nat, maxQueued: nat)

  datatype Capabilities = Capabilities(forceTimeout: bool, crashRestart: bool, clientRequest: bool)

  ghost predicate Seen(nodes: seq<Node>, id: nat, status: NodeStatus) {
    exists k :: 0 <= k < |nodes| && nodes[k].id == id && nodes[k].status == status
  }

  // ---------------------------------------------------------------- when an action is due

  /** The message with this ID is where the action looks for it. */
  predicate Queues(net: Net, id: nat, link: Link, position: int) {
    0 <= position < |Queue(net, link)| && Queue(net, link)[position].message.id == id
  }

  /** The nodes were seen in the state the action needs. */
  ghost predicate Suits(nodes: seq<Node>, action: Action) {
    match action
    case Deliver(_, link, _) => Seen(nodes, link.to, Running)
    case Timeout(node) => Seen(nodes, node, Running)
    case Crash(node) => Seen(nodes, node, Running)
    case Request(node, _) => Seen(nodes, node, Running)
    case Restart(node) => Seen(nodes, node, Crashed)
    case _ => true
  }

  predicate Supports(able: Capabilities, action: Action) {
    && (action.Timeout? ==> able.forceTimeout)
    && (action.Crash? || action.Restart? ==> able.crashRestart)
    && (action.Request? ==> able.clientRequest)
  }

  /** The action is due: judged by the trace so far, the network and what the nodes showed. */
  ghost predicate Due(limits: Limits, net: Net, nodes: seq<Node>, time: nat, taken: nat, action: Action, able: Capabilities) {
    && (limits.maxActions != 0 ==> taken < limits.maxActions)
    && Supports(able, action) && Suits(nodes, action)
    && match action
       case Deliver(id, link, position) => Queues(net, id, link, position)
       case Drop(id, link, position) => Queues(net, id, link, position)
       case Duplicate(id, link, position) =>
         Queues(net, id, link, position) && (limits.maxQueued != 0 ==> Total(net.queues) < limits.maxQueued)
       case AdvanceTime(target) => time < target && (limits.maxTicks != 0 ==> target <= limits.maxTicks)
       case _ => true
  }

  // ---------------------------------------------------------------- the trace

  /** Timers fire by themselves while time passes, on demand at a forced timeout, and
      dropping or copying a message has no effects of its own. */
  ghost predicate FittingEffects(action: Action, effects: seq<Effect>) {
    match action
    case Drop(_, _, _) => effects == []
    case Duplicate(_, _, _) => effects == []
    case AdvanceTime(_) => forall i :: 0 <= i < |effects| && effects[i].timer.Some? ==> effects[i].timer.value.source == Natural
    case Timeout(node) =>
      && (exists i :: 0 <= i < |effects| && effects[i].timer.Some?)
      && (forall i :: 0 <= i < |effects| && effects[i].timer.Some? ==>
            effects[i].timer.value.source == Forced && effects[i].timer.value.node == node)
    case _ => true
  }

  /** Each step suits what the nodes showed before it, and that is what they showed
      after the step before. */
  ghost predicate Told(steps: seq<Step>) {
    && (forall i :: 0 <= i < |steps| ==>
          Suits(steps[i].nodesBefore, steps[i].action) && FittingEffects(steps[i].action, steps[i].effects))
    && (forall i :: 0 < i < |steps| ==> steps[i].nodesBefore == steps[i - 1].nodesAfter)
  }

  function EffectsIn(steps: seq<Step>): nat {
    if steps == [] then 0 else EffectsIn(steps[..|steps| - 1]) + |steps[|steps| - 1].effects|
  }

  ghost predicate WithinLimits(limits: Limits, steps: seq<Step>) {
    && (limits.maxActions != 0 ==> |steps| <= limits.maxActions)
    && (limits.maxEffects != 0 ==> EffectsIn(steps) <= limits.maxEffects)
    && (limits.maxTicks != 0 ==> forall i :: 0 <= i < |steps| ==> steps[i].timeAfter <= limits.maxTicks)
  }

  lemma OneMoreTold(steps: seq<Step>, s: Step)
    requires Told(steps) && Suits(s.nodesBefore, s.action) && FittingEffects(s.action, s.effects)
    requires |steps| > 0 ==> s.nodesBefore == steps[|steps| - 1].nodesAfter
    ensures Told(steps + [s])
  {
    hide Suits, FittingEffects;
  }

  lemma OneMoreCounted(steps: seq<Step>, s: Step)
    ensures EffectsIn(steps + [s]) == EffectsIn(steps) + |s.effects|
  {
    assert (steps + [s])[..|steps|] == steps;
  }

  /** A counter that has gone up by so many, modulo 64 bits when there is no limit. */
  predicate Counts(limits: Limits, before: nat, added: nat, after: nat) {
    after == Wrap(before + added) && (limits.maxEffects != 0 ==> after == before + added)
  }

  lemma CountOn(limits: Limits, before: nat, added: nat, middle: nat, more: nat, after: nat)
    requires Counts(limits, before, added, middle) && Counts(limits, middle, more, after)
    ensures Counts(limits, before, added + more, after)
  {
  }

  /** The runtime stands where the trace ends, with its counters at what the trace holds. */
  ghost predicate StandsAt(limits: Limits, steps: seq<Step>, time: nat, nodes: seq<Node>, actions: nat, effects: nat) {
    && actions == |steps| && Counts(limits, 0, EffectsIn(steps), effects)
    && if steps == [] then time == 0
       else time == steps[|steps| - 1].timeAfter && nodes == steps[|steps| - 1].nodesAfter
  }

  /** Recording a step that was due. */
  lemma StepRecorded(limits: Limits, steps: seq<Step>, time: nat, nodes: seq<Node>, actions: nat, count: nat, s: Step,
                     count': nat)
    requires Told(steps) && WithinLimits(limits, steps) && StandsAt(limits, steps, time, nodes, actions, count)
    requires s.timeBefore == time && s.nodesBefore == nodes && GoodTimes(s)
    requires Suits(nodes, s.action) && FittingEffects(s.action, s.effects)
    requires limits.maxActions != 0 ==> actions < limits.maxActions
    requires s.action.AdvanceTime? && limits.maxTicks != 0 ==> s.action.target <= limits.maxTicks
    requires Counts(limits, count, |s.effects|, count') && (limits.maxEffects != 0 ==> count' <= limits.maxEffects)
    ensures Told(steps + [s]) && WithinLimits(limits, steps + [s])
    ensures StandsAt(limits, steps + [s], s.timeAfter, s.nodesAfter, actions + 1, count')
  {
    hide Suits, FittingEffects, Told;
    OneMoreTold(steps, s);
    OneMoreCounted(steps, s);
    CountOn(limits, 0, EffectsIn(steps), count, |s.effects|, count');
  }

  /** Along a valid trace time never goes back, so neither do the effects of its steps. */
  lemma {:induction false} TraceIsChronological(version: nat, steps: seq<Step>, i: nat, j: nat)
    requires ValidTrace(version, steps) && i < j < |steps|
    ensures steps[i].timeAfter <= steps[j].timeBefore
    ensures forall a, b :: 0 <= a < |steps[i].effects| && 0 <= b < |steps[j].effects| ==>
              steps[i].effects[a].at <= steps[j].effects[b].at
  {
    hide ValidTrace, GoodNodes;
    FollowsBefore(version, steps, i);
    FollowsBefore(version, steps, j);
    if i + 1 < j {
      TraceIsChronological(version, steps, i, j - 1);
      FollowsBefore(version, steps, j - 1);
    }
  }

  lemma FollowsBefore(version: nat, steps: seq<Step>, j: nat)
    requires ValidTrace(version, steps) && j < |steps|
    ensures GoodStep(steps[j]) && (j > 0 ==> steps[j].timeBefore == steps[j - 1].timeAfter)
    ensures steps[j].timeBefore <= steps[j].timeAfter
  {
    hide GoodEffects, GoodNodes;
    assert Follows(version, steps[..j], steps[j]);
  }

  // ---------------------------------------------------------------- a node along the trace

  /** In the trace of an adapter that does as it is told, a node crashed by a step stays
      crashed until a restart of it: no step in between crashes it, delivers to it,
      forces its timer or hands it a request. */
  ghost predicate Obedient(steps: seq<Step>, node: nat) {
    && (forall i :: 0 <= i < |steps| && steps[i].action == Crash(node) ==> Seen(steps[i].nodesAfter, node, Crashed))
    && (forall i :: 0 <= i < |steps| && steps[i].action != Restart(node) && Seen(steps[i].nodesBefore, node, Crashed) ==>
          Seen(steps[i].nodesAfter, node, Crashed))
  }

  predicate Addresses(action: Action, node: nat) {
    match action
    case Deliver(_, link, _) => link.to == node
    case Timeout(n) => n == node
    case Crash(n) => n == node
    case Request(n, _) => n == node
    case _ => false
  }

  lemma {:induction false} CrashedStaysCrashed(steps: seq<Step>, node: nat, i: nat, j: nat)
    requires Told(steps) && Obedient(steps, node) && i < j < |steps|
    requires steps[i].action == Crash(node)
    requires forall k :: i < k < j ==> steps[k].action != Restart(node)
    ensures Seen(steps[j].nodesBefore, node, Crashed)
  {
    hide FittingEffects, Seen;
    if i + 1 < j {
      CrashedStaysCrashed(steps, node, i, j - 1);
    }
    assert steps[j].nodesBefore == steps[j - 1].nodesAfter;
  }

  /** So nothing reaches a crashed node before its restart. */
  lemma NothingReachesACrashedNode(steps: seq<Step>, node: nat, i: nat, j: nat)
    requires ValidTrace(CURRENT_VERSION, steps) && Told(steps) && Obedient(steps, node) && i < j < |steps|
    requires steps[i].action == Crash(node)
    requires forall k :: i < k < j ==> steps[k].action != Restart(node)
    ensures !Addresses(steps[j].action, node)
  {
    CrashedStaysCrashed(steps, node, i, j);
    assert GoodNodes(steps[j].nodesBefore) by {
      assert GoodStep(steps[j]);
    }
    assert Suits(steps[j].nodesBefore, steps[j].action);
    OneStatus(steps[j].nodesBefore, node);
  }

  lemma OneStatus(nodes: seq<Node>, node: nat)
    requires GoodNodes(nodes) && Seen(nodes, node, Crashed)
    ensures !Seen(nodes, node, Running)
  {
  }
}
