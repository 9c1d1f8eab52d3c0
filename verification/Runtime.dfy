/** The runtime: executes one concrete action at a time against an adapter, owns
    the network and the clock, and records a trace step per executed action. */
module Runtimes {
  import opened Arithmetic
  import opened Keys
  import opened Networks
  import opened Traces
  import opened Executions

  /** What the adapter answers to the calls one Execute makes; None is an error or a panic. */
  datatype Adapter = Adapter(capabilities: Option<Capabilities>, reply: Option<seq<Effect>>,
                             tick: nat -> Option<seq<Effect>>, observe: Option<Observation>)

  /** `clean`: the adapter left the runtime-owned fields empty. */
  datatype Observation = Observation(time: nat, nodes: seq<Node>, clean: bool)

  /** Refused leaves everything as it was; Stopped and BadStep end the execution. */
  datatype Outcome = Executed(step: Step) | Refused | Stopped | BadStep

  // ---------------------------------------------------------------- adapter effects

  function OutboundCount(effects: seq<Effect>): nat {
    if effects == [] then 0
    else OutboundCount(effects[..|effects| - 1]) + (if effects[|effects| - 1].kind.SendMessage? then 1 else 0)
  }

  /** A fresh outbound message, or a complete effect of another kind, at the current time. */
  predicate Acceptable(e: Effect, at: nat) {
    && e.at == at
    && if e.kind.SendMessage? then e.message.Some? && e.timer.None? && e.event.None? && Outbound(e.message.value)
       else GoodEffect(e)
  }

  ghost predicate AllAt(effects: seq<Effect>, at: nat) {
    forall i :: 0 <= i < |effects| ==> GoodEffect(effects[i]) && effects[i].at == at
  }

  ghost predicate AllAcceptable(effects: seq<Effect>, at: nat) {
    forall i :: 0 <= i < |effects| ==> Acceptable(effects[i], at)
  }

  /** The adapter's effects, with identities given to the outbound messages only. */
  ghost predicate SameButStamped(effects: seq<Effect>, concrete: seq<Effect>) {
    && |concrete| == |effects|
    && forall i :: 0 <= i < |effects| ==>
         && concrete[i].(message := None) == effects[i].(message := None)
         && concrete[i].message.Some? == effects[i].message.Some?
         && (effects[i].message.Some? ==> Unstamped(concrete[i].message.value) == Unstamped(effects[i].message.value))
  }

  method Prepare(effects: seq<Effect>, at: nat) returns (ok: bool)
    ensures ok <==> AllAcceptable(effects, at)
  {
    for i := 0 to |effects|
      invariant forall j :: 0 <= j < i ==> Acceptable(effects[j], at)
    {
      if !Acceptable(effects[i], at) {
        return false;
      }
    }
    ok := true;
  }

  lemma NothingStamped(at: nat)
    ensures SameButStamped([], []) && AllAt([], at)
  {
  }

  lemma NoOutbound(effects: seq<Effect>)
    ensures OutboundCount(effects[..0]) == 0
  {
  }

  lemma StampOneMore(effects: seq<Effect>, i: nat, result: seq<Effect>, effect: Effect, at: nat)
    requires i < |effects| && SameButStamped(effects[..i], result) && AllAt(result, at)
    requires SameButStamped([effects[i]], [effect]) && AllAt([effect], at)
    ensures SameButStamped(effects[..i + 1], result + [effect]) && AllAt(result + [effect], at)
  {
    assert [effect][0] == effect && [effects[i]][0] == effects[i];
    assert effects[..i + 1] == effects[..i] + [effects[i]];
  }

  method CountOutbound(effects: seq<Effect>) returns (count: nat)
    ensures count == OutboundCount(effects)
  {
    count := 0;
    for i := 0 to |effects|
      invariant count == OutboundCount(effects[..i])
    {
      assert effects[..i + 1][..i] == effects[..i];
      if effects[i].kind.SendMessage? {
        count := count + 1;
      }
    }
    assert effects[..|effects|] == effects;
  }

  lemma {:induction false} OutboundMonotone(effects: seq<Effect>, i: nat)
    requires i <= |effects|
    ensures OutboundCount(effects[..i]) <= OutboundCount(effects)
    ensures i < |effects| ==>
              (OutboundCount(effects[..i + 1]) == OutboundCount(effects[..i]) + (if effects[i].kind.SendMessage? then 1 else 0))
    decreases |effects| - i
  {
    if i < |effects| {
      assert effects[..i + 1][..i] == effects[..i];
      OutboundMonotone(effects, i + 1);
    } else {
      assert effects[..i] == effects;
    }
  }

  /** Only natural timeouts may come from ticks. */
  predicate AllNatural(effects: seq<Effect>) {
    forall i :: 0 <= i < |effects| && effects[i].kind.TimerFires? && effects[i].timer.Some? ==> effects[i].timer.value.source.Natural?
  }

  /** A forced timeout reports at least one timer, all forced and of this node. */
  predicate ForcedFor(effects: seq<Effect>, node: nat) {
    && (exists i :: 0 <= i < |effects| && effects[i].kind.TimerFires?)
    && (forall i :: 0 <= i < |effects| && effects[i].kind.TimerFires? && effects[i].timer.Some? ==>
          effects[i].timer.value.source.Forced? && effects[i].timer.value.node == node)
  }

  lemma TimersAreKept(effects: seq<Effect>, concrete: seq<Effect>, node: nat)
    requires SameButStamped(effects, concrete)
    ensures AllNatural(concrete) <==> AllNatural(effects)
    ensures ForcedFor(concrete, node) <==> ForcedFor(effects, node)
  {
    forall i | 0 <= i < |effects|
      ensures concrete[i].kind == effects[i].kind && concrete[i].timer == effects[i].timer
    {
      assert concrete[i].(message := None) == effects[i].(message := None);
    }
  }

  // ---------------------------------------------------------------- what an action does

  /** The part of the runtime that an action works on. */
  datatype Machine = Machine(net: Net, effectCount: nat, time: nat)

  ghost predicate OverBudget(limits: Limits, count: nat, queued: nat, effects: seq<Effect>) {
    || (limits.maxEffects != 0 && count + |effects| > limits.maxEffects)
    || (limits.maxQueued != 0 && queued + OutboundCount(effects) > limits.maxQueued)
  }

  predicate Sends(e: Effect) {
    e.kind.SendMessage? && e.message.Some?
  }

  /** The network after all outbound messages were registered in order; None when
      IDs or sequences run out on the way. */
  function AfterSending(net: Net, effects: seq<Effect>, at: nat): Option<Net>
    decreases |effects|
  {
    if effects == [] then Some(net)
    else
      var before, last := AfterSending(net, effects[..|effects| - 1], at), effects[|effects| - 1];
      if before.None? || !Sends(last) then before
      else if CanRegister(before.value, last.message.value, 0)
      then Some(AfterRegister(before.value, last.message.value, 0, at)) else None
  }

  /** Adapter effects are taken over within both budgets, when they honour the
      contract and identities are left; otherwise the execution ends. */
  ghost function Processed(limits: Limits, m: Machine, effects: seq<Effect>): Option<Machine> {
    var net := AfterSending(m.net, effects, m.time);
    if OverBudget(limits, m.effectCount, Total(m.net.queues), effects) || !AllAcceptable(effects, m.time) || net.None? then None
    else Some(Machine(net.value, Wrap(m.effectCount + |effects|), m.time))
  }

  ghost function Answered(limits: Limits, m: Machine, reply: Option<seq<Effect>>): Option<Machine> {
    if reply.None? then None else Processed(limits, m, reply.value)
  }

  /** Tick by tick; ticks may only report natural timeouts. */
  ghost function Ticked(limits: Limits, m: Machine, target: nat, tick: nat -> Option<seq<Effect>>): Option<Machine>
    decreases target - m.time
  {
    if m.time >= target then Some(m)
    else
      var reply := tick(m.time + 1);
      var next := Answered(limits, m.(time := m.time + 1), reply);
      if next.None? || !AllNatural(reply.value) then None else Ticked(limits, next.value, target, tick)
  }

  predicate Selects(net: Net, id: nat, link: Link, position: int) {
    position >= 0 && CanResolve(net, id, link, position)
  }

  /** None when the execution ends here. */
  ghost function Applied(limits: Limits, m: Machine, action: Action, adapter: Adapter): Option<Machine> {
    match action
    case Deliver(id, link, position) =>
      if Selects(m.net, id, link, position)
      then Answered(limits, m.(net := AfterRemove(m.net, link, position)), adapter.reply) else None
    case Drop(id, link, position) =>
      if Selects(m.net, id, link, position) then Some(m.(net := AfterRemove(m.net, link, position))) else None
    case Duplicate(id, link, position) =>
      if Selects(m.net, id, link, position) && CanDuplicateMessage(m.net, link, position)
      then Some(m.(net := AfterDuplicate(m.net, link, position, m.time))) else None
    case AdvanceTime(target) => if target <= m.time then None else Ticked(limits, m, target, adapter.tick)
    case Timeout(node) =>
      if adapter.reply.Some? && ForcedFor(adapter.reply.value, node) then Answered(limits, m, adapter.reply) else None
    case _ => Answered(limits, m, adapter.reply)
  }

  /** The action's target and the adapter's capabilities allow it. */
  predicate Permitted(net: Net, nodes: seq<Node>, time: nat, action: Action, able: Capabilities) {
    match action
    case AdvanceTime(target) => target > time
    case Deliver(id, link, position) =>
      Selects(net, id, link, position) && StatusOf(nodes, Queue(net, link)[position].message.to) == Some(Running)
    case Drop(id, link, position) => Selects(net, id, link, position)
    case Duplicate(id, link, position) => Selects(net, id, link, position)
    case Timeout(node) => able.forceTimeout && StatusOf(nodes, node) == Some(Running)
    case Crash(node) => able.crashRestart && StatusOf(nodes, node) == Some(Running)
    case Restart(node) => able.crashRestart && StatusOf(nodes, node) == Some(Crashed)
    case Request(node, value) => able.clientRequest && StatusOf(nodes, node) == Some(Running)
  }

  /** A permitted message action names the only message with its ID anywhere in the
      network, and one to be delivered is for an observed running node. */
  lemma PermittedNamesOneMessage(net: Net, nodes: seq<Node>, time: nat, action: Action, able: Capabilities)
    requires NetOk(net) && (action.Deliver? || action.Drop? || action.Duplicate?)
    requires Permitted(net, nodes, time, action, able)
    ensures 0 <= action.position < |Queue(net, action.link)| && Queue(net, action.link)[action.position].message.id == action.id
    ensures forall l, i :: 0 <= i < |Queue(net, l)| && Queue(net, l)[i].message.id == action.id ==>
              l == action.link && i == action.position
    ensures action.Deliver? ==> exists k :: 0 <= k < |nodes| && nodes[k].id == action.link.to && nodes[k].status == Running
  {
    var link, position := action.link, action.position;
    assert QueueOk(net.nextId, LastSequence(net, link), link, Queue(net, link));
    forall l, i | 0 <= i < |Queue(net, l)| && Queue(net, l)[i].message.id == action.id
      ensures l == link && i == position
    {
      assert l != link ==> DifferentIds(Queue(net, l), Queue(net, link));
    }
    if action.Deliver? {
      assert LinkOf(Queue(net, link)[position].message) == link;
      StatusIsObserved(nodes, link.to);
    }
  }

  lemma {:induction false} StatusIsObserved(nodes: seq<Node>, id: nat)
    ensures StatusOf(nodes, id).Some? ==> Seen(nodes, id, StatusOf(nodes, id).value)
    ensures StatusOf(nodes, id).None? ==> forall k :: 0 <= k < |nodes| ==> nodes[k].id != id
  {
    if nodes != [] && nodes[0].id != id {
      StatusIsObserved(nodes[1..], id);
      assert forall k :: 0 < k < |nodes| ==> nodes[k] == nodes[1..][k - 1];
      assert forall k :: 0 <= k < |nodes[1..]| ==> nodes[1..][k] == nodes[k + 1];
    }
  }

  lemma StatusMeansSeen(nodes: seq<Node>, id: nat, status: NodeStatus)
    requires GoodNodes(nodes)
    ensures StatusOf(nodes, id) == Some(status) <==> Seen(nodes, id, status)
  {
    StatusIsObserved(nodes, id);
  }

  /** validateBudget and validatePreconditions on values. */
  ghost predicate Admits(limits: Limits, net: Net, nodes: seq<Node>, time: nat, taken: nat, action: Action, able: Capabilities) {
    && !(limits.maxActions != 0 && taken >= limits.maxActions)
    && !(action.AdvanceTime? && limits.maxTicks != 0 && action.target > limits.maxTicks)
    && !(action.Duplicate? && limits.maxQueued != 0 && Total(net.queues) >= limits.maxQueued)
    && Permitted(net, nodes, time, action, able)
  }

  /** The two checks let through exactly the actions that are due. */
  lemma AdmitsWhatIsDue(limits: Limits, net: Net, nodes: seq<Node>, time: nat, taken: nat, action: Action, able: Capabilities)
    requires NetOk(net) && GoodNodes(nodes) && GoodAction(action)
    ensures Admits(limits, net, nodes, time, taken, action, able) <==> Due(limits, net, nodes, time, taken, action, able)
    ensures Due(limits, net, nodes, time, taken, action, able) ==> Suits(nodes, action)
  {
    hide NetOk, GoodNodes, Seen, Total;
    match action
    case Deliver(id, link, position) =>
      SelectsQueued(net, id, link, position);
      StatusMeansSeen(nodes, link.to, Running);
    case Drop(id, link, position) => SelectsQueued(net, id, link, position);
    case Duplicate(id, link, position) => SelectsQueued(net, id, link, position);
    case AdvanceTime(_) =>
    case Timeout(node) => StatusMeansSeen(nodes, node, Running);
    case Crash(node) => StatusMeansSeen(nodes, node, Running);
    case Restart(node) => StatusMeansSeen(nodes, node, Crashed);
    case Request(node, _) => StatusMeansSeen(nodes, node, Running);
  }

  lemma SelectsQueued(net: Net, id: nat, link: Link, position: int)
    requires NetOk(net) && GoodSelector(id, link, position)
    ensures Selects(net, id, link, position) <==> Queues(net, id, link, position)
    ensures Selects(net, id, link, position) ==> Queue(net, link)[position].message.to == link.to
  {
    assert QueueOk(net.nextId, LastSequence(net, link), link, Queue(net, link));
    assert Queues(net, id, link, position) ==> LinkOf(Queue(net, link)[position].message) == link;
  }

  lemma {:induction false} SendingStops(net: Net, effects: seq<Effect>, at: nat, i: nat)
    requires i <= |effects| && AfterSending(net, effects[..i], at).None?
    ensures AfterSending(net, effects, at).None?
    decreases |effects|
  {
    if i < |effects| {
      var init := effects[..|effects| - 1];
      assert init[..i] == effects[..i];
      SendingStops(net, init, at, i);
    } else {
      assert effects[..i] == effects;
    }
  }

  /** Enough IDs and enough sequences on every link for so many messages. */
  ghost predicate IdsLeft(net: Net, count: nat) {
    && (count > 0 ==> 0 < net.nextId && net.nextId + count <= TWO_64)
    && forall link :: LastSequence(net, link) + count <= MAX
  }

  /** Sending fails only when identities run out. */
  lemma {:induction false} EnoughIdsToSend(net: Net, effects: seq<Effect>, at: nat)
    requires NetOk(net) && AllAcceptable(effects, at) && IdsLeft(net, OutboundCount(effects))
    ensures AfterSending(net, effects, at).Some?
    ensures var sent := AfterSending(net, effects, at).value;
            && (sent.nextId == if net.nextId + OutboundCount(effects) == TWO_64 then 0 else net.nextId + OutboundCount(effects))
            && forall link :: LastSequence(sent, link) <= LastSequence(net, link) + OutboundCount(effects)
    decreases |effects|
  {
    if effects != [] {
      hide NetOk;
      var init, last := effects[..|effects| - 1], effects[|effects| - 1];
      assert forall i :: 0 <= i < |init| ==> init[i] == effects[i];
      EnoughIdsToSend(net, init, at);
      if last.kind.SendMessage? {
        var before := AfterSending(net, init, at).value;
        assert Acceptable(last, at);
        assert CanRegister(before, last.message.value, 0);
        forall link
          ensures LastSequence(AfterRegister(before, last.message.value, 0, at), link)
               <= LastSequence(net, link) + OutboundCount(effects)
        {
          RegisterFrame(before, last.message.value, 0, at, link);
        }
      }
    }
  }

  /** While identities last, acceptable effects are taken over exactly when no limit is
      passed: the last effect and the last place in the queues may still be used. */
  lemma TakenOverWhenItFits(limits: Limits, m: Machine, effects: seq<Effect>)
    requires NetOk(m.net) && AllAcceptable(effects, m.time) && IdsLeft(m.net, OutboundCount(effects))
    ensures Processed(limits, m, effects).Some?
        <==> && (limits.maxEffects == 0 || m.effectCount + |effects| <= limits.maxEffects)
             && (limits.maxQueued == 0 || Total(m.net.queues) + OutboundCount(effects) <= limits.maxQueued)
  {
    hide NetOk, AllAcceptable, IdsLeft, AfterSending, OutboundCount, Total;
    EnoughIdsToSend(m.net, effects, m.time);
  }

  // ---------------------------------------------------------------- the runtime

  class Runtime {
    const limits: Limits
    const network: Network
    const trace: Trace
    var time: nat
    var nodes: seq<Node>
    var actionCount: nat
    var effectCount: nat
    var initialized: bool
    var terminated: bool

    /** What holds between any two calls. */
    ghost predicate Valid()
      reads this, network, trace
    {
      && trace.version == CURRENT_VERSION && ValidTrace(trace.version, trace.steps)
      && NetOk(network.View())
      && WithinBudgets()
      && Told(trace.steps) && WithinLimits(limits, trace.steps)
      && (initialized && !terminated ==> AtTraceEnd())
    }

    ghost predicate WithinBudgets()
      reads this, network
    {
      && limits.maxEffects < TWO_64 && effectCount < TWO_64
      && (limits.maxEffects != 0 ==> effectCount <= limits.maxEffects)
      && (limits.maxQueued != 0 ==> Total(network.queues) <= limits.maxQueued)
    }

    ghost predicate AtTraceEnd()
      reads this, trace
    {
      GoodNodes(nodes) && StandsAt(limits, trace.steps, time, nodes, actionCount, effectCount)
    }

    function Now(): Machine
      reads this, network
    {
      Machine(network.View(), effectCount, time)
    }

    constructor (runLimits: Limits, id: string, seed: int)
      requires runLimits.maxEffects < TWO_64
      ensures Valid() && limits == runLimits && !initialized && fresh(network) && fresh(trace)
    {
      limits := runLimits;
      network := new Network();
      trace := new Trace(id, seed);
      time, nodes, actionCount, effectCount := 0, [], 0, 0;
      initialized, terminated := false, false;
    }

    /** Validates adapter effects and gives outbound messages their identity. */
    method ProcessAdapterEffects(effects: seq<Effect>, at: nat) returns (concrete: Option<seq<Effect>>)
      requires NetOk(network.View()) && WithinBudgets() && at == time
      modifies network, this`effectCount
      ensures NetOk(network.View()) && WithinBudgets()
      ensures Extends(old(network.View()), network.View())
      ensures concrete.Some? <==> Processed(limits, old(Now()), effects).Some?
      ensures concrete.Some? ==> Now() == Processed(limits, old(Now()), effects).value
      ensures concrete.Some? ==> SameButStamped(effects, concrete.value) && AllAt(concrete.value, at)
      ensures concrete.Some? ==> |concrete.value| == |effects| && Counts(limits, old(effectCount), |effects|, effectCount)
      ensures concrete.Some? ==> Total(network.queues) == old(Total(network.queues)) + OutboundCount(effects)
    {
      hide NetOk, Extends, SameButStamped, AllAt, AfterSending, OutboundCount, Total;
      ExtendsItself(network.View());
      if limits.maxEffects != 0 && |effects| > Wrap(limits.maxEffects - effectCount) {
        return None;
      }
      var outbound := CountOutbound(effects);
      var queued := network.Len();
      if limits.maxQueued != 0 && queued + outbound > limits.maxQueued {
        return None;
      }
      var ok := Prepare(effects, at);
      if !ok {
        return None;
      }
      concrete := RegisterAll(effects, at);
      if concrete.Some? {
        effectCount := Wrap(effectCount + |effects|);
      }
    }

    method RegisterAll(effects: seq<Effect>, at: nat) returns (concrete: Option<seq<Effect>>)
      requires NetOk(network.View()) && AllAcceptable(effects, at)
      modifies network
      ensures NetOk(network.View()) && Extends(old(network.View()), network.View())
      ensures Total(network.queues) <= old(Total(network.queues)) + OutboundCount(effects)
      ensures concrete.Some? ==> SameButStamped(effects, concrete.value) && AllAt(concrete.value, at)
      ensures concrete.Some? ==> |concrete.value| == |effects|
      ensures concrete.Some? ==> Total(network.queues) == old(Total(network.queues)) + OutboundCount(effects)
      ensures concrete.Some? <==> AfterSending(old(network.View()), effects, at).Some?
      ensures concrete.Some? ==> network.View() == AfterSending(old(network.View()), effects, at).value
    {
      hide NetOk, Extends, SameButStamped, AllAt, OutboundCount, CanRegister, AfterRegister;
      var result := [];
      NothingStamped(at);
      ExtendsItself(network.View());
      NoOutbound(effects);
      for i := 0 to |effects|
        invariant NetOk(network.View()) && Extends(old(network.View()), network.View())
        invariant Total(network.queues) == old(Total(network.queues)) + OutboundCount(effects[..i])
        invariant SameButStamped(effects[..i], result) && AllAt(result, at) && |result| == i
        invariant AfterSending(old(network.View()), effects[..i], at) == Some(network.View())
      {
        OutboundMonotone(effects, i);
        assert effects[..i + 1][..i] == effects[..i];
        ghost var before := network.View();
        var effect := RegisterOne(effects[i], at);
        ExtendsTransitive(old(network.View()), before, network.View());
        if effect.None? {
          SendingStops(old(network.View()), effects, at, i + 1);
          return None;
        }
        StampOneMore(effects, i, result, effect.value, at);
        result := result + [effect.value];
      }
      assert effects[..|effects|] == effects;
      concrete := Some(result);
    }

    method RegisterOne(effect: Effect, at: nat) returns (concrete: Option<Effect>)
      requires NetOk(network.View()) && Acceptable(effect, at)
      modifies network
      ensures NetOk(network.View()) && Extends(old(network.View()), network.View())
      ensures concrete.None? ==> network.View() == old(network.View())
      ensures concrete.Some? <==> !Sends(effect) || CanRegister(old(network.View()), effect.message.value, 0)
      ensures concrete.Some? ==> network.View() == if Sends(effect) then AfterRegister(old(network.View()), effect.message.value, 0, at)
                                                   else old(network.View())
      ensures concrete.Some? ==> SameButStamped([effect], [concrete.value]) && AllAt([concrete.value], at)
      ensures concrete.Some? ==> Total(network.queues) == old(Total(network.queues)) + if effect.kind.SendMessage? then 1 else 0
    {
      if !effect.kind.SendMessage? {
        return Some(effect);
      }
      ghost var before := network.View();
      var message := network.Register(effect.message.value, 0, at);
      if message.None? {
        return None;
      }
      RegisterKeepsOk(before, effect.message.value, 0, at);
      RegisterExtends(before, effect.message.value, 0, at);
      TotalOfRegister(before, effect.message.value, 0, at);
      concrete := Some(effect.(message := message));
    }

    // -------------------------------------------------------------- clock

    /** One adapter tick per time unit; what each tick causes is handled before the next. */
    method Advance(target: nat, tick: nat -> Option<seq<Effect>>) returns (effects: Option<seq<Effect>>)
      requires NetOk(network.View()) && WithinBudgets()
      modifies network, this`effectCount, this`time
      ensures NetOk(network.View()) && WithinBudgets() && Extends(old(network.View()), network.View())
      ensures effects.Some? <==> target > old(time) && Ticked(limits, old(Now()), target, tick).Some?
      ensures effects.Some? ==> Now() == Ticked(limits, old(Now()), target, tick).value
      ensures effects.Some? ==> old(time) < time == target && GoodEffects(effects.value, old(time), time)
      ensures effects.Some? ==> FittingEffects(AdvanceTime(target), effects.value) && Counts(limits, old(effectCount), |effects.value|, effectCount)
    {
      hide NetOk, Extends, Processed, AllNatural, SameButStamped, AllAt, GoodEffects, FittingEffects;
      NoEffects(time);
      ExtendsItself(network.View());
      if target <= time {
        return None;
      }
      var all := [];
      NothingFired(target);
      while time < target
        invariant NetOk(network.View()) && WithinBudgets() && Extends(old(network.View()), network.View())
        invariant old(time) <= time <= target && GoodEffects(all, old(time), time)
        invariant FittingEffects(AdvanceTime(target), all) && Counts(limits, old(effectCount), |all|, effectCount)
        invariant Ticked(limits, Now(), target, tick) == Ticked(limits, old(Now()), target, tick)
        decreases target - time
      {
        time := time + 1;
        var current := tick(time);
        if current.None? {
          return None;
        }
        ghost var before, counted := network.View(), effectCount;
        var concrete := ProcessAdapterEffects(current.value, time);
        ExtendsTransitive(old(network.View()), before, network.View());
        if concrete.None? {
          return None;
        }
        TimersAreKept(current.value, concrete.value, 0);
        if !AllNatural(concrete.value) {
          return None;
        }
        JoinEffects(all, concrete.value, old(time), time);
        JoinNatural(all, concrete.value, target, time);
        CountOn(limits, old(effectCount), |all|, counted, |concrete.value|, effectCount);
        all := all + concrete.value;
      }
      effects := Some(all);
    }

    // -------------------------------------------------------------- one action

    /** validateBudget. */
    ghost predicate Affordable(action: Action)
      reads this, network
    {
      && !(limits.maxActions != 0 && actionCount >= limits.maxActions)
      && !(action.AdvanceTime? && limits.maxTicks != 0 && action.target > limits.maxTicks)
      && !(action.Duplicate? && limits.maxQueued != 0 && Total(network.queues) >= limits.maxQueued)
    }

    /** The actions Execute does not refuse. */
    ghost predicate Admissible(action: Action, adapter: Adapter)
      reads this, network
    {
      && initialized && !terminated && GoodAction(action) && Affordable(action)
      && (adapter.capabilities.Some? ==> Permitted(network.View(), nodes, time, action, adapter.capabilities.value))
    }

    method CheckBudget(action: Action) returns (ok: bool)
      ensures ok <==> Affordable(action)
    {
      if limits.maxActions != 0 && actionCount >= limits.maxActions {
        return false;
      }
      if action.AdvanceTime? && limits.maxTicks != 0 && action.target > limits.maxTicks {
        return false;
      }
      if action.Duplicate? && limits.maxQueued != 0 {
        var queued := network.Len();
        return queued < limits.maxQueued;
      }
      ok := true;
    }

    /** validatePreconditions, once the capabilities have been read. */
    method CheckPreconditions(action: Action, able: Capabilities) returns (ok: bool)
      ensures ok <==> Permitted(network.View(), nodes, time, action, able)
    {
      match action
      case AdvanceTime(target) => ok := target > time;
      case Deliver(id, link, position) =>
        var selected := network.Resolve(id, link, position);
        ok := selected.Some? && StatusOf(nodes, selected.value.message.to) == Some(Running);
      case Drop(id, link, position) =>
        var selected := network.Resolve(id, link, position);
        ok := selected.Some?;
      case Duplicate(id, link, position) =>
        var selected := network.Resolve(id, link, position);
        ok := selected.Some?;
      case Timeout(node) => ok := able.forceTimeout && StatusOf(nodes, node) == Some(Running);
      case Crash(node) => ok := able.crashRestart && StatusOf(nodes, node) == Some(Running);
      case Restart(node) => ok := able.crashRestart && StatusOf(nodes, node) == Some(Crashed);
      case Request(node, value) => ok := able.clientRequest && StatusOf(nodes, node) == Some(Running);
    }

    /** Deliver: the adapter consumes the message first, then it leaves its queue. */
    method ApplyDeliver(id: nat, link: Link, position: int, reply: Option<seq<Effect>>) returns (effects: Option<seq<Effect>>)
      requires NetOk(network.View()) && WithinBudgets()
      modifies network, this`effectCount
      ensures NetOk(network.View()) && WithinBudgets()
      ensures effects.Some? ==> AllAt(effects.value, time) && Counts(limits, old(effectCount), |effects.value|, effectCount)
      ensures effects.Some? <==> Selects(old(network.View()), id, link, position)
                                 && Answered(limits, old(Now()).(net := AfterRemove(old(network.View()), link, position)), reply).Some?
      ensures effects.Some? ==>
                && Now() == Answered(limits, old(Now()).(net := AfterRemove(old(network.View()), link, position)), reply).value
                && Extends(AfterRemove(old(network.View()), link, position), network.View())
    {
      hide NetOk, AfterRemove, Extends, AllAt, Processed;
      var selected := network.Resolve(id, link, position);
      if selected.None? || reply.None? {
        return None;
      }
      RemoveKeepsOk(network.View(), link, position);
      TotalOfRemove(network.View(), link, position);
      var removed := network.Remove(id, link, position);
      effects := ProcessAdapterEffects(reply.value, time);
    }

    method ApplyDrop(id: nat, link: Link, position: int) returns (ok: bool)
      requires NetOk(network.View()) && WithinBudgets()
      modifies network`queues
      ensures NetOk(network.View()) && WithinBudgets()
      ensures ok <==> Selects(old(network.View()), id, link, position)
      ensures ok ==> network.View() == AfterRemove(old(network.View()), link, position)
    {
      ghost var before := network.View();
      var removed := network.Remove(id, link, position);
      if removed.Some? {
        RemoveKeepsOk(before, link, position);
        TotalOfRemove(before, link, position);
      }
      ok := removed.Some?;
    }

    method ApplyDuplicate(id: nat, link: Link, position: int) returns (ok: bool)
      requires NetOk(network.View()) && WithinBudgets()
      requires limits.maxQueued != 0 ==> Total(network.queues) < limits.maxQueued
      modifies network
      ensures NetOk(network.View()) && WithinBudgets()
      ensures ok <==> Selects(old(network.View()), id, link, position) && CanDuplicateMessage(old(network.View()), link, position)
      ensures ok ==> network.View() == AfterDuplicate(old(network.View()), link, position, time)
    {
      ghost var before := network.View();
      var copied := network.Duplicate(id, link, position, time);
      if copied.Some? {
        var original := Queue(before, link)[position].message;
        RegisterKeepsOk(before, Unstamped(original), original.id, time);
        TotalOfRegister(before, Unstamped(original), original.id, time);
      }
      ok := copied.Some?;
    }

    method ApplyAction(action: Action, adapter: Adapter) returns (effects: Option<seq<Effect>>)
      requires NetOk(network.View()) && WithinBudgets()
      requires action.Duplicate? && limits.maxQueued != 0 ==> Total(network.queues) < limits.maxQueued
      modifies network, this`effectCount, this`time
      ensures NetOk(network.View()) && WithinBudgets()
      ensures effects.Some? <==> Applied(limits, old(Now()), action, adapter).Some?
      ensures effects.Some? ==> Now() == Applied(limits, old(Now()), action, adapter).value
      ensures effects.Some? ==> NetworkAfter(old(network.View()), action, old(time), network.View())
      ensures effects.Some? ==> GoodEffects(effects.value, old(time), time)
      ensures effects.Some? ==> if action.AdvanceTime? then old(time) < time == action.target else time == old(time)
      ensures effects.Some? ==> FittingEffects(action, effects.value) && Counts(limits, old(effectCount), |effects.value|, effectCount)
    {
      hide NetOk, CanResolve, AfterRemove, CanDuplicateMessage, AfterDuplicate, Extends, Processed, Ticked, ForcedFor, Total;
      match action
      case Deliver(id, link, position) =>
        effects := ApplyDeliver(id, link, position, adapter.reply);
      case Drop(id, link, position) =>
        var ok := ApplyDrop(id, link, position);
        effects := if ok then Some([]) else None;
      case Duplicate(id, link, position) =>
        var ok := ApplyDuplicate(id, link, position);
        effects := if ok then Some([]) else None;
      case AdvanceTime(target) =>
        effects := Advance(target, adapter.tick);
      case Timeout(node) =>
        effects := ApplyTimeout(node, adapter.reply);
      case _ =>
        effects := ApplyReply(adapter.reply);
    }

    method ApplyTimeout(node: nat, reply: Option<seq<Effect>>) returns (effects: Option<seq<Effect>>)
      requires NetOk(network.View()) && WithinBudgets()
      modifies network, this`effectCount
      ensures NetOk(network.View()) && WithinBudgets()
      ensures effects.Some? <==> reply.Some? && ForcedFor(reply.value, node) && Answered(limits, old(Now()), reply).Some?
      ensures effects.Some? ==> Now() == Answered(limits, old(Now()), reply).value
      ensures effects.Some? ==> AllAt(effects.value, time) && Extends(old(network.View()), network.View())
      ensures effects.Some? ==> FittingEffects(Timeout(node), effects.value) && Counts(limits, old(effectCount), |effects.value|, effectCount)
    {
      hide NetOk, Extends, Processed, SameButStamped, AllAt, ForcedFor, FittingEffects;
      if reply.None? {
        return None;
      }
      effects := ProcessAdapterEffects(reply.value, time);
      if effects.Some? {
        TimersAreKept(reply.value, effects.value, node);
        if !ForcedFor(effects.value, node) {
          return None;
        }
        ForcedFits(effects.value, node, time);
      }
    }

    /** Crash, Restart and Request: the adapter acts, its effects are processed. */
    method ApplyReply(reply: Option<seq<Effect>>) returns (effects: Option<seq<Effect>>)
      requires NetOk(network.View()) && WithinBudgets()
      modifies network, this`effectCount
      ensures NetOk(network.View()) && WithinBudgets() && Extends(old(network.View()), network.View())
      ensures effects.Some? <==> Answered(limits, old(Now()), reply).Some?
      ensures effects.Some? ==> Now() == Answered(limits, old(Now()), reply).value
      ensures effects.Some? ==> AllAt(effects.value, time) && Counts(limits, old(effectCount), |effects.value|, effectCount)
    {
      hide NetOk, Extends, Processed, AllAt;
      effects := None;
      ExtendsItself(network.View());
      if reply.Some? {
        effects := ProcessAdapterEffects(reply.value, time);
      }
    }

    /** collectObservation; the runtime's own messages are always valid, so only the
        adapter's part can be refused. */
    method Observe(adapter: Adapter) returns (observed: Option<seq<Node>>)
      ensures observed.Some? <==> Observable(adapter, time)
      ensures observed.Some? ==> observed.value == adapter.observe.value.nodes
    {
      if adapter.observe.None? || adapter.observe.value.time != time || !adapter.observe.value.clean {
        return None;
      }
      var ok := ValidateNodes(adapter.observe.value.nodes);
      observed := if ok then Some(adapter.observe.value.nodes) else None;
    }

    method Reset(adapter: Adapter) returns (ok: bool)
      requires Valid()
      modifies this`time, this`nodes, this`actionCount, this`effectCount, this`initialized, this`terminated, network, trace
      ensures Valid() && trace.steps == [] && network.View() == EmptyNet
      ensures ok ==> initialized && !terminated && adapter.observe.Some? && nodes == adapter.observe.value.nodes
      ensures !ok ==> terminated
    {
      network.Reset();
      trace.Clear();
      time, actionCount, effectCount := 0, 0, 0;
      initialized, terminated := true, false;
      EmptyNetOk();
      var observed := Observe(adapter);
      if adapter.reply.None? || observed.None? {
        terminated := true;
        return false;
      }
      nodes := observed.value;
      ok := true;
    }

    /** Executes one action. It is executed, stopped or rejected by the trace exactly
        under the stated conditions; the trace rejects a step only when one of its
        observations has no nodes, and any other ending leaves the trace as it was. */
    method Execute(action: Action, adapter: Adapter) returns (outcome: Outcome)
      requires Valid()
      modifies this`time, this`nodes, this`actionCount, this`effectCount, this`terminated, network, trace
      ensures Valid()
      ensures outcome.Refused? <==> !old(Admissible(action, adapter))
      ensures old(initialized && !terminated) && GoodAction(action) && adapter.capabilities.Some? ==>
                (outcome.Refused?
                 <==> !old(Due(limits, network.View(), nodes, time, |trace.steps|, action, adapter.capabilities.value)))
      ensures outcome.Stopped? <==> old(Admissible(action, adapter)) && !Completes(limits, old(Now()), action, adapter)
      ensures outcome.BadStep? <==>
                && old(Admissible(action, adapter)) && Completes(limits, old(Now()), action, adapter)
                && (old(nodes) == [] || adapter.observe.value.nodes == [])
      ensures outcome.Executed? ==>
                && trace.steps == old(trace.steps) + [outcome.step]
                && outcome.step.action == action && outcome.step.timeBefore == old(time) && outcome.step.timeAfter == time
                && outcome.step.nodesBefore == old(nodes) && outcome.step.nodesAfter == nodes == adapter.observe.value.nodes
                && Some(Now()) == Applied(limits, old(Now()), action, adapter)
                && NetworkAfter(old(network.View()), action, old(time), network.View())
                && actionCount == old(actionCount) + 1 && terminated == old(terminated)
      ensures !outcome.Executed? ==> trace.steps == old(trace.steps)
      ensures outcome.Refused? ==> Now() == old(Now()) && terminated == old(terminated)
      ensures outcome.Stopped? || outcome.BadStep? ==> terminated
    {
      if !initialized || terminated || !GoodAction(action) {
        return Refused;
      }
      hide ValidTrace, NetOk, NetworkAfter, GoodEffects, GoodNodes, Applied, Permitted, Told, WithinLimits, StandsAt, Due, Suits;
      var affordable := CheckBudget(action);
      if !affordable {
        return Refused;
      }
      if adapter.capabilities.None? {
        terminated := true;
        return Stopped;
      }
      var allowed := CheckPreconditions(action, adapter.capabilities.value);
      assert Admits(limits, network.View(), nodes, time, actionCount, action, adapter.capabilities.value)
        <==> Affordable(action) && allowed;
      AdmitsWhatIsDue(limits, network.View(), nodes, time, actionCount, action, adapter.capabilities.value);
      if !allowed {
        return Refused;
      }
      outcome := Perform(action, adapter);
    }

    /** The action has been admitted: apply, observe, record. */
    method Perform(action: Action, adapter: Adapter) returns (outcome: Outcome)
      requires Valid() && initialized && !terminated && GoodAction(action) && adapter.capabilities.Some?
      requires Affordable(action) && Suits(nodes, action)
      modifies this`time, this`nodes, this`actionCount, this`effectCount, this`terminated, network, trace
      ensures Valid() && !outcome.Refused?
      ensures outcome.Stopped? <==> !Completes(limits, old(Now()), action, adapter)
      ensures outcome.BadStep? <==> Completes(limits, old(Now()), action, adapter)
                                    && (old(nodes) == [] || adapter.observe.value.nodes == [])
      ensures outcome.Executed? ==>
                && trace.steps == old(trace.steps) + [outcome.step]
                && outcome.step.action == action && outcome.step.timeBefore == old(time) && outcome.step.timeAfter == time
                && outcome.step.nodesBefore == old(nodes) && outcome.step.nodesAfter == nodes == adapter.observe.value.nodes
                && Some(Now()) == Applied(limits, old(Now()), action, adapter)
                && NetworkAfter(old(network.View()), action, old(time), network.View())
                && actionCount == old(actionCount) + 1 && !terminated
      ensures !outcome.Executed? ==> trace.steps == old(trace.steps)
      ensures outcome.Stopped? || outcome.BadStep? ==> terminated
    {
      hide ValidTrace, NetOk, NetworkAfter, GoodEffects, GoodNodes, Applied, Told, WithinLimits, Suits, FittingEffects, Counts;
      var nodesBefore, timeBefore := nodes, time;
      ghost var counted := effectCount;
      var effects := ApplyAction(action, adapter);
      if effects.None? {
        terminated := true;
        return Stopped;
      }
      var observed := Observe(adapter);
      if observed.None? {
        terminated := true;
        return Stopped;
      }
      var step := Step(|trace.steps|, timeBefore, time, action, effects.value, nodesBefore, observed.value);
      AppendKeepsValid(trace.version, trace.steps, step);
      StepRecorded(limits, trace.steps, timeBefore, nodesBefore, actionCount, counted, step, effectCount);
      var appended := trace.Append(step);
      if !appended {
        terminated := true;
        return BadStep;
      }
      actionCount := actionCount + 1;
      nodes := observed.value;
      outcome := Executed(step);
    }
  }

  /** The adapter's observation is at the right time, clean and well formed. */
  predicate Observable(adapter: Adapter, now: nat) {
    && adapter.observe.Some? && adapter.observe.value.time == now && adapter.observe.value.clean
    && GoodNodes(adapter.observe.value.nodes)
  }

  /** An admitted action runs to its end. */
  ghost predicate Completes(limits: Limits, m: Machine, action: Action, adapter: Adapter) {
    && adapter.capabilities.Some?
    && Applied(limits, m, action, adapter).Some?
    && Observable(adapter, Applied(limits, m, action, adapter).value.time)
  }

  /** What a completed action has done to the network: only its own message moved,
      and everything sent meanwhile joined the tails. */
  ghost predicate NetworkAfter(before: Net, action: Action, at: nat, after: Net) {
    match action
    case Deliver(id, link, position) =>
      Selects(before, id, link, position) && Extends(AfterRemove(before, link, position), after)
    case Drop(id, link, position) =>
      Selects(before, id, link, position) && after == AfterRemove(before, link, position)
    case Duplicate(id, link, position) =>
      Selects(before, id, link, position) && after == AfterDuplicate(before, link, position, at)
    case _ => Extends(before, after)
  }

  lemma NoEffects(at: nat)
    ensures GoodEffects([], at, at)
  {
  }

  lemma NothingFired(target: nat)
    ensures FittingEffects(AdvanceTime(target), [])
  {
  }

  lemma JoinNatural(before: seq<Effect>, more: seq<Effect>, target: nat, now: nat)
    requires FittingEffects(AdvanceTime(target), before) && AllNatural(more) && AllAt(more, now)
    ensures FittingEffects(AdvanceTime(target), before + more)
  {
  }

  lemma ForcedFits(effects: seq<Effect>, node: nat, at: nat)
    requires ForcedFor(effects, node) && AllAt(effects, at)
    ensures FittingEffects(Timeout(node), effects)
  {
    var i :| 0 <= i < |effects| && effects[i].kind.TimerFires?;
    assert GoodEffect(effects[i]) && effects[i].timer.Some?;
  }

  function StatusOf(nodes: seq<Node>, id: nat): Option<NodeStatus> {
    if nodes == [] then None else if nodes[0].id == id then Some(nodes[0].status) else StatusOf(nodes[1..], id)
  }

  lemma JoinEffects(before: seq<Effect>, more: seq<Effect>, from: nat, now: nat)
    requires now > 0 && from < now && GoodEffects(before, from, now - 1) && AllAt(more, now)
    ensures GoodEffects(before + more, from, now)
  {
  }

  lemma EmptyNetOk()
    ensures NetOk(EmptyNet) && Total(EmptyNet.queues) == 0
  {
  }
}
