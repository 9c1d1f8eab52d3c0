/** Concrete actions, effects and the step records a trace is made of. */
module Traces {
  import opened Keys
  import opened Networks

  datatype Action =
    | Deliver(id: nat, link: Link, position: int)
    | Drop(id: nat, link: Link, position: int)
    | Duplicate(id: nat, link: Link, position: int)
    | AdvanceTime(target: nat)
    | Timeout(node: nat)
    | Crash(node: nat)
    | Restart(node: nat)
    | Request(node: nat, value: string)

  predicate GoodSelector(id: nat, link: Link, position: int) {
    id != 0 && link.from != 0 && link.to != 0 && position >= 0
  }

  predicate GoodAction(a: Action) {
    match a
    case Deliver(id, link, position) => GoodSelector(id, link, position)
    case Drop(id, link, position) => GoodSelector(id, link, position)
    case Duplicate(id, link, position) => GoodSelector(id, link, position)
    case AdvanceTime(target) => target != 0
    case Timeout(node) => node != 0
    case Crash(node) => node != 0
    case Restart(node) => node != 0
    case Request(node, value) => node != 0 && value != ""
  }

  datatype Source = Natural | Forced | UnknownSource

  datatype TimerFired = TimerFired(node: nat, epoch: nat, source: Source)

  /** The parameters only matter for whether they can be serialized. */
  datatype ModelEvent = ModelEvent(name: string, serializable: bool)

  datatype EffectKind = SendMessage | TimerFires | ModelEvents | UnknownKind

  datatype Effect = Effect(at: nat, kind: EffectKind, message: Option<Message>, timer: Option<TimerFired>,
                           event: Option<ModelEvent>)

  function Payloads(e: Effect): nat {
    (if e.message.Some? then 1 else 0) + (if e.timer.Some? then 1 else 0) + (if e.event.Some? then 1 else 0)
  }

  predicate GoodEffect(e: Effect) {
    && Payloads(e) == 1
    && match e.kind
       case SendMessage => e.message.Some? && Registered(e.message.value)
       case TimerFires => e.timer.Some? && e.timer.value.node != 0 && e.timer.value.epoch != 0 && !e.timer.value.source.UnknownSource?
       case ModelEvents => e.event.Some? && e.event.value.name != "" && e.event.value.serializable
       case UnknownKind => false
  }

  datatype NodeStatus = Running | Crashed | UnknownStatus

  datatype Node = Node(id: nat, epoch: nat, status: NodeStatus, serializable: bool)

  predicate GoodNode(n: Node) {
    n.id != 0 && n.epoch != 0 && !n.status.UnknownStatus? && n.serializable
  }

  predicate GoodNodes(nodes: seq<Node>) {
    && (forall i :: 0 <= i < |nodes| ==> GoodNode(nodes[i]))
    && (forall i, j :: 0 <= i < j < |nodes| ==> nodes[i].id != nodes[j].id)
  }

  datatype Step = Step(index: nat, timeBefore: nat, timeAfter: nat, action: Action, effects: seq<Effect>,
                       nodesBefore: seq<Node>, nodesAfter: seq<Node>)

  /** The action and the clock agree. */
  predicate GoodTimes(s: Step) {
    if s.action.AdvanceTime? then s.timeBefore < s.timeAfter == s.action.target else s.timeAfter == s.timeBefore
  }

  predicate GoodEffects(effects: seq<Effect>, from: nat, to: nat) {
    && (forall i :: 0 <= i < |effects| ==> GoodEffect(effects[i]) && from <= effects[i].at <= to)
    && (forall i, j :: 0 <= i < j < |effects| ==> effects[i].at <= effects[j].at)
  }

  predicate GoodStep(s: Step) {
    && GoodAction(s.action) && GoodTimes(s)
    && GoodEffects(s.effects, s.timeBefore, s.timeAfter)
    && GoodNodes(s.nodesBefore) && GoodNodes(s.nodesAfter)
  }

  const CURRENT_VERSION: nat := 4

  /** From version 2 on a step has node snapshots before and after. */
  predicate Follows(version: nat, steps: seq<Step>, s: Step) {
    && (version >= 2 ==> |s.nodesBefore| > 0 && |s.nodesAfter| > 0)
    && s.index == |steps|
    && (|steps| > 0 ==> s.timeBefore == steps[|steps| - 1].timeAfter)
  }

  ghost predicate ValidTrace(version: nat, steps: seq<Step>) {
    forall i :: 0 <= i < |steps| ==> GoodStep(steps[i]) && Follows(version, steps[..i], steps[i])
  }

  lemma AppendKeepsValid(version: nat, steps: seq<Step>, s: Step)
    requires ValidTrace(version, steps)
    ensures ValidTrace(version, steps + [s]) <==> GoodStep(s) && Follows(version, steps, s)
  {
    var longer := steps + [s];
    assert forall i :: 0 <= i < |steps| ==> longer[i] == steps[i] && longer[..i] == steps[..i];
    assert longer[..|steps|] == steps && longer[|steps|] == s;
  }

  // ---------------------------------------------------------------- the checking loops

  /** The loop compares neighbours; that is enough for the whole list. */
  method ValidateEffects(effects: seq<Effect>, from: nat, to: nat) returns (ok: bool)
    ensures ok <==> GoodEffects(effects, from, to)
  {
    for i := 0 to |effects|
      invariant GoodEffects(effects[..i], from, to)
    {
      var before := effects[..i];
      assert effects[..i + 1] == before + [effects[i]];
      if effects[i].at < from || effects[i].at > to || !GoodEffect(effects[i]) {
        return false;
      }
      if i > 0 && effects[i].at < effects[i - 1].at {
        return false;
      }
      assert i > 0 ==> before[i - 1] == effects[i - 1];
    }
    assert effects[..|effects|] == effects;
    ok := true;
  }

  method ValidateNodes(nodes: seq<Node>) returns (ok: bool)
    ensures ok <==> GoodNodes(nodes)
  {
    var seen: set<nat> := {};
    for i := 0 to |nodes|
      invariant GoodNodes(nodes[..i])
      invariant forall x :: x in seen <==> exists j :: 0 <= j < i && nodes[j].id == x
    {
      assert nodes[..i + 1] == nodes[..i] + [nodes[i]];
      if !GoodNode(nodes[i]) || nodes[i].id in seen {
        return false;
      }
      seen := seen + {nodes[i].id};
    }
    assert nodes[..|nodes|] == nodes;
    ok := true;
  }

  method ValidateStep(s: Step) returns (ok: bool)
    ensures ok <==> GoodStep(s)
  {
    if s.timeAfter < s.timeBefore || !GoodAction(s.action) || !GoodTimes(s) {
      return false;
    }
    ok := ValidateEffects(s.effects, s.timeBefore, s.timeAfter);
    if !ok { return; }
    ok := ValidateNodes(s.nodesBefore);
    if !ok { return; }
    ok := ValidateNodes(s.nodesAfter);
  }

  class Trace {
    const version: nat
    const executionId: string
    const seed: int
    var steps: seq<Step>

    constructor (id: string, executionSeed: int)
      ensures version == CURRENT_VERSION && executionId == id && seed == executionSeed && steps == []
    {
      version, executionId, seed, steps := CURRENT_VERSION, id, executionSeed, [];
    }

    /** A trace read back from a file. */
    constructor Decoded(readVersion: nat, id: string, executionSeed: int, read: seq<Step>)
      ensures version == readVersion && executionId == id && seed == executionSeed && steps == read
    {
      version, executionId, seed, steps := readVersion, id, executionSeed, read;
    }

    method Clear()
      modifies this
      ensures steps == []
    {
      steps := [];
    }

    method Append(step: Step) returns (ok: bool)
      modifies this
      ensures ok <==> GoodStep(step) && Follows(version, old(steps), step)
      ensures steps == if ok then old(steps) + [step] else old(steps)
    {
      ok := ValidateStep(step);
      if !ok { return; }
      if version >= 2 && (|step.nodesBefore| == 0 || |step.nodesAfter| == 0) {
        return false;
      }
      if step.index != |steps| {
        return false;
      }
      if |steps| > 0 && step.timeBefore != steps[|steps| - 1].timeAfter {
        return false;
      }
      steps := steps + [step];
    }

    method Validate() returns (ok: bool)
      ensures ok <==> 1 <= version <= CURRENT_VERSION && executionId != "" && ValidTrace(version, steps)
    {
      if version == 0 || version > CURRENT_VERSION || executionId == "" {
        return false;
      }
      for i := 0 to |steps|
        invariant ValidTrace(version, steps[..i])
      {
        var step := steps[i];
        assert steps[..i + 1] == steps[..i] + [step];
        AppendKeepsValid(version, steps[..i], step);
        ok := ValidateStep(step);
        if !ok || step.index != i || (version >= 2 && (|step.nodesBefore| == 0 || |step.nodesAfter| == 0))
           || (i > 0 && step.timeBefore != steps[i - 1].timeAfter) {
          PrefixInvalid(version, steps, i);
          return false;
        }
      }
      assert steps[..|steps|] == steps;
      ok := true;
    }
  }

  lemma PrefixInvalid(version: nat, steps: seq<Step>, i: nat)
    requires i < |steps| && !(GoodStep(steps[i]) && Follows(version, steps[..i], steps[i]))
    ensures !ValidTrace(version, steps)
  {
  }
}
