/** Crash and restart in plans: the mutator's offline validator, the online policy
    whose plans it must accept, and the mutator's pair insertion. */
module NodeLifecycle {
  import opened Keys

  /** Everything but crashes and restarts is of one kind here. */
  datatype PlanAction = Crash(node: int) | Restart(node: int) | Other(what: int)

  datatype Config = Config(nodeIds: seq<int>, maxActions: nat, maxCrashed: nat, cooldown: nat, maxEpisodes: nat)

  // ---------------------------------------------------------------- validateLifecycle

  /** What the validator knows after a prefix of the plan. */
  datatype Life = Life(crashed: set<int>, episodes: nat, lastRestart: int)

  predicate CanCrash(c: Config, life: Life, index: nat, node: int) {
    && node in c.nodeIds && node !in life.crashed
    && |life.crashed| < c.maxCrashed && life.episodes < c.maxEpisodes
    && !(life.lastRestart >= 0 && index - life.lastRestart - 1 < c.cooldown)
  }

  predicate CanRestart(c: Config, life: Life, node: int) {
    node in c.nodeIds && node in life.crashed
  }

  function AfterAction(c: Config, life: Life, index: nat, action: PlanAction): Option<Life> {
    match action
    case Crash(node) =>
      if CanCrash(c, life, index, node) then Some(Life(life.crashed + {node}, life.episodes + 1, life.lastRestart)) else None
    case Restart(node) =>
      if CanRestart(c, life, node) then Some(Life(life.crashed - {node}, life.episodes, index)) else None
    case Other(what) => Some(life)
  }

  function Lived(c: Config, actions: seq<PlanAction>): Option<Life> {
    if actions == [] then Some(Life({}, 0, -1))
    else
      var before := Lived(c, actions[..|actions| - 1]);
      if before.None? then None else AfterAction(c, before.value, |actions| - 1, actions[|actions| - 1])
  }

  predicate Legal(c: Config, actions: seq<PlanAction>) {
    Lived(c, actions).Some?
  }

  lemma {:induction false} PrefixIsLegal(c: Config, actions: seq<PlanAction>, i: nat)
    requires i <= |actions| && Legal(c, actions)
    ensures Legal(c, actions[..i])
  {
    if i < |actions| {
      PrefixIsLegal(c, actions[..|actions| - 1], i);
      assert actions[..|actions| - 1][..i] == actions[..i];
    } else {
      assert actions[..i] == actions;
    }
  }

  lemma LivedStep(c: Config, actions: seq<PlanAction>, i: nat)
    requires i < |actions| && Legal(c, actions[..i])
    ensures Lived(c, actions[..i + 1]) == AfterAction(c, Lived(c, actions[..i]).value, i, actions[i])
    ensures Lived(c, actions[..i + 1]).None? ==> !Legal(c, actions)
  {
    assert actions[..i + 1][..i] == actions[..i];
    if Legal(c, actions) {
      PrefixIsLegal(c, actions, i + 1);
    }
  }

  method ValidateLifecycle(c: Config, actions: seq<PlanAction>) returns (ok: bool)
    ensures ok <==> Legal(c, actions)
  {
    var running: map<int, bool> := map node | node in c.nodeIds :: true;
    var crashed, episodes, lastRestart := 0, 0, -1;
    hide Lived, Tracks;
    NothingHappened(c, actions, running);
    for index := 0 to |actions|
      invariant Legal(c, actions[..index])
      invariant Tracks(c, Lived(c, actions[..index]).value, running, crashed, episodes, lastRestart)
    {
      LivedStep(c, actions, index);
      ghost var life := Lived(c, actions[..index]).value;
      match actions[index]
      case Crash(node) =>
        TracksCrash(c, life, running, crashed, episodes, lastRestart, index, node);
        if node !in running || !running[node] || crashed >= c.maxCrashed || episodes >= c.maxEpisodes
           || (lastRestart >= 0 && index - lastRestart - 1 < c.cooldown) {
          return false;
        }
        running := running[node := false];
        crashed, episodes := crashed + 1, episodes + 1;
      case Restart(node) =>
        TracksRestart(c, life, running, crashed, episodes, lastRestart, index, node);
        if node !in running || running[node] {
          return false;
        }
        running := running[node := true];
        crashed, lastRestart := crashed - 1, index;
      case Other(what) =>
    }
    assert actions[..|actions|] == actions;
    ok := true;
  }

  lemma NothingHappened(c: Config, actions: seq<PlanAction>, running: map<int, bool>)
    requires running == map node | node in c.nodeIds :: true
    ensures Legal(c, actions[..0]) && Tracks(c, Lived(c, actions[..0]).value, running, 0, 0, -1)
  {
  }

  lemma TracksCrash(c: Config, life: Life, running: map<int, bool>, crashed: int, episodes: int, lastRestart: int, index: nat,
                    node: int)
    requires Tracks(c, life, running, crashed, episodes, lastRestart)
    ensures CanCrash(c, life, index, node) <==>
              && node in running && running[node] && crashed < c.maxCrashed && episodes < c.maxEpisodes
              && !(lastRestart >= 0 && index - lastRestart - 1 < c.cooldown)
    ensures CanCrash(c, life, index, node) ==>
              Tracks(c, AfterAction(c, life, index, Crash(node)).value, running[node := false], crashed + 1, episodes + 1, lastRestart)
  {
  }

  lemma TracksRestart(c: Config, life: Life, running: map<int, bool>, crashed: int, episodes: int, lastRestart: int, index: nat,
                      node: int)
    requires Tracks(c, life, running, crashed, episodes, lastRestart)
    ensures CanRestart(c, life, node) <==> node in running && !running[node]
    ensures CanRestart(c, life, node) ==>
              Tracks(c, AfterAction(c, life, index, Restart(node)).value, running[node := true], crashed - 1, episodes, index)
  {
    if CanRestart(c, life, node) {
      assert life.crashed == life.crashed - {node} + {node};
    }
  }

  ghost predicate Tracks(c: Config, life: Life, running: map<int, bool>, crashed: int, episodes: int, lastRestart: int) {
    && (forall node :: node in running <==> node in c.nodeIds)
    && (forall node | node in running :: running[node] <==> node !in life.crashed)
    && (forall node | node in life.crashed :: node in running)
    && crashed == |life.crashed| && episodes == life.episodes && lastRestart == life.lastRestart
  }

  // ---------------------------------------------------------------- the online policy

  datatype Status = Running | Crashed | Unknown

  datatype Observed = Observed(id: int, status: Status)

  datatype Group = Group(weight: nat, actions: seq<PlanAction>)

  function CountStatus(nodes: seq<Observed>, status: Status): nat {
    if nodes == [] then 0
    else CountStatus(nodes[..|nodes| - 1], status) + (if nodes[|nodes| - 1].status == status then 1 else 0)
  }

  function CrashedIds(nodes: seq<Observed>): set<int> {
    set n | n in nodes && n.status.Crashed? :: n.id
  }

  /** The observation shows each configured node once, crashed exactly where the
      policy's own actions have left it crashed. */
  ghost predicate Follows(c: Config, nodes: seq<Observed>, life: Life) {
    && (forall i, j :: 0 <= i < j < |nodes| ==> nodes[i].id != nodes[j].id)
    && (forall n | n in nodes :: n.id in c.nodeIds && (n.status.Crashed? <==> n.id in life.crashed))
    && CrashedIds(nodes) == life.crashed
  }

  lemma {:induction false} CountIsSetSize(nodes: seq<Observed>)
    requires forall i, j :: 0 <= i < j < |nodes| ==> nodes[i].id != nodes[j].id
    ensures CountStatus(nodes, Crashed) == |CrashedIds(nodes)|
  {
    if nodes != [] {
      var init, last := nodes[..|nodes| - 1], nodes[|nodes| - 1];
      CountIsSetSize(init);
      assert nodes == init + [last];
      assert forall i :: 0 <= i < |init| ==> init[i] == nodes[i];
      OneMoreObserved(init, last);
    }
  }

  lemma OneMoreObserved(init: seq<Observed>, last: Observed)
    requires forall i :: 0 <= i < |init| ==> init[i].id != last.id
    ensures |CrashedIds(init + [last])| == |CrashedIds(init)| + (if last.status.Crashed? then 1 else 0)
  {
    var nodes := init + [last];
    assert forall n :: n in nodes <==> n in init || n == last;
    if last.status.Crashed? {
      assert last.id !in CrashedIds(init);
      assert CrashedIds(nodes) == CrashedIds(init) + {last.id};
    } else {
      assert CrashedIds(nodes) == CrashedIds(init);
    }
  }

  /** An empty group is never drawn. */
  function WeightOf(group: Group): nat {
    if group.actions != [] then group.weight else 0
  }

  function TotalWeight(groups: seq<Group>): nat {
    if groups == [] then 0 else WeightOf(groups[0]) + TotalWeight(groups[1..])
  }

  /** The group a draw lands in. */
  function Drawn(groups: seq<Group>, draw: nat): (g: nat)
    requires draw < TotalWeight(groups)
    ensures g < |groups| && groups[g].actions != [] && groups[g].weight > 0
  {
    if draw < WeightOf(groups[0]) then 0 else 1 + Drawn(groups[1..], draw - WeightOf(groups[0]))
  }

  /** The actions of the group, each for one residue of the second draw. */
  function Picked(groups: seq<Group>, draw: nat, pick: nat): PlanAction
    requires draw < TotalWeight(groups)
  {
    var actions := groups[Drawn(groups, draw)].actions;
    actions[pick % |actions|]
  }

  function DrawsOf(groups: seq<Group>, g: nat): set<int> {
    set draw: int | 0 <= draw < TotalWeight(groups) && Drawn(groups, draw) == g
  }

  /** Of all draws exactly as many land in a group as it weighs. */
  lemma {:induction false} EachGroupByItsWeight(groups: seq<Group>, g: nat)
    requires g < |groups|
    ensures |DrawsOf(groups, g)| == if groups[g].actions == [] then 0 else groups[g].weight
  {
    hide DrawsOf;
    if g == 0 {
      DrawsOfFirst(groups);
      BelowSize(WeightOf(groups[0]));
    } else {
      EachGroupByItsWeight(groups[1..], g - 1);
      forall draw
        ensures draw in DrawsOf(groups, g) <==> draw - WeightOf(groups[0]) in DrawsOf(groups[1..], g - 1)
      {
        DrawsOfLater(groups, g, draw);
      }
      ShiftedSize(DrawsOf(groups, g), DrawsOf(groups[1..], g - 1), WeightOf(groups[0]));
    }
  }

  lemma DrawsOfFirst(groups: seq<Group>)
    requires groups != []
    ensures DrawsOf(groups, 0) == Below(WeightOf(groups[0]))
  {
    hide Drawn;
    forall draw
      ensures draw in DrawsOf(groups, 0) <==> draw in Below(WeightOf(groups[0]))
    {
      BelowHas(WeightOf(groups[0]), draw);
      if 0 <= draw < TotalWeight(groups) {
        DrawnStep(groups, draw);
      }
    }
  }

  lemma DrawsOfLater(groups: seq<Group>, g: nat, draw: int)
    requires 0 < g < |groups|
    ensures draw in DrawsOf(groups, g) <==> draw - WeightOf(groups[0]) in DrawsOf(groups[1..], g - 1)
  {
    hide Drawn;
    if 0 <= draw < TotalWeight(groups) {
      DrawnStep(groups, draw);
    }
  }

  lemma DrawnStep(groups: seq<Group>, draw: nat)
    requires draw < TotalWeight(groups)
    ensures Drawn(groups, draw) == if draw < WeightOf(groups[0]) then 0 else 1 + Drawn(groups[1..], draw - WeightOf(groups[0]))
  {
  }

  function Below(n: nat): set<int> {
    if n == 0 then {} else Below(n - 1) + {n - 1}
  }

  lemma {:induction false} BelowHas(n: nat, x: int)
    ensures x in Below(n) <==> 0 <= x < n
  {
    if n > 0 {
      BelowHas(n - 1, x);
    }
  }

  lemma {:induction false} BelowSize(n: nat)
    ensures |Below(n)| == n
  {
    if n > 0 {
      BelowSize(n - 1);
      BelowHas(n - 1, n - 1);
    }
  }

  lemma {:induction false} ShiftedSize(a: set<int>, b: set<int>, d: int)
    requires forall x: int :: x in a <==> x - d in b
    ensures |a| == |b|
    decreases b
  {
    if b == {} {
      if a != {} {
        SomeMember(a);
      }
    } else {
      SomeMember(b);
      var y :| y in b;
      assert y + d in a;
      ShiftedSize(a - {y + d}, b - {y}, d);
    }
  }

  ghost predicate OneOf(action: PlanAction, groups: seq<Group>) {
    exists g :: 0 <= g < |groups| && action in groups[g].actions && groups[g].weight > 0
  }

  function CrashActions(nodes: seq<Observed>): seq<PlanAction> {
    if nodes == [] then []
    else
      var last := nodes[|nodes| - 1];
      CrashActions(nodes[..|nodes| - 1]) + if last.status.Running? then [Crash(last.id)] else []
  }

  function RestartActions(nodes: seq<Observed>): seq<PlanAction> {
    if nodes == [] then []
    else
      var last := nodes[|nodes| - 1];
      RestartActions(nodes[..|nodes| - 1]) + if last.status.Crashed? then [Restart(last.id)] else []
  }

  lemma {:induction false} OnlyRunningCrash(nodes: seq<Observed>, action: PlanAction)
    ensures action in CrashActions(nodes) <==> action.Crash? && Observed(action.node, Running) in nodes
    ensures action in RestartActions(nodes) <==> action.Restart? && Observed(action.node, Crashed) in nodes
  {
    if nodes != [] {
      var init, last := nodes[..|nodes| - 1], nodes[|nodes| - 1];
      OnlyRunningCrash(init, action);
      assert nodes == init + [last] && last == Observed(last.id, last.status);
    }
  }

  ghost predicate Counted(c: Config, generated: seq<PlanAction>, crashEpisodes: nat, lastLifecycleAction: int)
    requires Legal(c, generated)
  {
    && crashEpisodes == Lived(c, generated).value.episodes
    && Lived(c, generated).value.lastRestart <= lastLifecycleAction < |generated|
    && (lastLifecycleAction >= 0 ==> !generated[lastLifecycleAction].Other?)
    && (forall k :: lastLifecycleAction < k < |generated| && k >= 0 ==> generated[k].Other?)
  }

  lemma CountedOneMore(c: Config, generated: seq<PlanAction>, crashEpisodes: nat, lastLifecycleAction: int, chosen: PlanAction)
    requires Legal(c, generated) && Counted(c, generated, crashEpisodes, lastLifecycleAction) && Legal(c, generated + [chosen])
    requires Lived(c, generated + [chosen]) == AfterAction(c, Lived(c, generated).value, |generated|, chosen)
    ensures Counted(c, generated + [chosen], crashEpisodes + (if chosen.Crash? then 1 else 0),
                    if chosen.Other? then lastLifecycleAction else |generated|)
  {
    hide Lived;
  }

  class Policy {
    const c: Config
    var generated: seq<PlanAction>
    var crashEpisodes: nat
    var lastLifecycleAction: int

    constructor (config: Config)
      ensures c == config && generated == [] && Valid()
    {
      c, generated, crashEpisodes, lastLifecycleAction := config, [], 0, -1;
    }

    /** The plan so far is one the validator accepts, and the counters agree with it. */
    ghost predicate Valid()
      reads this
    {
      Legal(c, generated) && Counted(c, generated, crashEpisodes, lastLifecycleAction)
    }

    predicate CrashAllowed()
      reads this
    {
      && crashEpisodes < c.maxEpisodes
      && (lastLifecycleAction < 0 || |generated| - lastLifecycleAction - 1 >= c.cooldown)
    }

    method Count(nodes: seq<Observed>, status: Status) returns (count: nat)
      ensures count == CountStatus(nodes, status)
    {
      count := 0;
      for i := 0 to |nodes|
        invariant count == CountStatus(nodes[..i], status)
      {
        assert nodes[..i + 1][..i] == nodes[..i];
        if nodes[i].status == status {
          count := count + 1;
        }
      }
      assert nodes[..|nodes|] == nodes;
    }

    /** A further crash is within every bound: another node runs, few enough are
        down, and the last crash or restart is long enough ago. */
    predicate MayCrash(nodes: seq<Observed>)
      reads this
    {
      CountStatus(nodes, Running) > 1 && CountStatus(nodes, Crashed) < c.maxCrashed && CrashAllowed()
    }

    method LifecycleCandidates(nodes: seq<Observed>) returns (crashes: seq<PlanAction>, restarts: seq<PlanAction>)
      ensures crashes == if MayCrash(nodes) then CrashActions(nodes) else []
      ensures restarts == RestartActions(nodes)
    {
      crashes, restarts := [], [];
      var runningCount := Count(nodes, Running);
      var crashedCount := Count(nodes, Crashed);
      for i := 0 to |nodes|
        invariant crashes == if MayCrash(nodes) then CrashActions(nodes[..i]) else []
        invariant restarts == RestartActions(nodes[..i])
      {
        var node := nodes[i];
        assert nodes[..i + 1][..i] == nodes[..i];
        if node.status.Crashed? {
          restarts := restarts + [Restart(node.id)];
        } else if node.status.Running? && runningCount > 1 && crashedCount < c.maxCrashed && CrashAllowed() {
          crashes := crashes + [Crash(node.id)];
        }
      }
      assert nodes[..|nodes|] == nodes;
    }

    /** All candidate groups, the lifecycle ones last. */
    function Groups(nodes: seq<Observed>, others: seq<Group>, crashWeight: nat, restartWeight: nat): seq<Group>
      reads this
    {
      others + [Group(crashWeight, if MayCrash(nodes) then CrashActions(nodes) else []),
                Group(restartWeight, RestartActions(nodes))]
    }

    /** Draws an action from the weighted groups; the source's "impossible state" is
        indeed impossible: a draw below the total always lands in a group. */
    method Choose(groups: seq<Group>, draw: nat, pick: nat) returns (action: PlanAction)
      requires draw < TotalWeight(groups)
      ensures OneOf(action, groups) && action == Picked(groups, draw, pick)
    {
      var left := draw;
      var g := 0;
      assert groups[0..] == groups && groups[|groups|..] == [];
      while g < |groups|
        invariant 0 <= g <= |groups| && 0 <= left < TotalWeight(groups[g..])
        invariant Drawn(groups, draw) == g + Drawn(groups[g..], left)
      {
        assert groups[g..][1..] == groups[g + 1..];
        if groups[g].actions != [] {
          if left < groups[g].weight {
            var actions := groups[g].actions;
            action := actions[pick % |actions|];
            assert action in groups[g].actions && groups[g].weight > 0;
            return;
          }
          left := left - groups[g].weight;
        }
        g := g + 1;
      }
      assert false;
    }

    /** Next: any draw, any other candidates. Whatever is emitted, the plan so far
        passes the mutator's validator under the same bounds. */
    method Next(nodes: seq<Observed>, others: seq<Group>, crashWeight: nat, restartWeight: nat, draw: nat, pick: nat)
        returns (action: Option<PlanAction>)
      requires Valid() && Follows(c, nodes, Lived(c, generated).value)
      requires forall g, a :: 0 <= g < |others| && a in others[g].actions ==> a.Other?
      modifies this
      ensures Valid()
      ensures action.None? <==> TotalWeight(old(Groups(nodes, others, crashWeight, restartWeight))) == 0
      ensures action.None? ==> generated == old(generated)
      ensures action.Some? ==> generated == old(generated) + [action.value] && Legal(c, generated)
      ensures action.Some? ==>
                var groups := old(Groups(nodes, others, crashWeight, restartWeight));
                OneOf(action.value, groups) && action.value == Picked(groups, draw % TotalWeight(groups), pick)
    {
      hide Follows, Lived, CountStatus, CrashActions, RestartActions, TotalWeight, Picked;
      var crashes, restarts := LifecycleCandidates(nodes);
      var groups := others + [Group(crashWeight, crashes), Group(restartWeight, restarts)];
      var total := WeighAll(groups);
      if total == 0 {
        return None;
      }
      var chosen := Choose(groups, draw % total, pick);
      OnlyRunningCrash(nodes, chosen);
      ghost var g :| 0 <= g < |groups| && chosen in groups[g].actions;
      assert chosen.Other? || chosen in crashes || chosen in restarts;
      Emit(nodes, chosen);
      action := Some(chosen);
    }

    /** Appends the chosen action and keeps the lifecycle counters. */
    method Emit(ghost nodes: seq<Observed>, chosen: PlanAction)
      requires Valid() && Follows(c, nodes, Lived(c, generated).value)
      requires chosen.Crash? ==> MayCrash(nodes) && Observed(chosen.node, Running) in nodes
      requires chosen.Restart? ==> Observed(chosen.node, Crashed) in nodes
      modifies this
      ensures Valid() && generated == old(generated) + [chosen]
    {
      hide Follows, Lived, CountStatus, Counted, AfterAction;
      CanBeChosen(c, generated, nodes, chosen, crashEpisodes, lastLifecycleAction);
      ChosenIsLegal(c, generated, nodes, chosen);
      CountedOneMore(c, generated, crashEpisodes, lastLifecycleAction, chosen);
      if chosen.Crash? {
        crashEpisodes := crashEpisodes + 1;
        lastLifecycleAction := |generated|;
      } else if chosen.Restart? {
        lastLifecycleAction := |generated|;
      }
      generated := generated + [chosen];
    }
  }

  lemma CanBeChosen(c: Config, generated: seq<PlanAction>, nodes: seq<Observed>, chosen: PlanAction, crashEpisodes: nat,
                    lastLifecycleAction: int)
    requires Legal(c, generated) && Counted(c, generated, crashEpisodes, lastLifecycleAction)
    ensures crashEpisodes == Lived(c, generated).value.episodes
    ensures lastLifecycleAction < 0 || |generated| - lastLifecycleAction - 1 >= c.cooldown ==>
              var last := Lived(c, generated).value.lastRestart;
              !(last >= 0 && |generated| - last - 1 < c.cooldown)
  {
    hide Lived;
  }

  /** What the candidate lists promise is what the validator asks for. */
  lemma ChosenIsLegal(c: Config, generated: seq<PlanAction>, nodes: seq<Observed>, chosen: PlanAction)
    requires Legal(c, generated) && Follows(c, nodes, Lived(c, generated).value)
    requires chosen.Crash? ==>
               var life := Lived(c, generated).value;
               && Observed(chosen.node, Running) in nodes && CountStatus(nodes, Crashed) < c.maxCrashed
               && life.episodes < c.maxEpisodes
               && !(life.lastRestart >= 0 && |generated| - life.lastRestart - 1 < c.cooldown)
    requires chosen.Restart? ==> Observed(chosen.node, Crashed) in nodes
    ensures Lived(c, generated + [chosen]) == AfterAction(c, Lived(c, generated).value, |generated|, chosen)
    ensures Legal(c, generated + [chosen])
  {
    var longer := generated + [chosen];
    assert longer[..|longer| - 1] == generated && longer[|longer| - 1] == chosen;
    CountIsSetSize(nodes);
  }

  method WeighAll(groups: seq<Group>) returns (total: nat)
    ensures total == TotalWeight(groups)
  {
    total := 0;
    var i := |groups|;
    while i > 0
      invariant 0 <= i <= |groups| && total == TotalWeight(groups[i..])
    {
      i := i - 1;
      assert groups[i..][1..] == groups[i + 1..];
      if groups[i].actions != [] {
        total := total + groups[i].weight;
      }
    }
    assert groups[0..] == groups;
  }

  // ---------------------------------------------------------------- inserting a crash/restart pair

  /** insertLifecyclePair: the plan with `node` down between positions start and end. */
  function WithPair(actions: seq<PlanAction>, node: int, start: nat, end: nat): seq<PlanAction>
    requires start <= end <= |actions|
  {
    actions[..start] + [Crash(node)] + actions[start..end] + [Restart(node)] + actions[end..]
  }

  datatype Sample = Sample(node: nat, start: nat, length: nat)

  ghost predicate IsWithPair(c: Config, actions: seq<PlanAction>, result: seq<PlanAction>) {
    exists node, start: nat, end: nat :: node in c.nodeIds && start < end <= |actions| && result == WithPair(actions, node, start, end)
  }

  /** No single existing action can be bracketed by a legal pair of any node. */
  ghost predicate NoSingleWindow(c: Config, actions: seq<PlanAction>) {
    forall node, start: nat :: node in c.nodeIds && start < |actions| ==> !WindowLegal(c, actions, node, start)
  }

  predicate WindowLegal(c: Config, actions: seq<PlanAction>, node: int, start: nat)
    requires start < |actions|
  {
    Legal(c, WithPair(actions, node, start, start + 1))
  }

  const SAMPLES: nat := 64

  /** Samples windows first and then tries every single-action window, so that it
      gives up only when the plan is too long or no such window is legal. */
  method InsertCrashRestartPair(c: Config, actions: seq<PlanAction>, samples: nat -> Sample) returns (result: Option<seq<PlanAction>>)
    requires c.nodeIds != []
    ensures result.Some? ==> Legal(c, result.value) && IsWithPair(c, actions, result.value) && |result.value| <= c.maxActions
    ensures result.None? ==> |actions| + 2 > c.maxActions || NoSingleWindow(c, actions)
  {
    if |actions| + 2 > c.maxActions || |actions| == 0 {
      return None;
    }
    for attempt := 0 to SAMPLES {
      var sample := samples(attempt);
      var node := c.nodeIds[sample.node % |c.nodeIds|];
      var start := sample.start % |actions|;
      var end := start + 1 + sample.length % (|actions| - start);
      var candidate := WithPair(actions, node, start, end);
      var ok := ValidateLifecycle(c, candidate);
      if ok {
        assert node in c.nodeIds;
        return Some(candidate);
      }
    }
    for i := 0 to |c.nodeIds|
      invariant forall j, start: nat :: 0 <= j < i && start < |actions| ==> !WindowLegal(c, actions, c.nodeIds[j], start)
    {
      for start := 0 to |actions|
        invariant forall earlier: nat :: earlier < start ==> !WindowLegal(c, actions, c.nodeIds[i], earlier)
      {
        var candidate := WithPair(actions, c.nodeIds[i], start, start + 1);
        var ok := ValidateLifecycle(c, candidate);
        if ok {
          assert c.nodeIds[i] in c.nodeIds;
          return Some(candidate);
        }
      }
    }
    result := None;
  }

  // ---------------------------------------------------------------- Mutate

  predicate Acceptable(c: Config, parent: seq<PlanAction>, plan: seq<PlanAction>) {
    Legal(c, plan) && 0 < |plan| <= c.maxActions && plan != parent
  }

  /** The mutation loop over whatever the operators propose: it returns at most
      `count` plans, all legal, within the size bound, different from the parent
      and from each other; and none only when nothing acceptable was proposed. */
  method Mutate(c: Config, parent: seq<PlanAction>, count: nat, proposals: nat -> seq<PlanAction>) returns (plans: seq<seq<PlanAction>>)
    ensures |plans| <= count && Distinct(plans)
    ensures forall i :: 0 <= i < |plans| ==> Acceptable(c, parent, plans[i])
    ensures plans == [] ==> forall k :: 0 <= k < count * 32 ==> !Acceptable(c, parent, proposals(k))
  {
    plans := [];
    var attempts := 0;
    while |plans| < count && attempts < count * 32
      invariant |plans| <= count && attempts <= count * 32 && Distinct(plans)
      invariant forall i :: 0 <= i < |plans| ==> Acceptable(c, parent, plans[i])
      invariant plans == [] ==> forall k :: 0 <= k < attempts ==> !Acceptable(c, parent, proposals(k))
      decreases count * 32 - attempts
    {
      var candidate := proposals(attempts);
      attempts := attempts + 1;
      if |candidate| == 0 || |candidate| > c.maxActions {
        continue;
      }
      var ok := ValidateLifecycle(c, candidate);
      if !ok || candidate == parent || candidate in plans {
        continue;
      }
      plans := plans + [candidate];
    }
  }
}
