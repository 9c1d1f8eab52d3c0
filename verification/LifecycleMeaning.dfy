/** What makes a plan's crashes and restarts legal, told from the plan itself. */
module LifecycleMeaning {
  import opened Keys
  import opened NodeLifecycle

  /** The node was crashed and has not been restarted since. */
  predicate Down(actions: seq<PlanAction>, node: int) {
    exists j :: 0 <= j < |actions| && actions[j] == Crash(node) && forall k :: j < k < |actions| ==> actions[k] != Restart(node)
  }

  ghost function DownNodes(c: Config, actions: seq<PlanAction>): set<int> {
    set node | node in c.nodeIds && Down(actions, node)
  }

  function Crashes(actions: seq<PlanAction>): set<int> {
    set j | 0 <= j < |actions| && actions[j].Crash?
  }

  /** The action may stand behind these: a crash needs a node that is up, room for one
      more that is down and for one more crash, and no restart shortly before. */
  ghost predicate MayFollow(c: Config, before: seq<PlanAction>, action: PlanAction) {
    match action
    case Crash(node) =>
      && node in c.nodeIds && !Down(before, node)
      && |DownNodes(c, before)| < c.maxCrashed && |Crashes(before)| < c.maxEpisodes
      && forall j :: |before| - c.cooldown <= j < |before| && j >= 0 ==> !before[j].Restart?
    case Restart(node) => node in c.nodeIds && Down(before, node)
    case Other(_) => true
  }

  lemma DownStep(actions: seq<PlanAction>, last: PlanAction, node: int)
    ensures Down(actions + [last], node) <==> last == Crash(node) || (Down(actions, node) && last != Restart(node))
  {
    var longer := actions + [last];
    if j :| 0 <= j < |actions| && actions[j] == Crash(node) && forall k :: j < k < |actions| ==> actions[k] != Restart(node) {
      assert longer[j] == Crash(node);
    }
    if last == Crash(node) {
      assert longer[|actions|] == Crash(node);
    }
    if j :| 0 <= j < |longer| && longer[j] == Crash(node) && forall k :: j < k < |longer| ==> longer[k] != Restart(node) {
      assert longer[|actions|] == last;
      assert forall k :: 0 <= k < |actions| ==> longer[k] == actions[k];
    }
  }

  lemma CrashesStep(actions: seq<PlanAction>, last: PlanAction)
    ensures |Crashes(actions + [last])| == |Crashes(actions)| + (if last.Crash? then 1 else 0)
  {
    var longer := actions + [last];
    forall j
      ensures j in Crashes(longer) <==> j in Crashes(actions) || (j == |actions| && last.Crash?)
    {
    }
    if last.Crash? {
      assert Crashes(longer) == Crashes(actions) + {|actions|};
    } else {
      assert Crashes(longer) == Crashes(actions);
    }
  }

  /** What the validator has counted, told from the plan. */
  ghost predicate Remembers(c: Config, actions: seq<PlanAction>, life: Life) {
    && life.crashed == DownNodes(c, actions)
    && life.episodes == |Crashes(actions)|
    && -1 <= life.lastRestart < |actions| && (life.lastRestart >= 0 ==> actions[life.lastRestart].Restart?)
    && (forall j :: life.lastRestart < j < |actions| ==> !actions[j].Restart?)
  }

  lemma AllowedWhenItMayFollow(c: Config, actions: seq<PlanAction>, life: Life, last: PlanAction)
    requires Remembers(c, actions, life)
    ensures AfterAction(c, life, |actions|, last).Some? <==> MayFollow(c, actions, last)
  {
    hide Down, Crashes;
  }

  lemma RemembersOneMore(c: Config, actions: seq<PlanAction>, life: Life, last: PlanAction)
    requires Remembers(c, actions, life) && AfterAction(c, life, |actions|, last).Some?
    ensures Remembers(c, actions + [last], AfterAction(c, life, |actions|, last).value)
  {
    hide Down, Crashes;
    CrashesStep(actions, last);
    var after := AfterAction(c, life, |actions|, last).value;
    forall node
      ensures node in after.crashed <==> node in DownNodes(c, actions + [last])
    {
      DownStep(actions, last, node);
    }
  }

  ghost predicate EachMayFollow(c: Config, actions: seq<PlanAction>) {
    forall i :: 0 <= i < |actions| ==> MayFollow(c, actions[..i], actions[i])
  }

  /** The validator's one pass accepts exactly the plans in which every crash and every
      restart may follow what stands before it. */
  lemma {:induction false} LegalMeans(c: Config, actions: seq<PlanAction>)
    ensures Legal(c, actions) <==> EachMayFollow(c, actions)
    ensures Legal(c, actions) ==> Remembers(c, actions, Lived(c, actions).value)
  {
    hide MayFollow, Remembers, AfterAction;
    if actions == [] {
      NothingYet(c);
    } else {
      var init, last := actions[..|actions| - 1], actions[|actions| - 1];
      LegalMeans(c, init);
      assert actions == init + [last];
      assert forall i :: 0 <= i < |init| ==> init[i] == actions[i] && init[..i] == actions[..i];
      if Legal(c, init) {
        AllowedWhenItMayFollow(c, init, Lived(c, init).value, last);
        if Legal(c, actions) {
          RemembersOneMore(c, init, Lived(c, init).value, last);
        }
      }
    }
  }

  lemma NothingYet(c: Config)
    ensures Remembers(c, [], Life({}, 0, -1))
  {
  }

  /** In a legal plan at most `maxCrashed` nodes are down at any point, and there are at
      most `maxEpisodes` crashes. */
  lemma {:induction false} LegalBounds(c: Config, actions: seq<PlanAction>, i: nat)
    requires Legal(c, actions) && i <= |actions|
    ensures |DownNodes(c, actions[..i])| <= c.maxCrashed && |Crashes(actions[..i])| <= c.maxEpisodes
  {
    hide Down, Crashes, Lived;
    LegalMeans(c, actions);
    if i == 0 {
      assert actions[..0] == [];
      NothingYet(c);
    } else {
      LegalBounds(c, actions, i - 1);
      var before, action := actions[..i - 1], actions[i - 1];
      assert actions[..i] == before + [action];
      assert MayFollow(c, before, action);
      CrashesStep(before, action);
      DownGrows(c, before, action);
    }
  }

  lemma DownGrows(c: Config, before: seq<PlanAction>, action: PlanAction)
    ensures |DownNodes(c, before + [action])| <= |DownNodes(c, before)| + (if action.Crash? then 1 else 0)
  {
    hide Down;
    var more: set<int> := if action.Crash? then {action.node} else {};
    forall node | node in DownNodes(c, before + [action])
      ensures node in DownNodes(c, before) + more
    {
      DownStep(before, action, node);
    }
    Included(DownNodes(c, before + [action]), DownNodes(c, before) + more);
  }

  lemma Included(a: set<int>, b: set<int>)
    requires a <= b
    ensures |a| <= |b|
  {
    assert b == a + (b - a);
  }

  // ---------------------------------------------------------------- what the policy offers

  lemma {:induction false} CountsTwo(nodes: seq<Observed>, node: int)
    requires forall i, j :: 0 <= i < j < |nodes| ==> nodes[i].id != nodes[j].id
    ensures CountStatus(nodes, Running) > (if Observed(node, Running) in nodes then 1 else 0)
        <==> exists n :: n in nodes && n.id != node && n.status == Running
    ensures CountStatus(nodes, Running) >= if Observed(node, Running) in nodes then 1 else 0
  {
    if nodes != [] {
      var init, last := nodes[..|nodes| - 1], nodes[|nodes| - 1];
      assert nodes == init + [last];
      assert forall i :: 0 <= i < |init| ==> init[i] == nodes[i];
      CountsTwo(init, node);
      assert last.id == node && last.status == Running ==> last == Observed(node, Running);
      assert last in nodes && forall n :: n in nodes <==> n in init || n == last;
    }
  }

  /** No crash or restart among the latest actions. */
  ghost predicate Quiet(actions: seq<PlanAction>, cooldown: nat) {
    forall j :: |actions| - cooldown <= j < |actions| && j >= 0 ==> actions[j].Other?
  }

  /** A running node may be crashed exactly when another one runs, the validator would
      take the crash, and neither a crash nor a restart was among the latest actions. */
  lemma CrashIsOffered(p: Policy, nodes: seq<Observed>, node: int)
    requires p.Valid() && Follows(p.c, nodes, Lived(p.c, p.generated).value) && Observed(node, Running) in nodes
    ensures Crash(node) in (if p.MayCrash(nodes) then CrashActions(nodes) else [])
        <==> && (exists n :: n in nodes && n.id != node && n.status == Running)
             && MayFollow(p.c, p.generated, Crash(node)) && Quiet(p.generated, p.c.cooldown)
  {
    hide Lived, CountStatus, MayFollow, CrashActions;
    var life := Lived(p.c, p.generated).value;
    LegalMeans(p.c, p.generated);
    AllowedWhenItMayFollow(p.c, p.generated, life, Crash(node));
    OnlyRunningCrash(nodes, Crash(node));
    CountsTwo(nodes, node);
    CountIsSetSize(nodes);
    QuietMeans(p);
  }

  lemma QuietMeans(p: Policy)
    requires p.Valid()
    ensures Quiet(p.generated, p.c.cooldown)
        <==> p.lastLifecycleAction < 0 || |p.generated| - p.lastLifecycleAction - 1 >= p.c.cooldown
    ensures Quiet(p.generated, p.c.cooldown) ==>
              !(Lived(p.c, p.generated).value.lastRestart >= 0
                && |p.generated| - Lived(p.c, p.generated).value.lastRestart - 1 < p.c.cooldown)
  {
    hide Lived;
  }

  /** Exactly the nodes the plan has left down may be restarted. */
  lemma RestartIsOffered(p: Policy, nodes: seq<Observed>, node: int)
    requires p.Valid() && Follows(p.c, nodes, Lived(p.c, p.generated).value)
    ensures Restart(node) in RestartActions(nodes) <==> MayFollow(p.c, p.generated, Restart(node))
  {
    hide Lived, MayFollow;
    LegalMeans(p.c, p.generated);
    AllowedWhenItMayFollow(p.c, p.generated, Lived(p.c, p.generated).value, Restart(node));
    OnlyRunningCrash(nodes, Restart(node));
  }
}
