/** The online Raft oracle and the observations the adapter builds for it. */
module Oracles {
  import opened Keys
  import S = Snapshots

  /** The semantic part of one observed node; None where a field is missing. */
  datatype NodeView = NodeView(id: nat, epoch: nat, running: bool, leader: bool, term: Option<nat>, commit: Option<nat>,
                               applied: Option<nat>, lastIndex: Option<nat>, available: bool, digests: map<nat, S.Digest>)

  datatype Code =
    | PrefixIncomplete
    | AppliedExceedsCommit
    | CommitExceedsLog
    | MultipleLeaders
    | LogConflict
    | TermRegressed
    | CommitRegressed
    | AppliedRegressed

  datatype Finding = Finding(code: Code, node: nat)

  ghost predicate Raises(findings: seq<Finding>, code: Code) {
    exists i :: 0 <= i < |findings| && findings[i].code == code
  }

  // ---------------------------------------------------------------- leaders

  predicate Leads(n: NodeView) {
    n.running && n.leader && n.term.Some?
  }

  /** Another node has been recorded as leader of this term. */
  predicate Clashes(leaders: map<nat, nat>, n: NodeView) {
    Leads(n) && n.term.value in leaders && leaders[n.term.value] != n.id
  }

  function Remember(leaders: map<nat, nat>, n: NodeView): map<nat, nat> {
    if Leads(n) && !Clashes(leaders, n) then leaders[n.term.value := n.id] else leaders
  }

  /** The table after all the nodes of a list, in order. */
  function Remembered(leaders: map<nat, nat>, nodes: seq<NodeView>): map<nat, nat> {
    if nodes == [] then leaders
    else Remember(Remembered(leaders, nodes[..|nodes| - 1]), nodes[|nodes| - 1])
  }

  ghost predicate ClashAmong(leaders: map<nat, nat>, nodes: seq<NodeView>) {
    exists i :: 0 <= i < |nodes| && Clashes(Remembered(leaders, nodes[..i]), nodes[i])
  }

  /** Election Safety, section 5.2 of the Raft paper, is violated by what was seen. */
  ghost predicate TwoLeaders(seen: seq<NodeView>) {
    exists i, j :: 0 <= i < j < |seen| && SameTermOtherNode(seen[i], seen[j])
  }

  predicate SameTermOtherNode(a: NodeView, b: NodeView) {
    Leads(a) && Leads(b) && a.term == b.term && a.id != b.id
  }

  /** Whoever the table names has led the term, and whoever led it first is named. */
  lemma {:induction false} TableIsTheFirstLeader(seen: seq<NodeView>, term: nat)
    ensures var table := Remembered(map[], seen);
            term in table <==> exists i :: 0 <= i < |seen| && Leads(seen[i]) && seen[i].term == Some(term)
    ensures var table := Remembered(map[], seen);
            term in table ==> exists i :: 0 <= i < |seen| && Leads(seen[i]) && seen[i].term == Some(term) && seen[i].id == table[term]
  {
    if seen != [] {
      var init, last := seen[..|seen| - 1], seen[|seen| - 1];
      TableIsTheFirstLeader(init, term);
      assert forall i :: 0 <= i < |init| ==> init[i] == seen[i];
      assert seen[|seen| - 1] == last;
    }
  }

  lemma ClashMeansTwoLeaders(seen: seq<NodeView>, j: nat)
    requires j < |seen| && Clashes(Remembered(map[], seen[..j]), seen[j])
    ensures TwoLeaders(seen)
  {
    var term := seen[j].term.value;
    TableIsTheFirstLeader(seen[..j], term);
    var i :| 0 <= i < j && Leads(seen[..j][i]) && seen[..j][i].term == Some(term)
             && seen[..j][i].id == Remembered(map[], seen[..j])[term];
    assert SameTermOtherNode(seen[i], seen[j]);
  }

  lemma TwoLeadersMeanClash(seen: seq<NodeView>, i: nat, j: nat)
    requires i < j < |seen| && SameTermOtherNode(seen[i], seen[j])
    ensures ClashAmong(map[], seen)
  {
    var term := seen[j].term.value;
    TableIsTheFirstLeader(seen[..j], term);
    assert seen[..j][i] == seen[i];
    var table := Remembered(map[], seen[..j]);
    if table[term] != seen[j].id {
      assert Clashes(table, seen[j]);
    } else {
      SomeoneClashed(seen[..j], term, seen[i].id, i);
      var m :| 0 <= m < j && Clashes(Remembered(map[], seen[..j][..m]), seen[..j][m]);
      assert seen[..j][..m] == seen[..m] && seen[..j][m] == seen[m];
    }
  }

  /** A leader of the term that the table does not name must have clashed. */
  lemma {:induction false} SomeoneClashed(seen: seq<NodeView>, term: nat, id: nat, i: nat)
    requires i < |seen| && Leads(seen[i]) && seen[i].term == Some(term) && seen[i].id == id
    requires term in Remembered(map[], seen) && Remembered(map[], seen)[term] != id
    ensures ClashAmong(map[], seen)
  {
    var init, last := seen[..|seen| - 1], seen[|seen| - 1];
    var before := Remembered(map[], init);
    if Clashes(before, last) {
      assert seen[..|seen| - 1] == init;
    } else {
      assert i < |seen| - 1;
      assert init[i] == seen[i];
      TableIsTheFirstLeader(init, term);
      SomeoneClashed(init, term, id, i);
      var m :| 0 <= m < |init| && Clashes(Remembered(map[], init[..m]), init[m]);
      assert init[..m] == seen[..m] && init[m] == seen[m];
    }
  }

  /** The history-keeping check is exact: it clashes at some point of the run if and
      only if two different nodes were ever seen leading one term. */
  lemma LeaderCheckIsExact(seen: seq<NodeView>)
    ensures ClashAmong(map[], seen) <==> TwoLeaders(seen)
  {
    if ClashAmong(map[], seen) {
      var j :| 0 <= j < |seen| && Clashes(Remembered(map[], seen[..j]), seen[j]);
      ClashMeansTwoLeaders(seen, j);
    }
    if TwoLeaders(seen) {
      var i, j :| 0 <= i < j < |seen| && SameTermOtherNode(seen[i], seen[j]);
      TwoLeadersMeanClash(seen, i, j);
    }
  }

  // ---------------------------------------------------------------- committed prefixes

  predicate Compares(n: NodeView) {
    n.commit.Some? && n.available
  }

  function Common(a: NodeView, b: NodeView): nat
    requires Compares(a) && Compares(b)
  {
    if b.commit.value < a.commit.value then b.commit.value else a.commit.value
  }

  predicate Conflict(a: NodeView, b: NodeView) {
    && Compares(a) && Compares(b) && Common(a, b) > 0
    && Common(a, b) in a.digests && Common(a, b) in b.digests && a.digests[Common(a, b)] != b.digests[Common(a, b)]
  }

  predicate MissingBetween(a: NodeView, b: NodeView) {
    Compares(a) && Compares(b) && Common(a, b) > 0 && (Common(a, b) !in a.digests || Common(a, b) !in b.digests)
  }

  predicate MissingOwn(n: NodeView) {
    Compares(n) && n.commit.value > 0 && n.commit.value !in n.digests
  }

  ghost predicate ConflictAmong(nodes: seq<NodeView>) {
    exists i, j :: 0 <= i < j < |nodes| && Conflict(nodes[i], nodes[j])
  }

  ghost predicate IncompleteAmong(nodes: seq<NodeView>) {
    || (exists i :: 0 <= i < |nodes| && MissingOwn(nodes[i]))
    || (exists i, j :: 0 <= i < j < |nodes| && MissingBetween(nodes[i], nodes[j]))
  }

  /** What one node is reported for on its own. */
  function OwnFindings(n: NodeView): seq<Finding> {
    (if MissingOwn(n) then [Finding(PrefixIncomplete, n.id)] else [])
    + (if n.commit.Some? && n.applied.Some? && n.applied.value > n.commit.value then [Finding(AppliedExceedsCommit, n.id)] else [])
    + (if n.commit.Some? && n.lastIndex.Some? && n.commit.value > n.lastIndex.value then [Finding(CommitExceedsLog, n.id)] else [])
  }

  function PairFindings(a: NodeView, b: NodeView): seq<Finding> {
    if !Compares(a) || !Compares(b) || Common(a, b) == 0 then []
    else if Common(a, b) !in a.digests || Common(a, b) !in b.digests then
      [Finding(PrefixIncomplete, if Common(a, b) in a.digests then b.id else a.id)]
    else if a.digests[Common(a, b)] != b.digests[Common(a, b)] then [Finding(LogConflict, b.id)]
    else []
  }

  /** What can be held against one node by itself. */
  predicate OwnFault(n: NodeView, code: Code) {
    match code
    case PrefixIncomplete => MissingOwn(n)
    case AppliedExceedsCommit => n.commit.Some? && n.applied.Some? && n.applied.value > n.commit.value
    case CommitExceedsLog => n.commit.Some? && n.lastIndex.Some? && n.commit.value > n.lastIndex.value
    case _ => false
  }

  /** What comparing two nodes reports, and of which one: the one whose digest is
      missing, or the later one when the prefixes differ. */
  predicate PairFault(a: NodeView, b: NodeView, f: Finding) {
    match f.code
    case PrefixIncomplete => MissingBetween(a, b) && f.node == if Common(a, b) in a.digests then b.id else a.id
    case LogConflict => Conflict(a, b) && f.node == b.id
    case _ => false
  }

  predicate NodeFault(leaders: map<nat, nat>, n: NodeView, f: Finding) {
    f.node == n.id && (OwnFault(n, f.code) || (f.code.MultipleLeaders? && Clashes(leaders, n)))
  }

  ghost predicate FaultOfOne(leaders: map<nat, nat>, nodes: seq<NodeView>, f: Finding) {
    exists i :: 0 <= i < |nodes| && NodeFault(Remembered(leaders, nodes[..i]), nodes[i], f)
  }

  ghost predicate FaultOfTwo(nodes: seq<NodeView>, f: Finding) {
    exists i, j :: 0 <= i < j < |nodes| && PairFault(nodes[i], nodes[j], f)
  }

  /** Exactly what an observation is reported for. */
  ghost predicate Faulty(leaders: map<nat, nat>, nodes: seq<NodeView>, f: Finding) {
    FaultOfOne(leaders, nodes, f) || FaultOfTwo(nodes, f)
  }

  lemma OwnFindingsAre(n: NodeView, f: Finding)
    ensures f in OwnFindings(n) <==> f.node == n.id && OwnFault(n, f.code)
  {
  }

  lemma PairFindingsAre(a: NodeView, b: NodeView, f: Finding)
    ensures f in PairFindings(a, b) <==> PairFault(a, b, f)
  {
  }

  lemma FaultsMean(leaders: map<nat, nat>, nodes: seq<NodeView>, f: Finding)
    requires Faulty(leaders, nodes, f)
    ensures f.code.MultipleLeaders? ==> ClashAmong(leaders, nodes)
    ensures f.code.LogConflict? ==> ConflictAmong(nodes)
    ensures f.code.PrefixIncomplete? ==> IncompleteAmong(nodes)
    ensures !f.code.TermRegressed? && !f.code.CommitRegressed? && !f.code.AppliedRegressed?
  {
    hide Remembered, Conflict, MissingBetween, MissingOwn, Clashes;
  }

  lemma ClashIsFault(leaders: map<nat, nat>, nodes: seq<NodeView>)
    requires ClashAmong(leaders, nodes)
    ensures exists f :: Faulty(leaders, nodes, f) && f.code.MultipleLeaders?
  {
    hide Remembered, Clashes;
    var i :| 0 <= i < |nodes| && Clashes(Remembered(leaders, nodes[..i]), nodes[i]);
    var f := Finding(MultipleLeaders, nodes[i].id);
    assert NodeFault(Remembered(leaders, nodes[..i]), nodes[i], f);
    assert Faulty(leaders, nodes, f);
  }

  lemma ConflictIsFault(leaders: map<nat, nat>, nodes: seq<NodeView>)
    requires ConflictAmong(nodes)
    ensures exists f :: Faulty(leaders, nodes, f) && f.code.LogConflict?
  {
    hide Remembered, Conflict;
    var i, j :| 0 <= i < j < |nodes| && Conflict(nodes[i], nodes[j]);
    var f := Finding(LogConflict, nodes[j].id);
    assert PairFault(nodes[i], nodes[j], f);
    assert Faulty(leaders, nodes, f);
  }

  lemma IncompleteIsFault(leaders: map<nat, nat>, nodes: seq<NodeView>)
    requires IncompleteAmong(nodes)
    ensures exists f :: Faulty(leaders, nodes, f) && f.code.PrefixIncomplete?
  {
    hide Remembered, MissingOwn;
    if i :| 0 <= i < |nodes| && MissingOwn(nodes[i]) {
      var f := Finding(PrefixIncomplete, nodes[i].id);
      assert NodeFault(Remembered(leaders, nodes[..i]), nodes[i], f);
      assert Faulty(leaders, nodes, f);
    } else {
      var i, j :| 0 <= i < j < |nodes| && MissingBetween(nodes[i], nodes[j]);
      var missing := if Common(nodes[i], nodes[j]) in nodes[i].digests then nodes[j].id else nodes[i].id;
      var f := Finding(PrefixIncomplete, missing);
      assert PairFault(nodes[i], nodes[j], f);
      assert Faulty(leaders, nodes, f);
    }
  }

  ghost predicate HasCode(findings: seq<Finding>, code: Code) {
    exists f :: f in findings && f.code == code
  }

  lemma RaisesIsMembership(findings: seq<Finding>, code: Code)
    ensures Raises(findings, code) <==> HasCode(findings, code)
  {
    if i :| 0 <= i < |findings| && findings[i].code == code {
      assert findings[i] in findings;
    }
  }

  /** The codes an observation raises, told from its findings. */
  lemma CodesRaised(findings: seq<Finding>, leaders: map<nat, nat>, nodes: seq<NodeView>)
    requires forall f :: f in findings && !f.code.TermRegressed? && !f.code.CommitRegressed? && !f.code.AppliedRegressed?
                         <==> Faulty(leaders, nodes, f)
    ensures Raises(findings, MultipleLeaders) <==> ClashAmong(leaders, nodes)
    ensures Raises(findings, LogConflict) <==> ConflictAmong(nodes)
    ensures Raises(findings, PrefixIncomplete) <==> IncompleteAmong(nodes)
  {
    hide Raises, Faulty, ClashAmong, ConflictAmong, IncompleteAmong;
    RaisesIsMembership(findings, MultipleLeaders);
    RaisesIsMembership(findings, LogConflict);
    RaisesIsMembership(findings, PrefixIncomplete);
    forall f | Faulty(leaders, nodes, f)
      ensures f.code.MultipleLeaders? ==> ClashAmong(leaders, nodes)
      ensures f.code.LogConflict? ==> ConflictAmong(nodes)
      ensures f.code.PrefixIncomplete? ==> IncompleteAmong(nodes)
    {
      FaultsMean(leaders, nodes, f);
    }
    if ClashAmong(leaders, nodes) {
      ClashIsFault(leaders, nodes);
    }
    if ConflictAmong(nodes) {
      ConflictIsFault(leaders, nodes);
    }
    if IncompleteAmong(nodes) {
      IncompleteIsFault(leaders, nodes);
    }
  }

  function MonotonicFindings(before: NodeView, after: NodeView): seq<Finding> {
    Regression(before.term, after.term, TermRegressed, after.id)
    + Regression(before.commit, after.commit, CommitRegressed, after.id)
    + Regression(before.applied, after.applied, AppliedRegressed, after.id)
  }

  function Regression(before: Option<nat>, after: Option<nat>, code: Code, id: nat): seq<Finding> {
    if before.Some? && after.Some? && after.value < before.value then [Finding(code, id)] else []
  }

  /** The node of that ID in an observation; the last one, as in a map. */
  function Lookup(nodes: seq<NodeView>, id: nat): Option<NodeView> {
    if nodes == [] then None
    else if nodes[|nodes| - 1].id == id then Some(nodes[|nodes| - 1])
    else Lookup(nodes[..|nodes| - 1], id)
  }

  /** A restarted node has a new epoch and may fall back. */
  function RegressionsOf(before: seq<NodeView>, after: NodeView): (r: seq<Finding>)
    ensures forall f | f in r :: f.code in {TermRegressed, CommitRegressed, AppliedRegressed}
  {
    var previous := Lookup(before, after.id);
    if previous.Some? && previous.value.epoch == after.epoch then MonotonicFindings(previous.value, after) else []
  }

  function Regressions(before: seq<NodeView>, after: seq<NodeView>): seq<Finding> {
    if after == [] then []
    else Regressions(before, after[..|after| - 1]) + RegressionsOf(before, after[|after| - 1])
  }

  // ---------------------------------------------------------------- what a regression is

  predicate Down(before: Option<nat>, after: Option<nat>) {
    before.Some? && after.Some? && before.value > after.value
  }

  /** One life of a node went back in the value the code is about. */
  predicate Fell(before: NodeView, after: NodeView, code: Code) {
    && before.id == after.id && before.epoch == after.epoch
    && match code
       case TermRegressed => Down(before.term, after.term)
       case CommitRegressed => Down(before.commit, after.commit)
       case AppliedRegressed => Down(before.applied, after.applied)
       case _ => false
  }

  ghost predicate FellBetween(before: seq<NodeView>, after: seq<NodeView>, f: Finding) {
    exists i, j :: 0 <= i < |before| && 0 <= j < |after| && after[j].id == f.node && Fell(before[i], after[j], f.code)
  }

  ghost predicate UniqueIds(nodes: seq<NodeView>) {
    forall i, j :: 0 <= i < j < |nodes| ==> nodes[i].id != nodes[j].id
  }

  lemma {:induction false} LookupFinds(nodes: seq<NodeView>, id: nat)
    ensures Lookup(nodes, id).Some? ==> exists i :: 0 <= i < |nodes| && nodes[i] == Lookup(nodes, id).value && nodes[i].id == id
    ensures UniqueIds(nodes) ==> forall i :: 0 <= i < |nodes| && nodes[i].id == id ==> Lookup(nodes, id) == Some(nodes[i])
  {
    if nodes != [] && nodes[|nodes| - 1].id != id {
      var init := nodes[..|nodes| - 1];
      LookupFinds(init, id);
      if Lookup(nodes, id).Some? {
        var i :| 0 <= i < |init| && init[i] == Lookup(init, id).value && init[i].id == id;
        assert nodes[i] == Lookup(nodes, id).value;
      }
      assert forall i :: 0 <= i < |init| ==> nodes[i] == init[i];
    }
  }

  lemma RegressionsOfOne(before: seq<NodeView>, after: NodeView, f: Finding)
    requires UniqueIds(before)
    ensures f in RegressionsOf(before, after)
        <==> f.node == after.id && exists i :: 0 <= i < |before| && Fell(before[i], after, f.code)
  {
    hide Fell, MonotonicFindings, UniqueIds;
    LookupFinds(before, after.id);
    forall i | 0 <= i < |before|
      ensures before[i].id == after.id && before[i].epoch == after.epoch ==>
                (f in MonotonicFindings(before[i], after) <==> f.node == after.id && Fell(before[i], after, f.code))
      ensures Fell(before[i], after, f.code) ==> before[i].id == after.id && before[i].epoch == after.epoch
    {
      FellIsFound(before[i], after, f);
    }
  }

  lemma FellIsFound(before: NodeView, after: NodeView, f: Finding)
    ensures before.id == after.id && before.epoch == after.epoch ==>
              (f in MonotonicFindings(before, after) <==> f.node == after.id && Fell(before, after, f.code))
    ensures Fell(before, after, f.code) ==> before.id == after.id && before.epoch == after.epoch
  {
  }

  /** A transition's regressions are exactly the values that went down within an epoch. */
  lemma {:induction false} RegressionsAreFalls(before: seq<NodeView>, after: seq<NodeView>, f: Finding)
    requires UniqueIds(before)
    ensures f in Regressions(before, after) <==> FellBetween(before, after, f)
  {
    hide RegressionsOf, Fell, UniqueIds;
    if after != [] {
      var init, last := after[..|after| - 1], after[|after| - 1];
      RegressionsAreFalls(before, init, f);
      RegressionsOfOne(before, last, f);
      assert forall j :: 0 <= j < |init| ==> after[j] == init[j];
    }
  }

  predicate Regressed(f: Finding) {
    f.code.TermRegressed? || f.code.CommitRegressed? || f.code.AppliedRegressed?
  }

  /** Some node's term, commit or applied index went down from one observation to the
      next, without a restart in between. */
  ghost predicate SomethingFell(run: seq<seq<NodeView>>) {
    exists k :: 0 < k < |run| && FellAt(run, k)
  }

  ghost predicate FellAt(run: seq<seq<NodeView>>, k: nat)
    requires 0 < k < |run|
  {
    AnyFall(run[k - 1], run[k])
  }

  ghost predicate AnyFall(before: seq<NodeView>, after: seq<NodeView>) {
    exists f :: FellBetween(before, after, f)
  }

  lemma NeverAFault(leaders: map<nat, nat>, nodes: seq<NodeView>, f: Finding)
    requires Regressed(f)
    ensures !Faulty(leaders, nodes, f)
  {
    hide Remembered, Clashes;
  }

  ghost predicate AllUnique(run: seq<seq<NodeView>>) {
    forall k :: 0 <= k < |run| ==> UniqueIds(run[k])
  }

  lemma NothingFellYet(run: seq<seq<NodeView>>)
    requires run != []
    ensures !SomethingFell(run[..1])
  {
  }

  lemma OneMoreTransition(run: seq<seq<NodeView>>, i: nat, findings: seq<Finding>)
    requires 0 < i < |run| && AllUnique(run)
    requires forall f :: Regressed(f) ==> (f in findings <==> FellBetween(run[i - 1], run[i], f))
    ensures SomethingFell(run[..i + 1]) <==> SomethingFell(run[..i]) || AnyRegression(findings)
  {
    hide FellBetween, UniqueIds;
    if FellAt(run, i) {
      var f :| FellBetween(run[i - 1], run[i], f);
      FallsAreRegressions(run[i - 1], run[i], f);
      assert f in findings;
    }
    if AnyRegression(findings) {
      var f :| f in findings && Regressed(f);
      assert FellBetween(run[i - 1], run[i], f);
      assert FellAt(run, i);
    }
    LaterTransition(run, i);
  }

  lemma LaterTransition(run: seq<seq<NodeView>>, i: nat)
    requires 0 < i < |run|
    ensures SomethingFell(run[..i + 1]) <==> SomethingFell(run[..i]) || FellAt(run, i)
  {
    hide AnyFall;
    forall k | 0 < k <= i
      ensures FellAt(run[..i + 1], k) <==> FellAt(run, k)
      ensures k < i ==> (FellAt(run[..i], k) <==> FellAt(run, k))
    {
    }
    if FellAt(run, i) {
      assert FellAt(run[..i + 1], i);
    }
    if SomethingFell(run[..i]) {
      var k :| 0 < k < i && FellAt(run[..i], k);
      assert FellAt(run[..i + 1], k);
    }
    if SomethingFell(run[..i + 1]) && !FellAt(run, i) {
      var k :| 0 < k <= i && FellAt(run[..i + 1], k);
      assert FellAt(run[..i], k);
    }
  }

  lemma PreviousIsUnique(run: seq<seq<NodeView>>, i: nat)
    requires i < |run| && AllUnique(run)
    ensures UniqueIds(run[i])
  {
  }

  lemma FallsAreRegressions(before: seq<NodeView>, after: seq<NodeView>, f: Finding)
    requires FellBetween(before, after, f)
    ensures Regressed(f)
  {
  }

  predicate AnyRegression(findings: seq<Finding>)
    ensures AnyRegression(findings) <==> exists f :: f in findings && Regressed(f)
  {
    exists i :: 0 <= i < |findings| && Regressed(findings[i])
  }

  // ---------------------------------------------------------------- the checker object

  class Checker {
    var leadersByTerm: map<nat, nat>

    constructor ()
      ensures leadersByTerm == map[]
    {
      leadersByTerm := map[];
    }

    /** One node: its own findings, and its place in the leader table. */
    method CheckNode(node: NodeView) returns (findings: seq<Finding>)
      modifies this
      ensures leadersByTerm == Remember(old(leadersByTerm), node)
      ensures forall f :: f in findings <==> NodeFault(old(leadersByTerm), node, f)
    {
      findings := OwnFindings(node);
      forall f
        ensures f in findings <==> f.node == node.id && OwnFault(node, f.code)
      {
        OwnFindingsAre(node, f);
      }
      hide OwnFindings, OwnFault;
      if node.running && node.leader && node.term.Some? {
        var term := node.term.value;
        if term in leadersByTerm && leadersByTerm[term] != node.id {
          findings := findings + [Finding(MultipleLeaders, node.id)];
        } else {
          leadersByTerm := leadersByTerm[term := node.id];
        }
      }
    }

    method CheckNodes(nodes: seq<NodeView>) returns (findings: seq<Finding>)
      modifies this
      ensures leadersByTerm == Remembered(old(leadersByTerm), nodes)
      ensures forall f :: f in findings <==> FaultOfOne(old(leadersByTerm), nodes, f)
    {
      hide FaultOfOne, NodeFault;
      findings := [];
      NoFaultYet(leadersByTerm);
      for i := 0 to |nodes|
        invariant leadersByTerm == Remembered(old(leadersByTerm), nodes[..i])
        invariant forall f :: f in findings <==> FaultOfOne(old(leadersByTerm), nodes[..i], f)
      {
        assert nodes[..i + 1] == nodes[..i] + [nodes[i]];
        assert nodes[..i + 1][..i] == nodes[..i];
        forall f
          ensures FaultOfOne(old(leadersByTerm), nodes[..i + 1], f)
              <==> FaultOfOne(old(leadersByTerm), nodes[..i], f) || NodeFault(leadersByTerm, nodes[i], f)
        {
          OneMoreNode(old(leadersByTerm), nodes[..i], nodes[i], f);
        }
        var current := CheckNode(nodes[i]);
        findings := findings + current;
      }
      assert nodes[..|nodes|] == nodes;
    }

    /** The comparison of every two nodes whose prefixes are available. */
    method ComparePrefixes(nodes: seq<NodeView>) returns (findings: seq<Finding>)
      ensures forall f :: f in findings <==> FaultOfTwo(nodes, f)
    {
      hide PairFault, PairFindings;
      findings := [];
      for left := 0 to |nodes|
        invariant forall f :: f in findings <==> exists i, j :: 0 <= i < left && i < j < |nodes| && PairFault(nodes[i], nodes[j], f)
      {
        ghost var before := findings;
        for right := left + 1 to |nodes|
          invariant forall f :: f in findings <==> f in before || exists j :: left < j < right && PairFault(nodes[left], nodes[j], f)
        {
          forall f
            ensures f in PairFindings(nodes[left], nodes[right]) <==> PairFault(nodes[left], nodes[right], f)
          {
            PairFindingsAre(nodes[left], nodes[right], f);
          }
          findings := findings + PairFindings(nodes[left], nodes[right]);
        }
      }
    }

    /** Each finding, with the node it names, is reported exactly when its fault is there. */
    method CheckObservation(nodes: seq<NodeView>) returns (findings: seq<Finding>)
      modifies this
      ensures leadersByTerm == Remembered(old(leadersByTerm), nodes)
      ensures forall f :: f in findings <==> Faulty(old(leadersByTerm), nodes, f)
    {
      hide FaultOfOne, FaultOfTwo;
      findings := CheckNodes(nodes);
      var pairs := ComparePrefixes(nodes);
      findings := findings + pairs;
    }

    /** One transition: regressions against the node's earlier self, then the new state. */
    method Check(before: seq<NodeView>, after: seq<NodeView>) returns (findings: seq<Finding>)
      modifies this
      ensures leadersByTerm == Remembered(old(leadersByTerm), after)
      ensures Regressions(before, after) <= findings
      ensures forall f :: f in findings <==> f in Regressions(before, after) || Faulty(old(leadersByTerm), after, f)
      ensures UniqueIds(before) ==> forall f :: Regressed(f) ==> (f in findings <==> FellBetween(before, after, f))
    {
      hide Faulty, RegressionsOf, UniqueIds, FellBetween;
      ghost var leaders := leadersByTerm;
      findings := [];
      for i := 0 to |after|
        invariant findings == Regressions(before, after[..i])
      {
        assert after[..i + 1][..i] == after[..i];
        findings := findings + RegressionsOf(before, after[i]);
      }
      assert after[..|after|] == after;
      var observed := CheckObservation(after);
      findings := findings + observed;
      forall f | Regressed(f) && UniqueIds(before)
        ensures f in findings <==> FellBetween(before, after, f)
      {
        RegressionsAreFalls(before, after, f);
        NeverAFault(leaders, after, f);
      }
    }

    /** Reset, and then one Check per transition: the whole online run. */
    method Watch(initial: seq<NodeView>, rest: seq<seq<NodeView>>) returns (multipleLeaders: bool, regressed: bool)
      modifies this
      ensures multipleLeaders <==> TwoLeaders(initial + Flattened(rest))
      ensures AllUnique([initial] + rest) ==> (regressed <==> SomethingFell([initial] + rest))
    {
      hide ClashAmong, Remembered, Faulty, Regressions, Raises, UniqueIds, FellBetween, SomethingFell, AllUnique;
      NoClash(map[]);
      RememberedNone();
      leadersByTerm := map[];
      var findings := CheckObservation(initial);
      NoRegressionYet();
      LeadersRaised(findings, [], [], map[], initial);
      ghost var seen := initial;
      multipleLeaders, regressed := Has(findings, MultipleLeaders), false;
      ghost var run := [initial] + rest;
      NothingFellYet(run);
      for i := 0 to |rest|
        invariant seen == initial + Flattened(rest[..i])
        invariant leadersByTerm == Remembered(map[], seen)
        invariant multipleLeaders <==> ClashAmong(map[], seen)
        invariant AllUnique(run) ==> (regressed <==> SomethingFell(run[..i + 1]))
      {
        var previous := if i == 0 then initial else rest[i - 1];
        findings := Check(previous, rest[i]);
        LeadersRaised(findings, previous, rest[i], Remembered(map[], seen), rest[i]);
        ClashesConcat(seen, rest[i]);
        assert rest[..i + 1][..i] == rest[..i];
        assert seen + rest[i] == initial + Flattened(rest[..i + 1]);
        seen := seen + rest[i];
        multipleLeaders := multipleLeaders || Has(findings, MultipleLeaders);
        if AllUnique(run) {
          PreviousIsUnique(run, i);
          OneMoreTransition(run, i + 1, findings);
        }
        regressed := regressed || AnyRegression(findings);
      }
      assert rest[..|rest|] == rest && run[..|rest| + 1] == run;
      LeaderCheckIsExact(seen);
    }
  }

  /** Regressions never count as leaders, conflicts or missing digests. */
  lemma LeadersRaised(findings: seq<Finding>, before: seq<NodeView>, after: seq<NodeView>, leaders: map<nat, nat>, nodes: seq<NodeView>)
    requires forall f :: f in findings <==> f in Regressions(before, after) || Faulty(leaders, nodes, f)
    ensures Raises(findings, MultipleLeaders) <==> ClashAmong(leaders, nodes)
    ensures Raises(findings, LogConflict) <==> ConflictAmong(nodes)
    ensures Raises(findings, PrefixIncomplete) <==> IncompleteAmong(nodes)
  {
    hide Raises, ClashAmong, ConflictAmong, IncompleteAmong, Regressions, Faulty;
    RegressionCodes(before, after);
    forall f | Faulty(leaders, nodes, f)
      ensures !f.code.TermRegressed? && !f.code.CommitRegressed? && !f.code.AppliedRegressed?
    {
      FaultsMean(leaders, nodes, f);
    }
    CodesRaised(findings, leaders, nodes);
  }

  lemma {:induction false} RegressionCodes(before: seq<NodeView>, after: seq<NodeView>)
    ensures forall f | f in Regressions(before, after) :: f.code in {TermRegressed, CommitRegressed, AppliedRegressed}
  {
    if after != [] {
      RegressionCodes(before, after[..|after| - 1]);
    }
  }

  lemma NoRegressionYet()
    ensures Regressions([], []) == []
  {
  }

  lemma NoFaultYet(leaders: map<nat, nat>)
    ensures forall f :: !FaultOfOne(leaders, [], f)
  {
  }

  lemma OneMoreNode(leaders: map<nat, nat>, nodes: seq<NodeView>, last: NodeView, f: Finding)
    ensures FaultOfOne(leaders, nodes + [last], f)
        <==> FaultOfOne(leaders, nodes, f) || NodeFault(Remembered(leaders, nodes), last, f)
  {
    hide NodeFault, Remembered;
    var longer := nodes + [last];
    assert longer[..|nodes|] == nodes && longer[|nodes|] == last;
    assert forall i :: 0 <= i < |nodes| ==> longer[..i] == nodes[..i] && longer[i] == nodes[i];
    if NodeFault(Remembered(leaders, nodes), last, f) {
      assert NodeFault(Remembered(leaders, longer[..|nodes|]), longer[|nodes|], f);
    }
  }

  predicate Has(findings: seq<Finding>, code: Code)
    ensures Has(findings, code) <==> Raises(findings, code)
  {
    exists i :: 0 <= i < |findings| && findings[i].code == code
  }

  function Flattened(observations: seq<seq<NodeView>>): seq<NodeView> {
    if observations == [] then [] else Flattened(observations[..|observations| - 1]) + observations[|observations| - 1]
  }

  lemma {:induction false} RememberedConcat(leaders: map<nat, nat>, a: seq<NodeView>, b: seq<NodeView>)
    ensures Remembered(leaders, a + b) == Remembered(Remembered(leaders, a), b)
  {
    if b == [] {
      assert a + b == a;
    } else {
      RememberedConcat(leaders, a, b[..|b| - 1]);
      assert (a + b)[..|a + b| - 1] == a + b[..|b| - 1];
    }
  }

  lemma {:induction false} ClashesConcat(a: seq<NodeView>, b: seq<NodeView>)
    ensures Remembered(map[], a + b) == Remembered(Remembered(map[], a), b)
    ensures ClashAmong(map[], a + b) <==> ClashAmong(map[], a) || ClashAmong(Remembered(map[], a), b)
  {
    hide ClashAmong;
    RememberedConcat(map[], a, b);
    if b == [] {
      assert a + b == a;
      NoClash(Remembered(map[], a));
    } else {
      var init, last := b[..|b| - 1], b[|b| - 1];
      ClashesConcat(a, init);
      ClashExtend(map[], a + init, last);
      ClashExtend(Remembered(map[], a), init, last);
      assert a + b == (a + init) + [last] && b == init + [last];
    }
  }

  lemma RememberedNone()
    ensures forall leaders :: Remembered(leaders, []) == leaders
  {
  }

  lemma NoClash(leaders: map<nat, nat>)
    ensures !ClashAmong(leaders, [])
  {
  }

  lemma ClashExtend(leaders: map<nat, nat>, nodes: seq<NodeView>, last: NodeView)
    ensures ClashAmong(leaders, nodes + [last]) <==> ClashAmong(leaders, nodes) || Clashes(Remembered(leaders, nodes), last)
  {
    var longer := nodes + [last];
    assert longer[..|nodes|] == nodes && longer[|nodes|] == last;
    assert forall i :: 0 <= i < |nodes| ==> longer[..i] == nodes[..i] && longer[i] == nodes[i];
    if Clashes(Remembered(leaders, nodes), last) {
      assert Clashes(Remembered(leaders, longer[..|nodes|]), longer[|nodes|]);
    }
  }

  // ---------------------------------------------------------------- the adapter's observations

  /** A node as the adapter holds it: `log` is what it has recorded as committed. */
  datatype Member = Member(id: nat, epoch: nat, running: bool, leader: bool, term: nat, commit: nat, lastIndex: nat,
                           log: seq<S.Entry>)

  /** Its digest map has exactly the keys 0..applied. */
  function DigestsOf(m: Member, enabled: bool): map<nat, S.Digest> {
    map i: nat | i <= |m.log| :: S.DigestOf(m.log, enabled, i)
  }

  function Commits(members: seq<Member>): set<int> {
    set m | m in members && m.commit != 0 :: m.commit
  }

  lemma CommitsStep(members: seq<Member>, last: Member)
    ensures Commits(members + [last]) == Commits(members) + (if last.commit != 0 then {last.commit} else {})
  {
    forall c | c in Commits(members) + (if last.commit != 0 then {last.commit} else {})
      ensures c in Commits(members + [last])
    {
      if c in Commits(members) {
        var m :| m in members && m.commit == c;
        assert m in members + [last];
      } else {
        assert last in members + [last];
      }
    }
  }

  method CommittedCheckpoints(members: seq<Member>) returns (checkpoints: seq<int>)
    ensures Elements(checkpoints) == Commits(members) && Distinct(checkpoints)
  {
    checkpoints := [];
    for i := 0 to |members|
      invariant Elements(checkpoints) == Commits(members[..i]) && Distinct(checkpoints)
    {
      assert members[..i + 1] == members[..i] + [members[i]];
      var commit := members[i].commit;
      CommitsStep(members[..i], members[i]);
      assert commit in Elements(checkpoints) <==> commit in checkpoints;
      assert Elements(checkpoints + [commit]) == Elements(checkpoints) + {commit};
      if commit != 0 && commit !in checkpoints {
        checkpoints := checkpoints + [commit];
      }
    }
    assert members[..|members|] == members;
  }

  /** The checkpoints a node has committed, when it has a digest for each of them. */
  function Exposed(digests: map<nat, S.Digest>, commit: nat, checkpoints: set<int>): Option<map<nat, S.Digest>> {
    if forall c | c in checkpoints && 0 < c <= commit :: c in digests
    then Some(map c: nat | c in checkpoints && 0 < c <= commit :: digests[c])
    else None
  }

  lemma ExposedStep(digests: map<nat, S.Digest>, commit: nat, checkpoints: set<int>, index: int)
    requires Exposed(digests, commit, checkpoints).Some?
    ensures !(0 < index <= commit) ==>
              Exposed(digests, commit, checkpoints + {index}) == Exposed(digests, commit, checkpoints)
    ensures 0 < index <= commit && index in digests ==>
              (Exposed(digests, commit, checkpoints + {index})
               == Some(Exposed(digests, commit, checkpoints).value[index := digests[index]]))
  {
    var before := Exposed(digests, commit, checkpoints).value;
    var more := checkpoints + {index};
    assert forall c | c in more && 0 < c <= commit :: c in checkpoints || c == index;
    if !(0 < index <= commit) {
      assert Exposed(digests, commit, more).value == before;
    } else if index in digests {
      assert Exposed(digests, commit, more).value == before[index := digests[index]];
    }
  }

  method CommittedPrefixDigests(digests: map<nat, S.Digest>, commit: nat, checkpoints: seq<int>)
      returns (result: Option<map<nat, S.Digest>>)
    ensures result == Exposed(digests, commit, Elements(checkpoints))
  {
    var found: map<nat, S.Digest> := map[];
    for i := 0 to |checkpoints|
      invariant Exposed(digests, commit, Elements(checkpoints[..i])) == Some(found)
    {
      assert checkpoints[..i + 1] == checkpoints[..i] + [checkpoints[i]];
      assert Elements(checkpoints[..i + 1]) == Elements(checkpoints[..i]) + {checkpoints[i]};
      var index := checkpoints[i];
      ExposedStep(digests, commit, Elements(checkpoints[..i]), index);
      if 0 < index <= commit {
        if index !in digests {
          assert index in Elements(checkpoints);
          return None;
        }
        found := found[index := digests[index]];
      }
    }
    assert checkpoints[..|checkpoints|] == checkpoints;
    result := Some(found);
  }

  function ViewOf(m: Member, enabled: bool, checkpoints: set<int>): NodeView {
    var exposed := Exposed(DigestsOf(m, enabled), m.commit, checkpoints);
    NodeView(m.id, m.epoch, m.running, m.leader, Some(m.term), Some(m.commit), Some(|m.log|), Some(m.lastIndex),
             exposed.Some?, if exposed.Some? then exposed.value else map[])
  }

  function ObservationOf(members: seq<Member>, enabled: bool): seq<NodeView> {
    seq(|members|, i requires 0 <= i < |members| => ViewOf(members[i], enabled, Commits(members)))
  }

  lemma ExposesBelowCommit(members: seq<Member>, enabled: bool, i: nat, j: nat)
    requires i < |members| && j < |members| && 0 < members[j].commit <= members[i].commit
    ensures var v := ObservationOf(members, enabled)[i];
            && (v.available ==> members[j].commit in v.digests && members[j].commit <= |members[i].log|)
            && (v.available ==> v.digests[members[j].commit] == S.DigestOf(members[i].log, enabled, members[j].commit))
  {
    assert members[j] in members && members[j].commit in Commits(members);
  }

  /** On the adapter's own observations the oracle never misses a digest. */
  lemma NeverIncomplete(members: seq<Member>, enabled: bool)
    ensures !IncompleteAmong(ObservationOf(members, enabled))
  {
    var views := ObservationOf(members, enabled);
    forall i, j | 0 <= i < |views| && 0 <= j < |views|
      ensures !MissingOwn(views[i]) && !MissingBetween(views[i], views[j])
    {
      if members[i].commit > 0 {
        ExposesBelowCommit(members, enabled, i, i);
      }
      var low := if members[j].commit < members[i].commit then j else i;
      if members[low].commit > 0 {
        ExposesBelowCommit(members, enabled, i, low);
        ExposesBelowCommit(members, enabled, j, low);
      }
    }
  }

  /** Two nodes with available prefixes disagree about what is committed at both. */
  ghost predicate Diverge(a: Member, b: Member, viewA: NodeView, viewB: NodeView) {
    && viewA.available && viewB.available
    && var common := if b.commit < a.commit then b.commit else a.commit;
       common <= |a.log| && common <= |b.log| && a.log[..common] != b.log[..common]
  }

  lemma ConflictIsDivergence(members: seq<Member>, enabled: bool, i: nat, j: nat)
    requires i < |members| && j < |members|
    ensures var views := ObservationOf(members, enabled);
            Conflict(views[i], views[j]) <==> Diverge(members[i], members[j], views[i], views[j])
  {
    var low := if members[j].commit < members[i].commit then j else i;
    if members[low].commit > 0 {
      ExposesBelowCommit(members, enabled, i, low);
      ExposesBelowCommit(members, enabled, j, low);
      var common := members[low].commit;
      if common <= |members[i].log| && common <= |members[j].log| {
        S.DigestDeterminesPrefix(members[i].log, members[j].log, enabled, common);
      }
    }
  }

  /** A conflict is reported exactly when two nodes' committed logs differ somewhere
      up to the smaller commit index. */
  lemma ConflictCheckIsExact(members: seq<Member>, enabled: bool)
    ensures var views := ObservationOf(members, enabled);
            ConflictAmong(views) <==>
              (exists i, j :: 0 <= i < j < |members| && Diverge(members[i], members[j], views[i], views[j]))
  {
    var views := ObservationOf(members, enabled);
    forall i, j | 0 <= i < |members| && 0 <= j < |members|
      ensures Conflict(views[i], views[j]) <==> Diverge(members[i], members[j], views[i], views[j])
    {
      ConflictIsDivergence(members, enabled, i, j);
    }
  }

  // ---------------------------------------------------------------- what the reports mean for the nodes

  ghost predicate AnyMember(members: seq<Member>, id: nat, holds: Member -> bool) {
    exists i :: 0 <= i < |members| && members[i].id == id && holds(members[i])
  }

  /** A node is reported on its own exactly when it applied more than it committed, or
      committed more than its log holds. */
  lemma OwnReports(members: seq<Member>, enabled: bool, leaders: map<nat, nat>, id: nat)
    ensures Faulty(leaders, ObservationOf(members, enabled), Finding(AppliedExceedsCommit, id))
        <==> AnyMember(members, id, (m: Member) => m.commit < |m.log|)
    ensures Faulty(leaders, ObservationOf(members, enabled), Finding(CommitExceedsLog, id))
        <==> AnyMember(members, id, (m: Member) => m.lastIndex < m.commit)
  {
    hide Remembered, Exposed, DigestsOf, Commits;
    OwnReport(members, enabled, leaders, Finding(AppliedExceedsCommit, id), (m: Member) => m.commit < |m.log|);
    OwnReport(members, enabled, leaders, Finding(CommitExceedsLog, id), (m: Member) => m.lastIndex < m.commit);
  }

  lemma OwnReport(members: seq<Member>, enabled: bool, leaders: map<nat, nat>, f: Finding, holds: Member -> bool)
    requires f.code.AppliedExceedsCommit? || f.code.CommitExceedsLog?
    requires forall m | m in members :: OwnFault(ViewOf(m, enabled, Commits(members)), f.code) <==> holds(m)
    ensures Faulty(leaders, ObservationOf(members, enabled), f) <==> AnyMember(members, f.node, holds)
  {
    hide Remembered, Exposed, DigestsOf, Commits, OwnFault;
    var views := ObservationOf(members, enabled);
    if i :| 0 <= i < |members| && members[i].id == f.node && holds(members[i]) {
      assert NodeFault(Remembered(leaders, views[..i]), views[i], f);
    }
    if FaultOfOne(leaders, views, f) {
      var i :| 0 <= i < |views| && NodeFault(Remembered(leaders, views[..i]), views[i], f);
      assert members[i] in members && members[i].id == f.node && holds(members[i]);
    }
  }

  /** Leaders count while they run. */
  lemma LeadersAreRunning(members: seq<Member>, enabled: bool)
    ensures TwoLeaders(ObservationOf(members, enabled))
        <==> exists i, j :: 0 <= i < j < |members|
               && (members[i].running && members[i].leader) && (members[j].running && members[j].leader)
               && members[i].term == members[j].term && members[i].id != members[j].id
  {
    hide Exposed, DigestsOf, Commits;
    var views := ObservationOf(members, enabled);
    forall i, j | 0 <= i < j < |members|
      ensures SameTermOtherNode(views[i], views[j])
          <==> && (members[i].running && members[i].leader) && (members[j].running && members[j].leader)
               && members[i].term == members[j].term && members[i].id != members[j].id
    {
    }
  }

  /** The node lives through these observations in one epoch, with all its values shown. */
  ghost predicate LivesThrough(run: seq<seq<NodeView>>, id: nat, epoch: nat, first: nat, last: nat)
    requires first <= last < |run|
  {
    forall k :: first <= k <= last ==>
      && Lookup(run[k], id).Some?
      && var n := Lookup(run[k], id).value; n.epoch == epoch && n.term.Some? && n.commit.Some? && n.applied.Some?
  }

  predicate Grown(a: NodeView, b: NodeView)
    requires a.term.Some? && a.commit.Some? && a.applied.Some? && b.term.Some? && b.commit.Some? && b.applied.Some?
  {
    a.term.value <= b.term.value && a.commit.value <= b.commit.value && a.applied.value <= b.applied.value
  }

  /** Without regressions every value only grows as long as the node lives. */
  lemma {:induction false} NothingFellMeansGrowth(run: seq<seq<NodeView>>, id: nat, epoch: nat, first: nat, last: nat)
    requires AllUnique(run) && !SomethingFell(run) && first <= last < |run| && LivesThrough(run, id, epoch, first, last)
    ensures Grown(Lookup(run[first], id).value, Lookup(run[last], id).value)
    decreases last
  {
    hide SomethingFell, AllUnique, UniqueIds, Fell;
    if first < last {
      NothingFellMeansGrowth(run, id, epoch, first, last - 1);
      NoFallHere(run, id, last);
    }
  }

  predicate NotDown(a: NodeView, b: NodeView) {
    !Down(a.term, b.term) && !Down(a.commit, b.commit) && !Down(a.applied, b.applied)
  }

  lemma NoFallHere(run: seq<seq<NodeView>>, id: nat, k: nat)
    requires AllUnique(run) && !SomethingFell(run) && 0 < k < |run|
    requires Lookup(run[k - 1], id).Some? && Lookup(run[k], id).Some?
    requires Lookup(run[k - 1], id).value.epoch == Lookup(run[k], id).value.epoch
    ensures NotDown(Lookup(run[k - 1], id).value, Lookup(run[k], id).value)
  {
    hide UniqueIds, Fell;
    LookupFinds(run[k - 1], id);
    LookupFinds(run[k], id);
    var a, b := Lookup(run[k - 1], id).value, Lookup(run[k], id).value;
    assert !FellAt(run, k);
    assert forall code :: Fell(a, b, code) ==> FellBetween(run[k - 1], run[k], Finding(code, id));
    FellWhen(a, b);
  }

  lemma FellWhen(a: NodeView, b: NodeView)
    requires a.id == b.id && a.epoch == b.epoch && forall code :: !Fell(a, b, code)
    ensures NotDown(a, b)
  {
    assert !Fell(a, b, TermRegressed) && !Fell(a, b, CommitRegressed) && !Fell(a, b, AppliedRegressed);
  }
}
