/** The committed-prefix digests a node keeps, the snapshots it makes and installs,
    and why all nodes agree on every digest. */
module Snapshots {
  import opened Keys

  datatype Entry = Entry(index: nat, term: nat, data: int, conf: bool)

  /** SHA-256 as a free constructor: equal digests have equal preimages. With
      snapshots enabled a digest hashes the previous digest and the entry; without,
      one running hash takes the entries one after the other. */
  datatype Digest = Base | Chained(previous: Digest, entry: Entry) | Streamed(entries: seq<Entry>)

  const DATA_VERSION: nat := 1

  datatype SnapshotData = SnapshotData(version: nat, index: nat, digests: seq<Digest>)

  /** No data is what the storage's initial snapshot carries. */
  datatype Snapshot = Snapshot(index: nat, data: Option<SnapshotData>)

  /** A threshold of zero disables snapshots. */
  datatype Policy = Policy(threshold: nat, retain: nat)

  /** `stored` and `firstIndex` belong to the storage, `lastSnapshot` to the node. */
  datatype State = State(applied: nat, digests: map<nat, Digest>, running: Option<seq<Entry>>, enabled: bool,
                         lastSnapshot: nat, stored: Snapshot, firstIndex: nat,
                         created: nat, installed: nat, compactions: nat, compactedEntries: nat)

  /** newNode: an empty log, with the storage's index-0 snapshot already in place. */
  function NewNode(policy: Policy): State {
    State(0, map[0 := Base], Some([]), policy.threshold > 0, 0, Snapshot(0, None), 1, 0, 0, 0, 0)
  }

  // ---------------------------------------------------------------- specification

  function Recorded(s: State, e: Entry): Option<State> {
    if e.index == 0 then None
    else if e.index <= s.applied then Some(s)
    else if e.index != s.applied + 1 then None
    else if !s.enabled then
      if s.running.None? then None
      else
        var entries := s.running.value + [e];
        Some(s.(applied := e.index, digests := s.digests[e.index := Streamed(entries)], running := Some(entries)))
    else if s.applied !in s.digests then None
    else Some(s.(applied := e.index, digests := s.digests[e.index := Chained(s.digests[s.applied], e)]))
  }

  predicate HasPrefix(digests: map<nat, Digest>, index: nat) {
    forall i :: 0 <= i <= index ==> i in digests
  }

  function PrefixList(digests: map<nat, Digest>, index: nat): seq<Digest>
    requires HasPrefix(digests, index)
  {
    seq(index + 1, i requires 0 <= i <= index => digests[i])
  }

  function DataAt(s: State, index: nat): Option<SnapshotData> {
    if HasPrefix(s.digests, index) then Some(SnapshotData(DATA_VERSION, index, PrefixList(s.digests, index))) else None
  }

  function Decoded(snapshot: Snapshot): Option<seq<Digest>> {
    if snapshot.data.None? then
      if snapshot.index == 0 then Some([Base]) else None
    else
      var data := snapshot.data.value;
      if data.version != DATA_VERSION || data.index != snapshot.index || |data.digests| != snapshot.index + 1 then None
      else Some(data.digests)
  }

  function DigestMap(list: seq<Digest>): map<nat, Digest> {
    map i: nat | i < |list| :: list[i]
  }

  function PrefixRestored(s: State, snapshot: Snapshot): Option<State> {
    var list := Decoded(snapshot);
    if list.None? || |list.value| <= snapshot.index then None
    else if snapshot.index in s.digests && s.digests[snapshot.index] != list.value[snapshot.index] then None
    else Some(s.(digests := DigestMap(list.value), running := None))
  }

  predicate Stale(s: State, snapshot: Snapshot) {
    snapshot.index <= s.lastSnapshot || snapshot.index < s.applied
  }

  /** applyReadySnapshot. When the storage already has a newer snapshot the digests
      have been replaced all the same. */
  function Installed(s: State, snapshot: Snapshot): Option<State> {
    if Stale(s, snapshot) then Some(s)
    else
      var restored := PrefixRestored(s, snapshot);
      if restored.None? then None
      else if s.stored.index >= snapshot.index then restored
      else Some(restored.value.(applied := snapshot.index, lastSnapshot := snapshot.index, stored := snapshot,
                                firstIndex := snapshot.index + 1, installed := s.installed + 1))
  }

  /** The storage's CreateSnapshot at `applied`; out of date changes nothing. */
  function SnapshotTaken(s: State, data: SnapshotData): State {
    if s.applied <= s.stored.index then s
    else s.(stored := Snapshot(s.applied, Some(data)), lastSnapshot := s.applied, created := s.created + 1)
  }

  function Compacted(s: State, retain: nat): State {
    if s.lastSnapshot > retain && s.lastSnapshot - retain >= s.firstIndex then
      s.(firstIndex := s.lastSnapshot - retain + 1, compactions := s.compactions + 1,
         compactedEntries := s.compactedEntries + (s.lastSnapshot - retain - s.firstIndex + 1))
    else s
  }

  predicate SnapshotDue(s: State, policy: Policy) {
    policy.threshold != 0 && s.applied != 0 && s.applied > s.lastSnapshot && s.applied - s.lastSnapshot >= policy.threshold
  }

  function MaybeSnapshotted(s: State, policy: Policy): Option<State> {
    if !SnapshotDue(s, policy) then Some(s)
    else
      var data := DataAt(s, s.applied);
      if data.None? then None
      else if s.applied <= s.stored.index then Some(s)
      else Some(Compacted(SnapshotTaken(s, data.value), policy.retain))
  }

  /** A configuration change keeps its members in a snapshot of its own. */
  function ConfSnapshotted(s: State): Option<State> {
    var data := DataAt(s, s.applied);
    if data.None? || s.applied <= s.stored.index then None
    else Some(s.(stored := Snapshot(s.applied, data), lastSnapshot := s.applied))
  }

  /** applyCommittedEntry. */
  function CommittedApplied(s: State, e: Entry): Option<State> {
    var recorded := Recorded(s, e);
    if recorded.None? || !e.conf then recorded else ConfSnapshotted(recorded.value)
  }

  // ---------------------------------------------------------------- the node object

  class Node {
    var applied: nat
    var prefixDigests: map<nat, Digest>
    var prefixHash: Option<seq<Entry>>
    const snapshotEnabled: bool
    var lastSnapshotIndex: nat
    var stored: Snapshot
    var firstIndex: nat
    var snapshotsCreated: nat
    var snapshotsApplied: nat
    var logsCompacted: nat
    var compactedEntries: nat

    function View(): State
      reads this
    {
      State(applied, prefixDigests, prefixHash, snapshotEnabled, lastSnapshotIndex, stored, firstIndex,
            snapshotsCreated, snapshotsApplied, logsCompacted, compactedEntries)
    }

    constructor (policy: Policy)
      ensures View() == NewNode(policy)
    {
      applied, prefixDigests, prefixHash := 0, map[0 := Base], Some([]);
      snapshotEnabled := policy.threshold > 0;
      lastSnapshotIndex, stored, firstIndex := 0, Snapshot(0, None), 1;
      snapshotsCreated, snapshotsApplied, logsCompacted, compactedEntries := 0, 0, 0, 0;
    }

    method RecordCommitted(e: Entry) returns (ok: bool)
      modifies this`applied, this`prefixDigests, this`prefixHash
      ensures ok <==> Recorded(old(View()), e).Some?
      ensures View() == if ok then Recorded(old(View()), e).value else old(View())
    {
      if e.index == 0 {
        return false;
      }
      if e.index <= applied {
        return true;
      }
      if e.index != applied + 1 {
        return false;
      }
      if !snapshotEnabled {
        if prefixHash.None? {
          return false;
        }
        prefixHash := Some(prefixHash.value + [e]);
        prefixDigests := prefixDigests[e.index := Streamed(prefixHash.value)];
        applied := e.index;
        return true;
      }
      if e.index - 1 !in prefixDigests {
        return false;
      }
      prefixDigests := prefixDigests[e.index := Chained(prefixDigests[e.index - 1], e)];
      applied := e.index;
      ok := true;
    }

    method BuildData(index: nat) returns (data: Option<SnapshotData>)
      ensures data == DataAt(View(), index)
    {
      var digests: seq<Digest> := [];
      for current := 0 to index + 1
        invariant |digests| == current
        invariant forall i :: 0 <= i < current ==> i in prefixDigests && digests[i] == prefixDigests[i]
      {
        if current !in prefixDigests {
          return None;
        }
        digests := digests + [prefixDigests[current]];
      }
      assert digests == PrefixList(prefixDigests, index);
      data := Some(SnapshotData(DATA_VERSION, index, digests));
    }

    method RestorePrefix(snapshot: Snapshot) returns (ok: bool)
      modifies this`prefixDigests, this`prefixHash
      ensures ok <==> PrefixRestored(old(View()), snapshot).Some?
      ensures View() == if ok then PrefixRestored(old(View()), snapshot).value else old(View())
    {
      var list := Decoded(snapshot);
      if list.None? {
        return false;
      }
      if snapshot.index in prefixDigests && prefixDigests[snapshot.index] != list.value[snapshot.index] {
        return false;
      }
      var restored: map<nat, Digest> := map[];
      for position := 0 to |list.value|
        invariant restored == DigestMap(list.value[..position])
      {
        restored := restored[position := list.value[position]];
      }
      assert list.value[..|list.value|] == list.value;
      prefixDigests, prefixHash := restored, None;
      ok := true;
    }

    method ApplyReadySnapshot(snapshot: Snapshot) returns (ok: bool)
      modifies this
      ensures ok <==> Installed(old(View()), snapshot).Some?
      ensures View() == if ok then Installed(old(View()), snapshot).value else old(View())
    {
      if snapshot.index <= lastSnapshotIndex || snapshot.index < applied {
        return true;
      }
      ok := RestorePrefix(snapshot);
      if !ok || stored.index >= snapshot.index {
        return;
      }
      stored, firstIndex := snapshot, snapshot.index + 1;
      applied, lastSnapshotIndex := snapshot.index, snapshot.index;
      snapshotsApplied := snapshotsApplied + 1;
    }

    method MaybeSnapshot(policy: Policy) returns (ok: bool)
      modifies this`stored, this`lastSnapshotIndex, this`firstIndex, this`snapshotsCreated, this`logsCompacted,
               this`compactedEntries
      ensures ok <==> MaybeSnapshotted(old(View()), policy).Some?
      ensures View() == if ok then MaybeSnapshotted(old(View()), policy).value else old(View())
    {
      if policy.threshold == 0 || applied == 0 || applied <= lastSnapshotIndex
         || applied - lastSnapshotIndex < policy.threshold {
        return true;
      }
      var data := BuildData(applied);
      if data.None? {
        return false;
      }
      if applied <= stored.index {
        return true;
      }
      stored := Snapshot(applied, data);
      lastSnapshotIndex := applied;
      snapshotsCreated := snapshotsCreated + 1;
      if lastSnapshotIndex > policy.retain {
        var compactIndex := lastSnapshotIndex - policy.retain;
        if compactIndex >= firstIndex {
          compactedEntries := compactedEntries + (compactIndex - firstIndex + 1);
          logsCompacted := logsCompacted + 1;
          firstIndex := compactIndex + 1;
        }
      }
      ok := true;
    }
  }

  // ---------------------------------------------------------------- the digests of a log

  /** The committed log numbers its entries from 1. */
  ghost predicate Numbered(log: seq<Entry>) {
    forall i :: 0 <= i < |log| ==> log[i].index == i + 1
  }

  /** The digest of the first i entries. */
  function DigestOf(log: seq<Entry>, enabled: bool, i: nat): Digest
    requires i <= |log|
  {
    if i == 0 then Base
    else if enabled then Chained(DigestOf(log, enabled, i - 1), log[i - 1])
    else Streamed(log[..i])
  }

  lemma {:induction false} DigestOfPrefix(log: seq<Entry>, longer: seq<Entry>, enabled: bool, i: nat)
    requires i <= |log| && log <= longer
    ensures DigestOf(log, enabled, i) == DigestOf(longer, enabled, i)
  {
    if i > 0 {
      DigestOfPrefix(log, longer, enabled, i - 1);
      assert longer[..i] == log[..i];
    }
  }

  /** Equal digests of two logs mean equal prefixes. */
  lemma {:induction false} DigestDeterminesPrefix(a: seq<Entry>, b: seq<Entry>, enabled: bool, i: nat)
    requires i <= |a| && i <= |b|
    ensures DigestOf(a, enabled, i) == DigestOf(b, enabled, i) <==> a[..i] == b[..i]
  {
    if i > 0 {
      DigestDeterminesPrefix(a, b, enabled, i - 1);
      assert a[..i] == a[..i - 1] + [a[i - 1]] && b[..i] == b[..i - 1] + [b[i - 1]];
      if a[..i] == b[..i] {
        assert a[i - 1] == a[..i][i - 1] == b[..i][i - 1] == b[i - 1];
        assert a[..i - 1] == a[..i][..i - 1] == b[..i][..i - 1] == b[..i - 1];
      }
    }
  }

  // ---------------------------------------------------------------- the invariant

  ghost predicate DigestsOk(s: State, log: seq<Entry>) {
    && s.applied <= |log|
    && (forall i: nat :: i in s.digests <==> i <= s.applied)
    && (forall i: nat :: i <= s.applied ==> s.digests[i] == DigestOf(log, s.enabled, i))
  }

  ghost predicate GoodData(data: SnapshotData, log: seq<Entry>, enabled: bool) {
    && data.version == DATA_VERSION && data.index <= |log| && |data.digests| == data.index + 1
    && forall i :: 0 <= i <= data.index ==> data.digests[i] == DigestOf(log, enabled, i)
  }

  /** A snapshot some node has made of the committed log. */
  ghost predicate GoodSnapshot(snapshot: Snapshot, log: seq<Entry>, enabled: bool) {
    if snapshot.data.None? then snapshot.index == 0
    else snapshot.data.value.index == snapshot.index && GoodData(snapshot.data.value, log, enabled)
  }

  /** Compaction never passes the last snapshot, which never passes what is applied. */
  ghost predicate WindowOk(s: State) {
    && 1 <= s.firstIndex && s.firstIndex - 1 <= s.lastSnapshot <= s.applied
    && s.stored.index == s.lastSnapshot
  }

  ghost predicate NodeOk(s: State, log: seq<Entry>) {
    && DigestsOk(s, log) && WindowOk(s) && GoodSnapshot(s.stored, log, s.enabled)
    && (!s.enabled ==> s.running == Some(log[..s.applied]))
  }

  lemma RecordKeepsOk(s: State, log: seq<Entry>, e: Entry)
    requires NodeOk(s, log) && Numbered(log) && e in log
    ensures e.index <= s.applied + 1 ==> Recorded(s, e).Some? && NodeOk(Recorded(s, e).value, log)
    ensures e.index <= s.applied + 1 ==> Recorded(s, e).value.applied == if e.index <= s.applied then s.applied else e.index
  {
    var k :| 0 <= k < |log| && log[k] == e;
    assert e.index == k + 1;
    if e.index == s.applied + 1 && !s.enabled {
      assert log[..s.applied] + [e] == log[..e.index];
    }
  }

  lemma DataIsGood(s: State, log: seq<Entry>)
    requires DigestsOk(s, log)
    ensures DataAt(s, s.applied).Some? && GoodData(DataAt(s, s.applied).value, log, s.enabled)
  {
  }

  lemma ConfSnapshotKeepsOk(s: State, log: seq<Entry>)
    requires NodeOk(s, log) && s.lastSnapshot < s.applied
    ensures ConfSnapshotted(s).Some? && NodeOk(ConfSnapshotted(s).value, log)
  {
    DataIsGood(s, log);
  }

  lemma SnapshotKeepsOk(s: State, log: seq<Entry>, policy: Policy)
    requires NodeOk(s, log)
    ensures MaybeSnapshotted(s, policy).Some? && NodeOk(MaybeSnapshotted(s, policy).value, log)
  {
    DataIsGood(s, log);
  }

  /** A snapshot is taken exactly when, with snapshots enabled, at least `threshold`
      entries were applied since the last one; then none that many are ever without
      one. It is of the applied prefix, and of the entries it covers the log keeps
      the last `retain`, or as many as it still had. */
  lemma SnapshotPolicy(s: State, log: seq<Entry>, policy: Policy)
    requires NodeOk(s, log)
    ensures var t := MaybeSnapshotted(s, policy).value;
            && MaybeSnapshotted(s, policy).Some? && t.applied == s.applied && t.digests == s.digests
            && (t.created > s.created <==> 0 < policy.threshold <= s.applied - s.lastSnapshot)
            && (policy.threshold > 0 ==> t.applied - t.lastSnapshot < policy.threshold)
            && (t.created == s.created ==> t == s)
            && (t.created > s.created ==>
                  && t.created == s.created + 1 && t.lastSnapshot == t.applied
                  && Kept(t) == Smaller(policy.retain, Kept(s) + (t.lastSnapshot - s.lastSnapshot)))
            && t.compactedEntries - s.compactedEntries == t.firstIndex - s.firstIndex >= 0
            && (t.compactions > s.compactions <==> t.firstIndex > s.firstIndex)
  {
    SnapshotKeepsOk(s, log, policy);
    hide DigestsOk, GoodSnapshot;
  }

  function Smaller(a: int, b: int): int {
    if a < b then a else b
  }

  /** How many of the entries up to the snapshot the log still has. */
  function Kept(s: State): int {
    s.lastSnapshot - (s.firstIndex - 1)
  }

  /** Installing another node's snapshot never fails or conflicts, and leaves the
      digests every other node has. */
  lemma InstallKeepsOk(s: State, log: seq<Entry>, snapshot: Snapshot)
    requires NodeOk(s, log) && s.enabled && GoodSnapshot(snapshot, log, true)
    ensures Installed(s, snapshot).Some? && NodeOk(Installed(s, snapshot).value, log)
    ensures Installed(s, snapshot).value.applied == if Stale(s, snapshot) then s.applied else snapshot.index
  {
  }

  lemma {:induction false} GrowingLogKeepsOk(s: State, log: seq<Entry>, longer: seq<Entry>)
    requires NodeOk(s, log) && log <= longer
    ensures NodeOk(s, longer)
  {
    forall i: nat | i <= |log|
      ensures DigestOf(log, s.enabled, i) == DigestOf(longer, s.enabled, i)
    {
      DigestOfPrefix(log, longer, s.enabled, i);
    }
    assert longer[..s.applied] == log[..s.applied];
  }

  /** Installing a newer snapshot drops the running hash, so a node can go on
      recording exactly when digests are chained. */
  lemma RecordsAfterInstall(s: State, log: seq<Entry>, snapshot: Snapshot, e: Entry)
    requires NodeOk(s, log) && GoodSnapshot(snapshot, log, s.enabled) && !Stale(s, snapshot)
    requires e.index == snapshot.index + 1
    ensures Installed(s, snapshot).Some?
    ensures Recorded(Installed(s, snapshot).value, e).Some? <==> s.enabled
  {
  }

  // ---------------------------------------------------------------- logs that differ

  lemma GoodSnapshotDecodes(snapshot: Snapshot, log: seq<Entry>, enabled: bool)
    requires GoodSnapshot(snapshot, log, enabled)
    ensures snapshot.index <= |log| && Decoded(snapshot).Some? && |Decoded(snapshot).value| == snapshot.index + 1
    ensures forall i :: 0 <= i <= snapshot.index ==> Decoded(snapshot).value[i] == DigestOf(log, enabled, i)
  {
  }

  /** A node that has committed `a` meets a snapshot of another log `b`. The conflict
      is reported exactly when the node has a digest at the snapshot's index and the
      two logs differ up to there. */
  lemma ConflictMeansDivergence(s: State, a: seq<Entry>, b: seq<Entry>, snapshot: Snapshot)
    requires NodeOk(s, a) && GoodSnapshot(snapshot, b, s.enabled)
    ensures snapshot.index <= |b|
    ensures PrefixRestored(s, snapshot).None?
            <==> snapshot.index <= s.applied && a[..snapshot.index] != b[..snapshot.index]
  {
    GoodSnapshotDecodes(snapshot, b, s.enabled);
    if snapshot.index <= s.applied {
      DigestDeterminesPrefix(a, b, s.enabled, snapshot.index);
    }
  }

  /** So an installation notices diverging logs only at the very index the node has
      applied. A snapshot from further on is installed whatever the node committed,
      and afterwards its digests are those of the other log. */
  lemma InstallNoticesDivergence(s: State, a: seq<Entry>, b: seq<Entry>, snapshot: Snapshot)
    requires NodeOk(s, a) && GoodSnapshot(snapshot, b, s.enabled) && !Stale(s, snapshot)
    ensures s.applied <= snapshot.index <= |b|
    ensures Installed(s, snapshot).None? <==> snapshot.index == s.applied && a[..s.applied] != b[..s.applied]
    ensures Installed(s, snapshot).Some? ==> DigestsOk(Installed(s, snapshot).value, b)
  {
    ConflictMeansDivergence(s, a, b, snapshot);
    GoodSnapshotDecodes(snapshot, b, s.enabled);
    if Installed(s, snapshot).Some? {
      assert Installed(s, snapshot).value.digests == DigestMap(Decoded(snapshot).value);
    }
  }

  // ---------------------------------------------------------------- whole runs of a cluster

  /** The committed log, the nodes, and every snapshot ever made. */
  datatype Cluster = Cluster(log: seq<Entry>, nodes: map<nat, State>, made: set<Snapshot>)

  datatype Event =
    | Commit(term: nat, data: int, conf: bool)
    | Apply(node: nat, position: nat)
    | TakeSnapshot(node: nat)
    | Install(node: nat, snapshot: Snapshot)
    | Restart(node: nat)

  function NewCluster(policy: Policy, ids: set<nat>): Cluster {
    Cluster([], map id | id in ids :: NewNode(policy), {})
  }

  /** What the protocol can ask of a node: entries in order, snapshots that exist.
      Raft restarts a node behind its applied index, so it never hands a
      configuration change out a second time. */
  predicate Possible(c: Cluster, e: Event) {
    match e
    case Commit(term, data, conf) => true
    case Apply(node, position) =>
      && node in c.nodes && position < |c.log| && position <= c.nodes[node].applied
      && (c.log[position].conf ==> position == c.nodes[node].applied)
    case TakeSnapshot(node) => node in c.nodes
    case Install(node, snapshot) => node in c.nodes && snapshot in c.made
    case Restart(node) => node in c.nodes
  }

  function Updated(c: Cluster, node: nat, s: Option<State>): Option<Cluster>
    requires node in c.nodes
  {
    if s.None? then None
    else Some(c.(nodes := c.nodes[node := s.value], made := c.made + {s.value.stored}))
  }

  function Next(c: Cluster, policy: Policy, e: Event): Option<Cluster>
    requires Possible(c, e)
  {
    match e
    case Commit(term, data, conf) => Some(c.(log := c.log + [Entry(|c.log| + 1, term, data, conf)]))
    case Apply(node, position) => Updated(c, node, CommittedApplied(c.nodes[node], c.log[position]))
    case TakeSnapshot(node) => Updated(c, node, MaybeSnapshotted(c.nodes[node], policy))
    case Install(node, snapshot) => Updated(c, node, Installed(c.nodes[node], snapshot))
    case Restart(node) => Updated(c, node, Some(c.nodes[node].(lastSnapshot := c.nodes[node].stored.index)))
  }

  ghost predicate ClusterOk(c: Cluster) {
    && Numbered(c.log)
    && (forall id | id in c.nodes :: c.nodes[id].enabled && NodeOk(c.nodes[id], c.log))
    && (forall snapshot | snapshot in c.made :: GoodSnapshot(snapshot, c.log, true))
  }

  lemma UpdateKeepsOk(c: Cluster, node: nat, s: State)
    requires ClusterOk(c) && node in c.nodes && s.enabled && NodeOk(s, c.log)
    ensures Updated(c, node, Some(s)).Some? && ClusterOk(Updated(c, node, Some(s)).value)
  {
  }

  lemma ApplyKeepsOk(s: State, log: seq<Entry>, e: Entry)
    requires NodeOk(s, log) && Numbered(log) && e in log && e.index <= s.applied + 1
    requires e.conf ==> e.index == s.applied + 1
    ensures CommittedApplied(s, e).Some? && NodeOk(CommittedApplied(s, e).value, log) && CommittedApplied(s, e).value.enabled == s.enabled
  {
    RecordKeepsOk(s, log, e);
    if e.conf {
      ConfSnapshotKeepsOk(Recorded(s, e).value, log);
    }
  }

  /** An applied configuration change that came again would stop the node exactly
      when its last snapshot already covers everything applied. */
  lemma RepeatedConfChange(s: State, log: seq<Entry>, e: Entry)
    requires NodeOk(s, log) && Numbered(log) && e in log && e.conf && e.index <= s.applied
    ensures CommittedApplied(s, e).Some? <==> s.lastSnapshot < s.applied
  {
    RecordKeepsOk(s, log, e);
    DataIsGood(s, log);
  }

  lemma CommitKeepsOk(c: Cluster, policy: Policy, e: Event)
    requires ClusterOk(c) && e.Commit?
    ensures ClusterOk(Next(c, policy, e).value)
  {
    var longer := Next(c, policy, e).value.log;
    forall id | id in c.nodes
      ensures NodeOk(c.nodes[id], longer)
    {
      GrowingLogKeepsOk(c.nodes[id], c.log, longer);
    }
    forall snapshot | snapshot in c.made
      ensures GoodSnapshot(snapshot, longer, true)
    {
      GrowingLogKeepsSnapshot(snapshot, c.log, longer);
    }
  }

  lemma GrowingLogKeepsSnapshot(snapshot: Snapshot, log: seq<Entry>, longer: seq<Entry>)
    requires GoodSnapshot(snapshot, log, true) && log <= longer
    ensures GoodSnapshot(snapshot, longer, true)
  {
    forall i: nat | i <= |log|
      ensures DigestOf(log, true, i) == DigestOf(longer, true, i)
    {
      DigestOfPrefix(log, longer, true, i);
    }
  }

  /** No possible event ever fails, and every one keeps the cluster in agreement. */
  lemma EventKeepsOk(c: Cluster, policy: Policy, e: Event)
    requires ClusterOk(c) && Possible(c, e)
    ensures Next(c, policy, e).Some? && ClusterOk(Next(c, policy, e).value)
  {
    hide NodeOk, GoodSnapshot, CommittedApplied, MaybeSnapshotted, Installed;
    match e
    case Commit(term, data, conf) => CommitKeepsOk(c, policy, e);
    case Apply(node, position) =>
      EntryIsNext(c, node, position);
      ApplyKeepsOk(c.nodes[node], c.log, c.log[position]);
      UpdateKeepsOk(c, node, CommittedApplied(c.nodes[node], c.log[position]).value);
    case TakeSnapshot(node) =>
      SnapshotKeepsOk(c.nodes[node], c.log, policy);
      SnapshotKeepsMode(c.nodes[node], policy);
      UpdateKeepsOk(c, node, MaybeSnapshotted(c.nodes[node], policy).value);
    case Install(node, snapshot) =>
      InstallKeepsOk(c.nodes[node], c.log, snapshot);
      InstallKeepsMode(c.nodes[node], snapshot);
      UpdateKeepsOk(c, node, Installed(c.nodes[node], snapshot).value);
    case Restart(node) =>
      RestartChangesNothing(c.nodes[node], c.log);
      UpdateKeepsOk(c, node, c.nodes[node]);
  }

  lemma EntryIsNext(c: Cluster, node: nat, position: nat)
    requires ClusterOk(c) && Possible(c, Apply(node, position))
    ensures c.log[position] in c.log && c.log[position].index <= c.nodes[node].applied + 1
    ensures c.log[position].conf ==> c.log[position].index == c.nodes[node].applied + 1
  {
  }

  lemma SnapshotKeepsMode(s: State, policy: Policy)
    ensures MaybeSnapshotted(s, policy).Some? ==> MaybeSnapshotted(s, policy).value.enabled == s.enabled
  {
  }

  lemma InstallKeepsMode(s: State, snapshot: Snapshot)
    ensures Installed(s, snapshot).Some? ==> Installed(s, snapshot).value.enabled == s.enabled
  {
  }

  /** A restarted node reads back from its storage what it already knew. */
  lemma RestartChangesNothing(s: State, log: seq<Entry>)
    requires NodeOk(s, log)
    ensures s.(lastSnapshot := s.stored.index) == s
  {
  }

  function Run(c: Cluster, policy: Policy, events: seq<Event>): Option<Cluster> {
    if events == [] then Some(c)
    else
      var before := Run(c, policy, events[..|events| - 1]);
      if before.None? || !Possible(before.value, events[|events| - 1]) then None
      else Next(before.value, policy, events[|events| - 1])
  }

  lemma NewClusterOk(policy: Policy, ids: set<nat>)
    requires policy.threshold > 0
    ensures ClusterOk(NewCluster(policy, ids))
  {
  }

  lemma {:induction false} RunKeepsOk(policy: Policy, ids: set<nat>, events: seq<Event>)
    requires policy.threshold > 0 && Run(NewCluster(policy, ids), policy, events).Some?
    ensures ClusterOk(Run(NewCluster(policy, ids), policy, events).value)
  {
    hide ClusterOk, Next;
    if events == [] {
      NewClusterOk(policy, ids);
    } else {
      RunKeepsOk(policy, ids, events[..|events| - 1]);
      EventKeepsOk(Run(NewCluster(policy, ids), policy, events[..|events| - 1]).value, policy, events[|events| - 1]);
    }
  }

  /** In every reachable state, whoever recorded and whoever was restored: digests
      exist exactly up to `applied` and any two nodes agree on all they both have. */
  lemma ClusterAgrees(policy: Policy, ids: set<nat>, events: seq<Event>, a: nat, b: nat, i: nat)
    requires policy.threshold > 0 && Run(NewCluster(policy, ids), policy, events).Some?
    requires a in Run(NewCluster(policy, ids), policy, events).value.nodes
    requires b in Run(NewCluster(policy, ids), policy, events).value.nodes
    ensures var c := Run(NewCluster(policy, ids), policy, events).value;
            && WindowOk(c.nodes[a])
            && (i in c.nodes[a].digests <==> i <= c.nodes[a].applied)
            && (i in c.nodes[a].digests && i in c.nodes[b].digests ==> c.nodes[a].digests[i] == c.nodes[b].digests[i])
  {
    RunKeepsOk(policy, ids, events);
    var c := Run(NewCluster(policy, ids), policy, events).value;
    assert NodeOk(c.nodes[a], c.log) && NodeOk(c.nodes[b], c.log);
  }
}
