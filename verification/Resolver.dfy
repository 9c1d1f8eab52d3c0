/** The batch resolver: from one observation it fixes the message and position of
    every action of a batch before any of them runs. */
module Resolver {
  import opened Keys
  import opened Networks

  datatype Kind = Deliver | Drop | Duplicate

  datatype PlanAction = PlanAction(kind: Kind, link: Link, start: int, count: int)

  datatype Config = Config(maxBatch: int, clampStart: bool)

  /** What is observed of the target node. */
  datatype Target = Missing | Running | Crashed

  datatype Action = Action(kind: Kind, id: nat, link: Link, position: nat)

  datatype Status = Resolved | Partial | EmptyQueue | Skipped | Invalid

  datatype Resolution = Resolution(status: Status, clamped: bool, actions: seq<Action>)

  // ---------------------------------------------------------------- reading the queue

  ghost predicate Ascending(queue: seq<Observed>) {
    forall i, j :: 0 <= i < j < |queue| ==> queue[i].position <= queue[j].position
  }

  method InsertByPosition(queue: seq<Observed>, m: Observed) returns (result: seq<Observed>)
    requires Ascending(queue)
    ensures Ascending(result) && multiset(result) == multiset(queue) + multiset{m}
  {
    var k := |queue|;
    while k > 0 && queue[k - 1].position > m.position
      invariant 0 <= k <= |queue|
      invariant forall j :: k <= j < |queue| ==> queue[j].position > m.position
    {
      k := k - 1;
    }
    hide Inserted, Ascending;
    result := Inserted(queue, k, m);
    InsertedOrder(queue, k, m);
    InsertedMembers(queue, k, m);
  }

  lemma InsertedMembers(queue: seq<Observed>, k: nat, m: Observed)
    requires k <= |queue|
    ensures multiset(Inserted(queue, k, m)) == multiset(queue) + multiset{m}
  {
    assert queue == queue[..k] + queue[k..];
  }

  function Inserted(queue: seq<Observed>, k: nat, m: Observed): seq<Observed>
    requires k <= |queue|
  {
    queue[..k] + [m] + queue[k..]
  }

  lemma InsertedAt(queue: seq<Observed>, k: nat, m: Observed)
    requires k <= |queue|
    ensures |Inserted(queue, k, m)| == |queue| + 1 && Inserted(queue, k, m)[k] == m
    ensures forall i :: 0 <= i < k ==> Inserted(queue, k, m)[i] == queue[i]
    ensures forall i :: k < i <= |queue| ==> Inserted(queue, k, m)[i] == queue[i - 1]
  {
  }

  lemma InsertedOrder(queue: seq<Observed>, k: nat, m: Observed)
    requires k <= |queue| && Ascending(queue)
    requires k > 0 ==> queue[k - 1].position <= m.position
    requires forall j :: k <= j < |queue| ==> queue[j].position > m.position
    ensures Ascending(Inserted(queue, k, m))
  {
    InsertedAt(queue, k, m);
    hide Inserted;
  }

  /** The messages of one link as the observation lists them. */
  function OnLink(messages: seq<Observed>, link: Link): seq<Observed> {
    if messages == [] then []
    else
      var last := messages[|messages| - 1];
      OnLink(messages[..|messages| - 1], link) + if LinkOf(last.message) == link then [last] else []
  }

  /** The same messages in the order of their positions. */
  ghost predicate QueueOf(queue: seq<Observed>, messages: seq<Observed>, link: Link) {
    Ascending(queue) && multiset(queue) == multiset(OnLink(messages, link))
  }

  /** messagesOnLink: the messages of one link in queue order. */
  method MessagesOnLink(messages: seq<Observed>, link: Link) returns (queue: seq<Observed>)
    ensures QueueOf(queue, messages, link)
  {
    queue := [];
    for i := 0 to |messages|
      invariant QueueOf(queue, messages[..i], link)
    {
      assert messages[..i + 1][..i] == messages[..i];
      if LinkOf(messages[i].message) == link {
        queue := InsertByPosition(queue, messages[i]);
      }
    }
    assert messages[..|messages|] == messages;
  }

  lemma {:induction false} OnLinkMembers(messages: seq<Observed>, link: Link)
    ensures forall x :: x in OnLink(messages, link) <==> x in messages && LinkOf(x.message) == link
    ensures Distinct(messages) ==> Distinct(OnLink(messages, link))
  {
    if messages != [] {
      var init, last := messages[..|messages| - 1], messages[|messages| - 1];
      OnLinkMembers(init, link);
      assert messages == init + [last];
      assert Distinct(messages) ==> last !in init;
    }
  }

  lemma {:induction false} DistinctMeansOnce<T>(s: seq<T>)
    ensures Distinct(s) <==> forall x | x in s :: multiset(s)[x] == 1
  {
    if s != [] {
      var rest := s[1..];
      assert s == [s[0]] + rest;
      DistinctStep(s[0], rest);
      DistinctMeansOnce(rest);
      assert forall x :: multiset(s)[x] == multiset(rest)[x] + (if x == s[0] then 1 else 0);
      assert s[0] in s;
      forall x | x in rest
        ensures x in s
      {
      }
    }
  }

  lemma SameMembers(a: seq<Observed>, b: seq<Observed>)
    requires multiset(a) == multiset(b)
    ensures forall x :: x in a <==> x in b
    ensures Distinct(a) <==> Distinct(b)
  {
    assert forall x :: x in a <==> x in multiset(a);
    assert forall x :: x in b <==> x in multiset(b);
    DistinctMeansOnce(a);
    DistinctMeansOnce(b);
  }

  /** An ascending list without repetitions of all positions of a queue is the queue. */
  lemma {:induction false} PositionsLineUp(queue: seq<Observed>, view: seq<Observed>, i: nat)
    requires Ascending(queue) && Distinct(queue) && i <= |view|
    requires forall k :: 0 <= k < |view| ==> view[k].position == k
    requires forall x :: x in queue <==> x in view
    ensures i <= |queue| && queue[..i] == view[..i]
  {
    if i > 0 {
      PositionsLineUp(queue, view, i - 1);
      assert view[i - 1] in queue;
      var j :| 0 <= j < |queue| && queue[j] == view[i - 1];
      assert j >= i - 1 by {
        assert forall k :: 0 <= k < i - 1 ==> queue[..i - 1][k] == queue[k] && view[..i - 1][k] == view[k];
      }
      if j > i - 1 {
        var x := queue[i - 1];
        assert x in view;
        var k :| 0 <= k < |view| && view[k] == x;
        assert k <= i - 1;
        EarlierTaken(queue, view, i - 1, k);
      }
    }
  }

  lemma EarlierTaken(queue: seq<Observed>, view: seq<Observed>, i: nat, k: nat)
    requires Distinct(queue) && i < |queue| && i <= |view| && k <= i && k < |view|
    requires queue[..i] == view[..i] && queue[i] == view[k]
    ensures k == i
  {
    assert forall j :: 0 <= j < i ==> queue[j] == queue[..i][j] == view[..i][j] == view[j];
  }

  lemma ReadsTheQueue(queue: seq<Observed>, view: seq<Observed>)
    requires Ascending(queue) && Distinct(queue)
    requires forall k :: 0 <= k < |view| ==> view[k].position == k
    requires forall x :: x in queue <==> x in view
    ensures queue == view
  {
    PositionsLineUp(queue, view, |view|);
    if queue != [] {
      NoneBehind(queue, view, |queue| - 1);
    }
    assert view[..|view|] == view && queue[..|queue|] == queue;
  }

  lemma NoneBehind(queue: seq<Observed>, view: seq<Observed>, j: nat)
    requires Distinct(queue) && j < |queue| && |view| <= |queue| && queue[..|view|] == view[..|view|]
    requires forall x :: x in queue <==> x in view
    ensures j < |view|
  {
    assert queue[j] in view;
    var k :| 0 <= k < |view| && view[k] == queue[j];
    assert queue[k] == queue[..|view|][k] == view[..|view|][k];
  }

  // ---------------------------------------------------------------- Resolve

  function Smaller(a: int, b: int): int {
    if a < b then a else b
  }

  function ClampedStart(start: int, length: nat): int {
    if start >= length then length - 1 else start
  }

  function BatchEnd(start: int, count: int, length: nat): int {
    if start + count > length then length else start + count
  }

  /** The i-th action of a batch that starts at `start`: a removal always finds its
      message at `start`, a copy leaves the original where it was. */
  function BatchAction(kind: Kind, link: Link, queue: seq<Observed>, start: nat, i: nat): Action
    requires start + i < |queue|
  {
    Action(kind, queue[start + i].message.id, link, if kind.Duplicate? then start + i else start)
  }

  function Batch(kind: Kind, link: Link, queue: seq<Observed>, start: nat, end: nat): seq<Action>
    requires start <= end <= |queue|
  {
    seq(end - start, i requires 0 <= i < end - start => BatchAction(kind, link, queue, start, i))
  }

  /** The refusals that do not depend on the queue. */
  function Refusal(config: Config, plan: PlanAction, target: Target): Option<Status> {
    if plan.link.from == 0 || plan.link.to == 0 || plan.start < 0 || plan.count <= 0 then Some(Invalid)
    else if plan.count > config.maxBatch then Some(Invalid)
    else if plan.kind.Deliver? && !target.Running? then Some(Skipped)
    else None
  }

  function ResolutionOf(config: Config, plan: PlanAction, target: Target, queue: seq<Observed>): Resolution {
    if Refusal(config, plan, target).Some? then Resolution(Refusal(config, plan, target).value, false, [])
    else if |queue| == 0 || (plan.start >= |queue| && !config.clampStart) then Resolution(EmptyQueue, false, [])
    else
      var start := ClampedStart(plan.start, |queue|);
      var end := BatchEnd(start, plan.count, |queue|);
      Resolution(if end - start < plan.count then Partial else Resolved, plan.start >= |queue|,
                 Batch(plan.kind, plan.link, queue, start, end))
  }

  ghost predicate Contiguous(queue: seq<Observed>) {
    forall k :: 0 <= k < |queue| ==> queue[k].position == k
  }

  /** A queue with gaps or repeated positions is an invalid observation. */
  ghost function Answer(config: Config, plan: PlanAction, target: Target, queue: seq<Observed>): Resolution {
    if Refusal(config, plan, target).None? && !Contiguous(queue) then Resolution(Invalid, false, [])
    else ResolutionOf(config, plan, target, queue)
  }

  /** Any listing is answered from the link's messages in position order; a listing
      of a network's messages is answered from the network's own queue. */
  method Resolve(config: Config, plan: PlanAction, target: Target, messages: seq<Observed>, ghost net: Net)
      returns (result: Resolution)
    ensures exists queue :: QueueOf(queue, messages, plan.link) && result == Answer(config, plan, target, queue)
    ensures NetOk(net) && Shows(messages, net) ==> result == ResolutionOf(config, plan, target, QueueView(net, plan.link))
  {
    hide NetOk, Shows, Batch, QueueView, QueueOf;
    var queue := MessagesOnLink(messages, plan.link);
    if NetOk(net) && Shows(messages, net) {
      OnlyThisLink(messages, net, plan.link, queue);
    }
    if plan.link.from == 0 || plan.link.to == 0 || plan.start < 0 || plan.count <= 0 || plan.count > config.maxBatch {
      return Resolution(Invalid, false, []);
    }
    if plan.kind.Deliver? && !target.Running? {
      return Resolution(Skipped, false, []);
    }
    for position := 0 to |queue|
      invariant forall k :: 0 <= k < position ==> queue[k].position == k
    {
      if queue[position].position != position {
        return Resolution(Invalid, false, []);
      }
    }
    result := ResolveQueue(config, plan, target, queue);
  }

  /** Messages at the same position may be sorted either way: the answer is the same. */
  lemma AnswerIsUnique(config: Config, plan: PlanAction, target: Target, messages: seq<Observed>, a: seq<Observed>,
                       b: seq<Observed>)
    requires QueueOf(a, messages, plan.link) && QueueOf(b, messages, plan.link)
    ensures Answer(config, plan, target, a) == Answer(config, plan, target, b)
  {
    hide Batch, Contiguous;
    if Contiguous(a) {
      SameContiguous(a, b);
    }
    if Contiguous(b) {
      SameContiguous(b, a);
    }
  }

  lemma SameContiguous(a: seq<Observed>, b: seq<Observed>)
    requires Contiguous(a) && Ascending(b) && multiset(a) == multiset(b)
    ensures a == b
  {
    assert Distinct(a);
    SameMembers(a, b);
    ReadsTheQueue(b, a);
  }

  /** The choice of messages, once the queue is known to be contiguous. */
  method ResolveQueue(config: Config, plan: PlanAction, ghost target: Target, queue: seq<Observed>) returns (result: Resolution)
    requires Refusal(config, plan, target).None? && forall k :: 0 <= k < |queue| ==> queue[k].position == k
    ensures result == ResolutionOf(config, plan, target, queue)
  {
    if |queue| == 0 {
      return Resolution(EmptyQueue, false, []);
    }
    var start, clamped := plan.start, false;
    if start >= |queue| {
      if !config.clampStart {
        return Resolution(EmptyQueue, false, []);
      }
      start, clamped := |queue| - 1, true;
    }
    var end := start + plan.count;
    if end > |queue| {
      end := |queue|;
    }
    var actions := BuildBatch(plan.kind, plan.link, queue, start, end);
    result := Resolution(if |actions| < plan.count then Partial else Resolved, clamped, actions);
  }

  method BuildBatch(kind: Kind, link: Link, queue: seq<Observed>, start: nat, end: nat) returns (actions: seq<Action>)
    requires start <= end <= |queue| && forall k :: 0 <= k < |queue| ==> queue[k].position == k
    ensures actions == Batch(kind, link, queue, start, end)
  {
    actions := [];
    for i := start to end
      invariant actions == Batch(kind, link, queue, start, i)
    {
      var position := queue[i].position;
      if kind.Deliver? || kind.Drop? {
        position := start;
      }
      actions := actions + [Action(kind, queue[i].message.id, link, position)];
    }
  }

  lemma OnlyThisLink(messages: seq<Observed>, net: Net, link: Link, queue: seq<Observed>)
    requires NetOk(net) && Shows(messages, net) && QueueOf(queue, messages, link)
    ensures queue == QueueView(net, link)
    ensures forall k :: 0 <= k < |queue| ==> queue[k].position == k
  {
    var view := QueueView(net, link);
    OnLinkMembers(messages, link);
    SameMembers(queue, OnLink(messages, link));
    ViewIsDistinct(net, link);
    hide NetOk, OnLink;
    if link !in net.queues {
      assert view == [];
    }
    ReadsTheQueue(queue, view);
  }

  // ---------------------------------------------------------------- running the batch

  predicate Resolves(net: Net, a: Action) {
    CanResolve(net, a.id, a.link, a.position)
  }

  /** What the action itself does to the network: a copy for which no message ID or
      sequence is left fails and changes nothing. */
  function Applied(net: Net, a: Action, at: nat): Net
    requires Resolves(net, a)
  {
    if !a.kind.Duplicate? then AfterRemove(net, a.link, a.position)
    else if CanDuplicateMessage(net, a.link, a.position) then AfterDuplicate(net, a.link, a.position, at)
    else net
  }

  /** In a well-formed network a queued message can be copied exactly while IDs and
      sequences are left. */
  lemma CopiesWhileIdsLast(net: Net, link: Link, position: nat)
    requires NetOk(net) && position < |Queue(net, link)|
    ensures CanDuplicateMessage(net, link, position) <==> net.nextId != 0 && LastSequence(net, link) != MAX
  {
    assert QueueOk(net.nextId, LastSequence(net, link), link, Queue(net, link));
    assert LinkOf(Queue(net, link)[position].message) == link && Registered(Queue(net, link)[position].message);
  }

  /** nets[i] is the network the i-th action of the batch meets: each action that
      resolves is applied and then followed by arbitrary traffic. */
  ghost predicate RunsBatch(nets: seq<Net>, actions: seq<Action>, at: nat) {
    && |nets| == |actions| + 1
    && forall i :: 0 <= i < |actions| && Resolves(nets[i], actions[i]) ==> Extends(Applied(nets[i], actions[i], at), nets[i + 1])
  }

  /** The chosen messages from `start` on, without the first i of them. */
  function Left(q: seq<Queued>, start: nat, i: nat): seq<Queued>
    requires start + i <= |q|
  {
    q[..start] + q[start + i..]
  }

  lemma RemovalStep(net: Net, net': Net, link: Link, q: seq<Queued>, start: nat, i: nat)
    requires start + i < |q| && Left(q, start, i) <= Queue(net, link)
    ensures start < |Queue(net, link)| && Queue(net, link)[start] == q[start + i]
    ensures Extends(AfterRemove(net, link, start), net') ==> Left(q, start, i + 1) <= Queue(net', link)
  {
    var now := Queue(net, link);
    var more := now[|Left(q, start, i)|..];
    assert now == q[..start] + q[start + i..] + more;
    assert Left(q, start, i)[start] == q[start + i];
    RemoveFrame(net, link, start, link);
    assert now[..start] + now[start + 1..] == Left(q, start, i + 1) + more;
    assert Extends(AfterRemove(net, link, start), net') ==> Queue(AfterRemove(net, link, start), link) <= Queue(net', link);
  }

  lemma OthersOnlyGrow(net0: Net, net: Net, net': Net, link: Link, start: nat)
    requires start < |Queue(net, link)| && Extends(AfterRemove(net, link, start), net')
    requires forall l | l != link :: Queue(net0, l) <= Queue(net, l)
    ensures forall l | l != link :: Queue(net0, l) <= Queue(net', l)
  {
    forall l | l != link
      ensures Queue(net0, l) <= Queue(net', l)
    {
      RemoveFrame(net, link, start, l);
      assert Queue(net0, l) <= Queue(net, l) <= Queue(net', l);
    }
  }

  lemma BatchIds(net: Net, kind: Kind, link: Link, start: nat, end: nat, i: nat)
    requires NetOk(net) && start <= end <= |Queue(net, link)| && i < end - start
    ensures var a := Batch(kind, link, QueueView(net, link), start, end)[i];
            && a.kind == kind && a.link == link && a.id == Queue(net, link)[start + i].message.id != 0
            && a.position == if kind.Duplicate? then start + i else start
  {
    assert QueueOk(net.nextId, LastSequence(net, link), link, Queue(net, link));
  }

  /** Deliver and Drop: before action i exactly the i first chosen messages are gone
      and the rest of the queue stands in its old order; the action still resolves,
      and every other queue has only grown. */
  lemma {:induction false} RemovalsStayInStep(nets: seq<Net>, kind: Kind, link: Link, start: nat, end: nat, at: nat, i: nat)
    requires |nets| > 0 && NetOk(nets[0]) && start <= end <= |Queue(nets[0], link)| && !kind.Duplicate?
    requires link.from != 0 && link.to != 0
    requires RunsBatch(nets, Batch(kind, link, QueueView(nets[0], link), start, end), at) && i <= end - start
    ensures Left(Queue(nets[0], link), start, i) <= Queue(nets[i], link)
    ensures forall l | l != link :: Queue(nets[0], l) <= Queue(nets[i], l)
    ensures i < end - start ==> Resolves(nets[i], Batch(kind, link, QueueView(nets[0], link), start, end)[i])
  {
    hide NetOk, Extends, AfterRemove, Batch, Left;
    var q := Queue(nets[0], link);
    var actions := Batch(kind, link, QueueView(nets[0], link), start, end);
    BatchLength(nets[0], kind, link, start, end);
    if i == 0 {
      AllLeft(q, start);
    } else {
      RemovalsStayInStep(nets, kind, link, start, end, at, i - 1);
      BatchIds(nets[0], kind, link, start, end, i - 1);
      RemovalStep(nets[i - 1], nets[i], link, q, start, i - 1);
      assert Extends(Applied(nets[i - 1], actions[i - 1], at), nets[i]);
      OthersOnlyGrow(nets[0], nets[i - 1], nets[i], link, start);
    }
    if i < end - start {
      BatchIds(nets[0], kind, link, start, end, i);
      RemovalStep(nets[i], nets[i], link, q, start, i);
    }
  }

  lemma BatchLength(net: Net, kind: Kind, link: Link, start: nat, end: nat)
    requires start <= end <= |Queue(net, link)|
    ensures |Batch(kind, link, QueueView(net, link), start, end)| == end - start
  {
  }

  lemma AllLeft(q: seq<Queued>, start: nat)
    requires start <= |q|
    ensures Left(q, start, 0) == q
  {
  }

  lemma StepExtends(net: Net, a: Action, at: nat, net': Net)
    requires Resolves(net, a) && a.kind.Duplicate? && Extends(Applied(net, a, at), net')
    ensures Extends(net, net')
  {
    hide AfterRegister, CanRegister;
    if CanDuplicateMessage(net, a.link, a.position) {
      var original := Queue(net, a.link)[a.position].message;
      RegisterExtends(net, Unstamped(original), original.id, at);
      ExtendsTransitive(net, AfterDuplicate(net, a.link, a.position, at), net');
    }
  }

  /** Duplicate: nothing is consumed, and each chosen original stays where it was. */
  lemma {:induction false} OriginalsStayInStep(nets: seq<Net>, link: Link, start: nat, end: nat, at: nat, i: nat)
    requires |nets| > 0 && NetOk(nets[0]) && start <= end <= |Queue(nets[0], link)|
    requires link.from != 0 && link.to != 0
    requires RunsBatch(nets, Batch(Duplicate, link, QueueView(nets[0], link), start, end), at) && i <= end - start
    ensures Extends(nets[0], nets[i])
    ensures i < end - start ==> Resolves(nets[i], Batch(Duplicate, link, QueueView(nets[0], link), start, end)[i])
  {
    hide NetOk, Applied, Batch;
    var actions := Batch(Duplicate, link, QueueView(nets[0], link), start, end);
    BatchLength(nets[0], Duplicate, link, start, end);
    if i > 0 {
      OriginalsStayInStep(nets, link, start, end, at, i - 1);
      BatchIds(nets[0], Duplicate, link, start, end, i - 1);
      assert Extends(Applied(nets[i - 1], actions[i - 1], at), nets[i]);
      StepExtends(nets[i - 1], actions[i - 1], at, nets[i]);
      ExtendsTransitive(nets[0], nets[i - 1], nets[i]);
    }
    if i < end - start {
      BatchIds(nets[0], Duplicate, link, start, end, i);
      assert Queue(nets[0], link) <= Queue(nets[i], link);
    }
  }

  /** The copy of a message of `link` made in this network. */
  function CopyOf(net: Net, link: Link, original: Message, at: nat): Queued {
    Queued(original.(id := net.nextId, sequence := LastSequence(net, link) + 1, parent := original.id), at)
  }

  lemma CopyJoinsTheTail(net: Net, link: Link, position: nat, at: nat, net': Net)
    requires position < |Queue(net, link)| && LinkOf(Queue(net, link)[position].message) == link
    requires Extends(AfterDuplicate(net, link, position, at), net')
    ensures var n := |Queue(net, link)|;
            n < |Queue(net', link)| && Queue(net', link)[n] == CopyOf(net, link, Queue(net, link)[position].message, at)
  {
    var original := Queue(net, link)[position].message;
    RegisterFrame(net, Unstamped(original), original.id, at, link);
    assert Queue(AfterDuplicate(net, link, position, at), link) <= Queue(net', link);
  }

  lemma {:induction false} LaterExtends(nets: seq<Net>, link: Link, start: nat, end: nat, at: nat, j: nat, i: nat)
    requires |nets| > 0 && NetOk(nets[0]) && start <= end <= |Queue(nets[0], link)|
    requires link.from != 0 && link.to != 0
    requires RunsBatch(nets, Batch(Duplicate, link, QueueView(nets[0], link), start, end), at) && j <= i <= end - start
    ensures |nets| == end - start + 1 && Extends(nets[j], nets[i])
    decreases i - j
  {
    hide NetOk, Applied, Batch;
    BatchLength(nets[0], Duplicate, link, start, end);
    ExtendsItself(nets[j]);
    if j < i {
      LaterExtends(nets, link, start, end, at, j, i - 1);
      OriginalsStayInStep(nets, link, start, end, at, i - 1);
      BatchIds(nets[0], Duplicate, link, start, end, i - 1);
      StepExtends(nets[i - 1], Batch(Duplicate, link, QueueView(nets[0], link), start, end)[i - 1], at, nets[i]);
      ExtendsTransitive(nets[j], nets[i - 1], nets[i]);
    }
  }

  /** Action j of a duplicate batch, unless IDs have run out, puts the copy of the
      j-th chosen message behind everything queued by then, and there it stays. */
  lemma CopiesStayInStep(nets: seq<Net>, link: Link, start: nat, end: nat, at: nat, j: nat, i: nat)
    requires |nets| > 0 && NetOk(nets[0]) && start <= end <= |Queue(nets[0], link)|
    requires link.from != 0 && link.to != 0
    requires RunsBatch(nets, Batch(Duplicate, link, QueueView(nets[0], link), start, end), at) && j < i <= end - start
    ensures |nets| == end - start + 1 && start + j < |Queue(nets[j], link)|
    ensures Queue(nets[j], link)[start + j] == Queue(nets[0], link)[start + j]
    ensures CanDuplicateMessage(nets[j], link, start + j) ==>
              && |Queue(nets[0], link)| <= |Queue(nets[j], link)| < |Queue(nets[j + 1], link)| <= |Queue(nets[i], link)|
              && Queue(nets[i], link)[|Queue(nets[j], link)|]
                 == CopyOf(nets[j], link, Queue(nets[0], link)[start + j].message, at)
  {
    hide NetOk, Batch, AfterDuplicate, CanDuplicateMessage;
    BatchLength(nets[0], Duplicate, link, start, end);
    var action := Batch(Duplicate, link, QueueView(nets[0], link), start, end)[j];
    OriginalsStayInStep(nets, link, start, end, at, j);
    assert Queue(nets[0], link) <= Queue(nets[j], link);
    BatchIds(nets[0], Duplicate, link, start, end, j);
    LinkOfQueued(nets[0], link, start + j);
    LaterExtends(nets, link, start, end, at, j + 1, i);
    assert Queue(nets[j + 1], link) <= Queue(nets[i], link);
    if CanDuplicateMessage(nets[j], link, start + j) {
      assert Extends(Applied(nets[j], action, at), nets[j + 1]);
      CopyJoinsTheTail(nets[j], link, start + j, at, nets[j + 1]);
    }
  }

  lemma LinkOfQueued(net: Net, link: Link, position: nat)
    requires NetOk(net) && position < |Queue(net, link)|
    ensures LinkOf(Queue(net, link)[position].message) == link
  {
    assert QueueOk(net.nextId, LastSequence(net, link), link, Queue(net, link));
  }

  // ---------------------------------------------------------------- the whole batch

  /** After a batch of deliveries or drops: the unchosen messages in their old order,
      followed only by new ones. */
  ghost predicate Consumed(before: Net, after: Net, link: Link, start: nat, count: nat) {
    && start + count <= |Queue(before, link)|
    && Queue(before, link)[..start] + Queue(before, link)[start + count..] <= Queue(after, link)
    && forall l | l != link :: Queue(before, l) <= Queue(after, l)
  }

  /** Copy j of a duplicate batch was made. */
  predicate Copied(nets: seq<Net>, link: Link, start: nat, j: nat) {
    j < |nets| && start + j < |Queue(nets[j], link)| && CanDuplicateMessage(nets[j], link, start + j)
  }

  /** After a duplicate batch: nothing is gone from any link, and the copies of the
      chosen messages stand behind them in order, each naming its original. */
  ghost predicate CopiedInOrder(nets: seq<Net>, link: Link, start: nat, count: nat, at: nat)
    requires |nets| == count + 1
  {
    var q, after := Queue(nets[0], link), nets[count];
    && start + count <= |q| && Extends(nets[0], after)
    && (forall j :: 0 <= j < count && Copied(nets, link, start, j) ==>
          && |q| <= |Queue(nets[j], link)| < |Queue(after, link)|
          && Queue(after, link)[|Queue(nets[j], link)|] == CopyOf(nets[j], link, q[start + j].message, at))
    && (forall j, k :: 0 <= j < k < count && Copied(nets, link, start, j) && Copied(nets, link, start, k) ==>
          |Queue(nets[j], link)| < |Queue(nets[k], link)|)
  }

  lemma BatchCopies(nets: seq<Net>, link: Link, start: nat, end: nat, at: nat)
    requires |nets| > 0 && NetOk(nets[0]) && start <= end <= |Queue(nets[0], link)|
    requires link.from != 0 && link.to != 0
    requires RunsBatch(nets, Batch(Duplicate, link, QueueView(nets[0], link), start, end), at)
    ensures |nets| == end - start + 1 && CopiedInOrder(nets, link, start, end - start, at)
  {
    hide NetOk, Batch, CanDuplicateMessage, CopyOf, RunsBatch, Extends;
    var count := end - start;
    LaterExtends(nets, link, start, end, at, 0, count);
    forall j | 0 <= j < count && Copied(nets, link, start, j)
      ensures |Queue(nets[0], link)| <= |Queue(nets[j], link)| < |Queue(nets[count], link)|
      ensures Queue(nets[count], link)[|Queue(nets[j], link)|]
           == CopyOf(nets[j], link, Queue(nets[0], link)[start + j].message, at)
    {
      CopiesStayInStep(nets, link, start, end, at, j, count);
    }
    forall j, k | 0 <= j < k < count && Copied(nets, link, start, j) && Copied(nets, link, start, k)
      ensures |Queue(nets[j], link)| < |Queue(nets[k], link)|
    {
      CopiesStayInStep(nets, link, start, end, at, j, k);
    }
  }

  lemma BatchConsumes(nets: seq<Net>, kind: Kind, link: Link, start: nat, end: nat, at: nat)
    requires |nets| > 0 && NetOk(nets[0]) && start <= end <= |Queue(nets[0], link)| && !kind.Duplicate?
    requires link.from != 0 && link.to != 0
    requires RunsBatch(nets, Batch(kind, link, QueueView(nets[0], link), start, end), at)
    ensures |nets| == end - start + 1 && Consumed(nets[0], nets[end - start], link, start, end - start)
  {
    BatchLength(nets[0], kind, link, start, end);
    RemovalsStayInStep(nets, kind, link, start, end, at, end - start);
  }

  lemma EveryActionResolves(nets: seq<Net>, kind: Kind, link: Link, start: nat, end: nat, at: nat)
    requires |nets| > 0 && NetOk(nets[0]) && start <= end <= |Queue(nets[0], link)|
    requires link.from != 0 && link.to != 0
    requires RunsBatch(nets, Batch(kind, link, QueueView(nets[0], link), start, end), at)
    ensures var actions := Batch(kind, link, QueueView(nets[0], link), start, end);
            |nets| == |actions| + 1 && forall i :: 0 <= i < |actions| ==> Resolves(nets[i], actions[i])
  {
    hide NetOk, Batch, Resolves, Applied;
    BatchLength(nets[0], kind, link, start, end);
    var actions := Batch(kind, link, QueueView(nets[0], link), start, end);
    forall i | 0 <= i < |actions|
      ensures Resolves(nets[i], actions[i])
    {
      if kind.Duplicate? {
        OriginalsStayInStep(nets, link, start, end, at, i);
      } else {
        RemovalsStayInStep(nets, kind, link, start, end, at, i);
      }
    }
  }

  /** With whatever traffic in between, every action resolved up front resolves when
      its turn comes. Deliveries and drops consume exactly the messages the plan asks
      for and copies are made of exactly them: those from position `start` on, at most
      `count`, or the last one alone when the queue ends before `start`. */
  lemma BatchIsSound(config: Config, plan: PlanAction, target: Target, nets: seq<Net>, at: nat)
    requires |nets| > 0 && NetOk(nets[0])
    requires RunsBatch(nets, ResolutionOf(config, plan, target, QueueView(nets[0], plan.link)).actions, at)
    ensures var actions := ResolutionOf(config, plan, target, QueueView(nets[0], plan.link)).actions;
            && |nets| == |actions| + 1
            && forall i :: 0 <= i < |actions| ==> Resolves(nets[i], actions[i])
    ensures var q := Queue(nets[0], plan.link);
            var actions := ResolutionOf(config, plan, target, QueueView(nets[0], plan.link)).actions;
            actions != [] && plan.start < |q| ==>
              && 0 <= plan.start && |actions| == Smaller(plan.count, |q| - plan.start)
              && Moved(plan.kind, nets, plan.link, plan.start, |actions|, at)
    ensures var q := Queue(nets[0], plan.link);
            var actions := ResolutionOf(config, plan, target, QueueView(nets[0], plan.link)).actions;
            actions != [] && plan.start >= |q| ==>
              |q| > 0 && |actions| == 1 && Moved(plan.kind, nets, plan.link, |q| - 1, 1, at)
  {
    var q := Queue(nets[0], plan.link);
    var actions := ResolutionOf(config, plan, target, QueueView(nets[0], plan.link)).actions;
    if actions != [] {
      var start := ClampedStart(plan.start, |q|);
      var end := BatchEnd(start, plan.count, |q|);
      assert actions == Batch(plan.kind, plan.link, QueueView(nets[0], plan.link), start, end);
      hide NetOk, ResolutionOf, RunsBatch, Moved, Batch, Resolves;
      BatchMoves(plan.kind, nets, plan.link, start, end, at);
    }
  }

  lemma BatchMoves(kind: Kind, nets: seq<Net>, link: Link, start: nat, end: nat, at: nat)
    requires |nets| > 0 && NetOk(nets[0]) && start <= end <= |Queue(nets[0], link)|
    requires link.from != 0 && link.to != 0
    requires RunsBatch(nets, Batch(kind, link, QueueView(nets[0], link), start, end), at)
    ensures var actions := Batch(kind, link, QueueView(nets[0], link), start, end);
            |nets| == |actions| + 1 && forall i :: 0 <= i < |actions| ==> Resolves(nets[i], actions[i])
    ensures |nets| == end - start + 1 && Moved(kind, nets, link, start, end - start, at)
  {
    hide NetOk, RunsBatch, CopiedInOrder, Consumed, Batch, Resolves;
    EveryActionResolves(nets, kind, link, start, end, at);
    if kind.Duplicate? {
      BatchCopies(nets, link, start, end, at);
    } else {
      BatchConsumes(nets, kind, link, start, end, at);
    }
  }

  /** Messages start .. start + count - 1 of the queue were copied in order, or consumed. */
  ghost predicate Moved(kind: Kind, nets: seq<Net>, link: Link, start: nat, count: nat, at: nat)
    requires |nets| == count + 1
  {
    if kind.Duplicate? then CopiedInOrder(nets, link, start, count, at) else Consumed(nets[0], nets[count], link, start, count)
  }

  // ---------------------------------------------------------------- what a plan selects

  predicate Malformed(config: Config, plan: PlanAction) {
    plan.link.from == 0 || plan.link.to == 0 || plan.start < 0 || plan.count <= 0 || plan.count > config.maxBatch
  }

  /** Why nothing is resolved: a malformed plan before a missing receiver before a queue
      that holds nothing there. */
  lemma NothingResolved(config: Config, plan: PlanAction, target: Target, queue: seq<Observed>)
    ensures var r := ResolutionOf(config, plan, target, queue);
            && (r.status.Invalid? <==> Malformed(config, plan))
            && (r.status.Skipped? <==> !Malformed(config, plan) && plan.kind.Deliver? && target != Running)
            && (r.status.EmptyQueue? <==> !r.status.Invalid? && !r.status.Skipped?
                                          && (queue == [] || (plan.start >= |queue| && !config.clampStart)))
            && (r.actions == [] <==> r.status in {Invalid, Skipped, EmptyQueue})
            && (r.clamped <==> r.actions != [] && plan.start >= |queue|)
  {
  }

  /** What is resolved, on the plan's own numbers: as many actions as the plan asks for
      and the queue has from `start` on, in queue order, each naming its message and the
      position where it will be found. Behind the end the last message alone is meant. */
  lemma SelectsFrom(config: Config, plan: PlanAction, target: Target, queue: seq<Observed>)
    requires ResolutionOf(config, plan, target, queue).actions != []
    ensures plan.start >= 0 && plan.count > 0 && queue != []
    ensures var r := ResolutionOf(config, plan, target, queue);
            plan.start < |queue| ==>
              && |r.actions| == Smaller(plan.count, |queue| - plan.start)
              && forall i :: 0 <= i < |r.actions| ==>
                   && r.actions[i].kind == plan.kind && r.actions[i].link == plan.link
                   && r.actions[i].id == queue[plan.start + i].message.id
                   && r.actions[i].position == plan.start + (if plan.kind.Duplicate? then i else 0)
    ensures var r := ResolutionOf(config, plan, target, queue);
            plan.start >= |queue| ==> r.actions == [Action(plan.kind, queue[|queue| - 1].message.id, plan.link, |queue| - 1)]
    ensures var r := ResolutionOf(config, plan, target, queue);
            r.status == if |r.actions| == plan.count then Resolved else Partial
  {
  }
}
