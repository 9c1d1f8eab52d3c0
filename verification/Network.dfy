/** The deterministic network: one FIFO queue per directed link, message IDs from
    one counter, link sequences from one counter per link. */
module Networks {
  import opened Arithmetic
  import opened Keys

  const MAX: int := TWO_64 - 1

  datatype Link = Link(from: nat, to: nat)

  /** ID 0 means "none": not yet registered, no parent, or no IDs left. */
  datatype Message = Message(id: nat, sequence: nat, parent: nat, from: nat, to: nat, epoch: nat, body: int)

  datatype Queued = Queued(message: Message, at: nat)

  datatype Net = Net(queues: map<Link, seq<Queued>>, nextId: nat, last: map<Link, nat>)

  const EmptyNet: Net := Net(map[], 1, map[])

  function LinkOf(m: Message): Link {
    Link(m.from, m.to)
  }

  function Queue(net: Net, link: Link): seq<Queued> {
    if link in net.queues then net.queues[link] else []
  }

  function LastSequence(net: Net, link: Link): nat {
    if link in net.last then net.last[link] else 0
  }

  // ---------------------------------------------------------------- specification

  predicate GoodEnvelope(m: Message) {
    m.from != 0 && m.to != 0 && m.epoch != 0 && !(m.parent != 0 && m.id != 0 && m.parent == m.id)
  }

  predicate Outbound(m: Message) {
    GoodEnvelope(m) && m.id == 0 && m.sequence == 0 && m.parent == 0
  }

  predicate Registered(m: Message) {
    GoodEnvelope(m) && m.id != 0 && m.sequence != 0
  }

  function Stamped(net: Net, m: Message, parent: nat): Message {
    m.(id := net.nextId, sequence := LastSequence(net, LinkOf(m)) + 1, parent := parent)
  }

  predicate CanRegister(net: Net, m: Message, parent: nat) {
    Outbound(m) && net.nextId != 0 && LastSequence(net, LinkOf(m)) != MAX && Registered(Stamped(net, m, parent))
  }

  function AfterRegister(net: Net, m: Message, parent: nat, at: nat): Net {
    var message := Stamped(net, m, parent);
    Net(net.queues[LinkOf(m) := Queue(net, LinkOf(m)) + [Queued(message, at)]],
        if net.nextId == MAX then 0 else net.nextId + 1,
        net.last[LinkOf(m) := message.sequence])
  }

  /** The message ID, the link and the position must all agree. */
  predicate CanResolve(net: Net, id: nat, link: Link, position: nat) {
    && id != 0 && link.from != 0 && link.to != 0
    && position < |Queue(net, link)| && Queue(net, link)[position].message.id == id
  }

  function WithQueue(net: Net, link: Link, queue: seq<Queued>): Net {
    net.(queues := if queue == [] then net.queues - {link} else net.queues[link := queue])
  }

  function AfterRemove(net: Net, link: Link, position: nat): Net
    requires position < |Queue(net, link)|
  {
    WithQueue(net, link, Queue(net, link)[..position] + Queue(net, link)[position + 1..])
  }

  function Unstamped(m: Message): Message {
    m.(id := 0, sequence := 0, parent := 0)
  }

  // ---------------------------------------------------------------- the invariant

  /** `next` is the next free message ID (0 when none is left), `last` the last
      sequence handed out on the link. */
  ghost predicate QueueOk(next: nat, last: nat, link: Link, queue: seq<Queued>) {
    && (forall i :: 0 <= i < |queue| ==> LinkOf(queue[i].message) == link && Registered(queue[i].message))
    && (forall i :: 0 <= i < |queue| ==> queue[i].message.id <= MAX && queue[i].message.sequence <= last)
    && (next != 0 ==> forall i :: 0 <= i < |queue| ==> queue[i].message.id < next)
    && (forall i, j :: 0 <= i < j < |queue| ==> queue[i].message.id < queue[j].message.id)
    && (forall i, j :: 0 <= i < j < |queue| ==> queue[i].message.sequence < queue[j].message.sequence)
  }

  ghost predicate DifferentIds(a: seq<Queued>, b: seq<Queued>) {
    forall i, j :: 0 <= i < |a| && 0 <= j < |b| ==> a[i].message.id != b[j].message.id
  }

  /** IDs and sequences increase along each queue and no ID is held twice. */
  ghost predicate NetOk(net: Net) {
    && net.nextId <= MAX
    && (forall link :: LastSequence(net, link) <= MAX)
    && (forall link | link in net.queues :: net.queues[link] != [])
    && (forall link :: QueueOk(net.nextId, LastSequence(net, link), link, Queue(net, link)))
    && (forall l, k | l != k :: DifferentIds(Queue(net, l), Queue(net, k)))
  }

  lemma AppendKeepsQueue(next: nat, last: nat, link: Link, queue: seq<Queued>, m: Queued, next': nat)
    requires QueueOk(next, last, link, queue) && 0 < next <= MAX && next' == (if next == MAX then 0 else next + 1)
    requires m.message.id == next && m.message.sequence == last + 1 && LinkOf(m.message) == link && Registered(m.message)
    ensures QueueOk(next', last + 1, link, queue + [m])
  {
  }

  lemma RegisterFrame(net: Net, m: Message, parent: nat, at: nat, l: Link)
    ensures var link, net' := LinkOf(m), AfterRegister(net, m, parent, at);
            && Queue(net', l) == Queue(net, l) + (if l == link then [Queued(Stamped(net, m, parent), at)] else [])
            && LastSequence(net', l) == LastSequence(net, l) + (if l == link then 1 else 0)
  {
  }

  lemma RemoveFrame(net: Net, link: Link, position: nat, l: Link)
    requires position < |Queue(net, link)|
    ensures var net' := AfterRemove(net, link, position);
            && LastSequence(net', l) == LastSequence(net, l)
            && Queue(net', l) == if l == link then Queue(net, link)[..position] + Queue(net, link)[position + 1..] else Queue(net, l)
  {
  }

  lemma RegisterKeepsOk(net: Net, m: Message, parent: nat, at: nat)
    requires NetOk(net) && CanRegister(net, m, parent)
    ensures NetOk(AfterRegister(net, m, parent, at))
  {
    hide QueueOk, DifferentIds, Registered;
    var link, net' := LinkOf(m), AfterRegister(net, m, parent, at);
    var queued := Queued(Stamped(net, m, parent), at);
    forall l
      ensures LastSequence(net', l) <= MAX && QueueOk(net'.nextId, LastSequence(net', l), l, Queue(net', l))
    {
      RegisterFrame(net, m, parent, at, l);
      if l == link {
        AppendKeepsQueue(net.nextId, LastSequence(net, link), link, Queue(net, link), queued, net'.nextId);
      } else {
        NextMayGrow(net.nextId, LastSequence(net, l), l, Queue(net, l), net'.nextId);
      }
    }
    forall l, k | l != k
      ensures DifferentIds(Queue(net', l), Queue(net', k))
    {
      RegisterFrame(net, m, parent, at, l);
      RegisterFrame(net, m, parent, at, k);
      NewIdIsApart(net.nextId, LastSequence(net, l), l, Queue(net, l), LastSequence(net, k), k, Queue(net, k), queued);
    }
  }

  lemma NextMayGrow(next: nat, last: nat, link: Link, queue: seq<Queued>, next': nat)
    requires QueueOk(next, last, link, queue) && 0 < next <= MAX && next' == (if next == MAX then 0 else next + 1)
    ensures QueueOk(next', last, link, queue)
  {
  }

  lemma NewIdIsApart(next: nat, last: nat, l: Link, a: seq<Queued>, last': nat, k: Link, b: seq<Queued>, m: Queued)
    requires QueueOk(next, last, l, a) && QueueOk(next, last', k, b) && DifferentIds(a, b)
    requires next != 0 && m.message.id == next
    ensures DifferentIds(a + [m], b) && DifferentIds(a, b + [m])
  {
  }

  lemma CutKeepsQueue(next: nat, last: nat, link: Link, queue: seq<Queued>, position: nat)
    requires QueueOk(next, last, link, queue) && position < |queue|
    ensures QueueOk(next, last, link, queue[..position] + queue[position + 1..])
  {
    var rest := queue[..position] + queue[position + 1..];
    assert forall i :: 0 <= i < |rest| ==> rest[i] == queue[if i < position then i else i + 1];
  }

  lemma CutKeepsApart(a: seq<Queued>, position: nat, b: seq<Queued>)
    requires DifferentIds(a, b) && DifferentIds(b, a) && position < |a|
    ensures DifferentIds(a[..position] + a[position + 1..], b) && DifferentIds(b, a[..position] + a[position + 1..])
  {
    var rest := a[..position] + a[position + 1..];
    assert forall i :: 0 <= i < |rest| ==> rest[i] == a[if i < position then i else i + 1];
  }

  lemma RemoveKeepsOk(net: Net, link: Link, position: nat)
    requires NetOk(net) && position < |Queue(net, link)|
    ensures NetOk(AfterRemove(net, link, position))
  {
    hide QueueOk, DifferentIds;
    var net' := AfterRemove(net, link, position);
    forall l
      ensures LastSequence(net', l) <= MAX && QueueOk(net'.nextId, LastSequence(net', l), l, Queue(net', l))
    {
      RemoveFrame(net, link, position, l);
      if l == link {
        CutKeepsQueue(net.nextId, LastSequence(net, link), link, Queue(net, link), position);
      }
    }
    forall l, k | l != k
      ensures DifferentIds(Queue(net', l), Queue(net', k))
    {
      RemoveFrame(net, link, position, l);
      RemoveFrame(net, link, position, k);
      if l == link {
        CutKeepsApart(Queue(net, link), position, Queue(net, k));
      } else if k == link {
        CutKeepsApart(Queue(net, link), position, Queue(net, l));
      }
    }
  }

  // ---------------------------------------------------------------- traffic in between

  /** The system under test may have sent anything meanwhile. */
  ghost predicate Extends(net: Net, net': Net) {
    forall link :: Queue(net, link) <= Queue(net', link)
  }

  /** Registering any messages on any links extends every queue at its tail. */
  lemma RegisterExtends(net: Net, m: Message, parent: nat, at: nat)
    ensures Extends(net, AfterRegister(net, m, parent, at))
  {
    forall l
      ensures Queue(net, l) <= Queue(AfterRegister(net, m, parent, at), l)
    {
      RegisterFrame(net, m, parent, at, l);
    }
  }

  lemma ExtendsItself(net: Net)
    ensures Extends(net, net)
  {
  }

  lemma ExtendsTransitive(a: Net, b: Net, c: Net)
    requires Extends(a, b) && Extends(b, c)
    ensures Extends(a, c)
  {
    forall l
      ensures Queue(a, l) <= Queue(c, l)
    {
      assert Queue(a, l) <= Queue(b, l) <= Queue(c, l);
    }
  }

  // ---------------------------------------------------------------- IDs over a whole execution

  /** Everything that can happen to a network, with arguments that may be refused. */
  datatype Operation = Registering(m: Message, parent: nat, at: nat) | Removing(link: Link, position: nat)

  /** The IDs handed out by a sequence of operations, in order. */
  function Issued(net: Net, ops: seq<Operation>): seq<int>
    decreases |ops|
  {
    if ops == [] then []
    else match ops[0]
      case Registering(m, parent, at) =>
        if CanRegister(net, m, parent) then [net.nextId] + Issued(AfterRegister(net, m, parent, at), ops[1..])
        else Issued(net, ops[1..])
      case Removing(link, position) =>
        if position < |Queue(net, link)| then Issued(AfterRemove(net, link, position), ops[1..]) else Issued(net, ops[1..])
  }

  predicate CountsUp(first: nat, ids: seq<int>) {
    forall i :: 0 <= i < |ids| ==> ids[i] == first + i <= MAX
  }

  /** No ID is ever handed out twice and none is left out: they count up from the next
      free one until the 64-bit space is used up, and then there are no more. */
  lemma {:induction false} IdsNeverReused(net: Net, ops: seq<Operation>)
    requires net.nextId <= MAX
    ensures Increasing(Issued(net, ops))
    ensures net.nextId == 0 ==> Issued(net, ops) == []
    ensures CountsUp(net.nextId, Issued(net, ops))
    decreases |ops|
  {
    if ops != [] {
      match ops[0]
      case Registering(m, parent, at) =>
        if CanRegister(net, m, parent) {
          var later := Issued(AfterRegister(net, m, parent, at), ops[1..]);
          IdsNeverReused(AfterRegister(net, m, parent, at), ops[1..]);
          CountUp(net.nextId, AfterRegister(net, m, parent, at).nextId, later);
          assert Issued(net, ops) == [net.nextId] + later;
        } else {
          IdsNeverReused(net, ops[1..]);
        }
      case Removing(link, position) =>
        if position < |Queue(net, link)| {
          IdsNeverReused(AfterRemove(net, link, position), ops[1..]);
        } else {
          IdsNeverReused(net, ops[1..]);
        }
    }
  }

  lemma CountUp(next: nat, after: nat, later: seq<int>)
    requires 0 < next <= MAX && after == (if next == MAX then 0 else next + 1) && (after == 0 ==> later == [])
    requires CountsUp(after, later)
    ensures CountsUp(next, [next] + later)
  {
    assert forall i :: 0 < i <= |later| ==> ([next] + later)[i] == later[i - 1];
  }

  // ---------------------------------------------------------------- observations

  datatype Observed = Observed(message: Message, position: nat, at: nat)

  function ObservedAt(net: Net, link: Link, position: nat): Observed
    requires position < |Queue(net, link)|
  {
    Observed(Queue(net, link)[position].message, position, Queue(net, link)[position].at)
  }

  function QueueView(net: Net, link: Link): seq<Observed> {
    seq(|Queue(net, link)|, i requires 0 <= i < |Queue(net, link)| => ObservedAt(net, link, i))
  }

  /** The list holds each message of the given links, and nothing else. */
  ghost predicate ShowsOnly(list: seq<Observed>, net: Net, links: set<Link>) {
    && (forall m | m in list :: LinkOf(m.message) in links && m in QueueView(net, LinkOf(m.message)))
    && (forall link | link in links :: forall m | m in QueueView(net, link) :: m in list)
  }

  ghost predicate Shows(list: seq<Observed>, net: Net) {
    ShowsOnly(list, net, net.queues.Keys) && Distinct(list)
  }

  lemma ViewIsDistinct(net: Net, link: Link)
    requires NetOk(net)
    ensures Distinct(QueueView(net, link))
    ensures forall m | m in QueueView(net, link) :: LinkOf(m.message) == link
  {
    assert QueueOk(net.nextId, LastSequence(net, link), link, Queue(net, link));
  }

  lemma AddsOneLink(list: seq<Observed>, net: Net, links: set<Link>, link: Link)
    requires NetOk(net) && ShowsOnly(list, net, links) && Distinct(list) && link !in links
    ensures ShowsOnly(list + QueueView(net, link), net, links + {link}) && Distinct(list + QueueView(net, link))
  {
    ViewIsDistinct(net, link);
    var view := QueueView(net, link);
    var both := list + view;
    hide NetOk, QueueView;
    forall i, j | 0 <= i < j < |both|
      ensures both[i] != both[j]
    {
      if i < |list| <= j {
        assert both[i] in list && both[j] in view;
      }
    }
    forall m | m in both
      ensures LinkOf(m.message) in links + {link} && m in QueueView(net, LinkOf(m.message))
    {
      assert m in list || m in view;
    }
  }

  // ---------------------------------------------------------------- the order of the listing

  predicate LinkBefore(a: Link, b: Link) {
    a.from < b.from || (a.from == b.from && a.to < b.to)
  }

  ghost predicate Least(link: Link, links: set<Link>) {
    link in links && forall l | l in links :: l == link || LinkBefore(link, l)
  }

  lemma {:induction false} SomeLeast(links: set<Link>)
    requires links != {}
    ensures exists link :: Least(link, links)
  {
    var one :| one in links;
    var rest := links - {one};
    assert forall l | l in links :: l == one || l in rest;
    if rest == {} {
      assert Least(one, links);
    } else {
      SomeLeast(rest);
      var least :| Least(least, rest);
      assert Least(if LinkBefore(one, least) then one else least, links);
    }
  }

  /** By link, and within a link by position. */
  predicate Precedes(a: Observed, b: Observed) {
    LinkBefore(LinkOf(a.message), LinkOf(b.message)) || (LinkOf(a.message) == LinkOf(b.message) && a.position < b.position)
  }

  ghost predicate InOrder(list: seq<Observed>) {
    forall i, j :: 0 <= i < j < |list| ==> Precedes(list[i], list[j])
  }

  lemma NextLinkInOrder(list: seq<Observed>, net: Net, link: Link)
    requires NetOk(net) && InOrder(list) && forall m | m in list :: LinkBefore(LinkOf(m.message), link)
    ensures InOrder(list + QueueView(net, link))
  {
    ViewIsDistinct(net, link);
    var view := QueueView(net, link);
    var both := list + view;
    hide NetOk;
    forall i, j | 0 <= i < j < |both|
      ensures Precedes(both[i], both[j])
    {
      if i < |list| <= j {
        assert both[i] in list && both[j] in view;
      } else if |list| <= i {
        assert both[i] in view && both[j] in view;
      }
    }
  }

  /** Everything listed belongs to links before the next one. */
  lemma ListedBefore(list: seq<Observed>, net: Net, links: set<Link>, next: Link)
    requires ShowsOnly(list, net, links) && forall l | l in links :: LinkBefore(l, next)
    ensures forall m | m in list :: LinkBefore(LinkOf(m.message), next)
  {
    hide QueueView, LinkBefore;
  }

  lemma NothingListed()
    ensures InOrder([])
  {
  }

  lemma OneLinkLess(queues: map<Link, seq<Queued>>, rest: map<Link, seq<Queued>>, link: Link)
    requires link in rest && forall l | l in rest :: l in queues
    ensures queues.Keys - (rest - {link}).Keys == queues.Keys - rest.Keys + {link}
  {
  }

  // ---------------------------------------------------------------- how many messages are queued

  lemma SomeKey(queues: map<Link, seq<Queued>>)
    requires queues != map[]
    ensures exists link :: link in queues
  {
    assert (forall link :: link !in queues) ==> queues == map[];
  }

  ghost function Total(queues: map<Link, seq<Queued>>): nat
    decreases queues.Keys
  {
    if queues == map[] then 0
    else
      SomeKey(queues);
      var link :| link in queues;
      |queues[link]| + Total(queues - {link})
  }

  /** Any link may be counted first. */
  lemma {:induction false} TotalStep(queues: map<Link, seq<Queued>>, link: Link)
    requires link in queues
    ensures Total(queues) == |queues[link]| + Total(queues - {link})
    decreases queues.Keys
  {
    SomeKey(queues);
    var first :| first in queues && Total(queues) == |queues[first]| + Total(queues - {first});
    if first != link {
      TotalStep(queues - {first}, link);
      TotalStep(queues - {link}, first);
      assert queues - {first} - {link} == queues - {link} - {first};
    }
  }

  lemma TotalOfRegister(net: Net, m: Message, parent: nat, at: nat)
    ensures Total(AfterRegister(net, m, parent, at).queues) == Total(net.queues) + 1
  {
    var link, queues' := LinkOf(m), AfterRegister(net, m, parent, at).queues;
    TotalStep(queues', link);
    assert queues' - {link} == net.queues - {link};
    if link in net.queues {
      TotalStep(net.queues, link);
    } else {
      assert net.queues - {link} == net.queues;
    }
  }

  lemma TotalOfRemove(net: Net, link: Link, position: nat)
    requires position < |Queue(net, link)|
    ensures Total(AfterRemove(net, link, position).queues) == Total(net.queues) - 1
  {
    var queues' := AfterRemove(net, link, position).queues;
    TotalStep(net.queues, link);
    assert queues' - {link} == net.queues - {link};
    if link in queues' {
      TotalStep(queues', link);
    }
  }

  // ---------------------------------------------------------------- the object

  class Network {
    var queues: map<Link, seq<Queued>>
    var nextMessageId: nat
    var lastLinkSequence: map<Link, nat>

    function View(): Net
      reads this
    {
      Net(queues, nextMessageId, lastLinkSequence)
    }

    constructor ()
      ensures View() == EmptyNet
    {
      queues, nextMessageId, lastLinkSequence := map[], 1, map[];
    }

    method Reset()
      modifies this
      ensures View() == EmptyNet
    {
      queues, nextMessageId, lastLinkSequence := map[], 1, map[];
    }

    method Register(outbound: Message, parent: nat, at: nat) returns (registered: Option<Message>)
      modifies this
      ensures registered.Some? <==> CanRegister(old(View()), outbound, parent)
      ensures registered.Some? ==> registered.value == Stamped(old(View()), outbound, parent)
                                   && View() == AfterRegister(old(View()), outbound, parent, at)
      ensures registered.None? ==> View() == old(View())
    {
      if !Outbound(outbound) || nextMessageId == 0 {
        return None;
      }
      var link := LinkOf(outbound);
      var lastSequence := if link in lastLinkSequence then lastLinkSequence[link] else 0;
      if lastSequence == MAX {
        return None;
      }
      var message := outbound.(id := nextMessageId, sequence := lastSequence + 1, parent := parent);
      if !Registered(message) {
        return None;
      }
      nextMessageId := if nextMessageId == MAX then 0 else nextMessageId + 1;
      lastLinkSequence := lastLinkSequence[link := message.sequence];
      queues := queues[link := (if link in queues then queues[link] else []) + [Queued(message, at)]];
      registered := Some(message);
    }

    method Resolve(id: nat, link: Link, position: int) returns (selected: Option<Queued>)
      ensures selected.Some? <==> position >= 0 && CanResolve(View(), id, link, position)
      ensures selected.Some? ==> selected.value == Queue(View(), link)[position]
    {
      if id == 0 || link.from == 0 || link.to == 0 || position < 0 {
        return None;
      }
      var queue := if link in queues then queues[link] else [];
      if position >= |queue| || queue[position].message.id != id {
        return None;
      }
      selected := Some(queue[position]);
    }

    method Remove(id: nat, link: Link, position: int) returns (removed: Option<Message>)
      modifies this`queues
      ensures removed.Some? <==> position >= 0 && CanResolve(old(View()), id, link, position)
      ensures removed.Some? ==> removed.value == Queue(old(View()), link)[position].message
                                && View() == AfterRemove(old(View()), link, position)
      ensures removed.None? ==> View() == old(View())
    {
      var selected := Resolve(id, link, position);
      if selected.None? {
        return None;
      }
      var queue := queues[link];
      queue := queue[..position] + queue[position + 1..];
      queues := if |queue| == 0 then queues - {link} else queues[link := queue];
      removed := Some(selected.value.message);
    }

    /** The original stays; its copy joins the tail of the same link under a new ID. */
    method Duplicate(id: nat, link: Link, position: int, at: nat) returns (copied: Option<Message>)
      modifies this
      ensures copied.Some? <==> position >= 0 && CanDuplicate(old(View()), id, link, position)
      ensures copied.Some? ==> View() == AfterDuplicate(old(View()), link, position, at)
      ensures copied.None? ==> View() == old(View())
    {
      var selected := Resolve(id, link, position);
      if selected.None? {
        return None;
      }
      copied := Register(Unstamped(selected.value.message), selected.value.message.id, at);
    }

    /** Every queued message with its position, sorted by link and position. */
    method Observations() returns (result: seq<Observed>)
      requires NetOk(View())
      ensures Shows(result, View()) && InOrder(result)
    {
      hide LinkBefore, Precedes, InOrder;
      result := [];
      NothingListed();
      var rest := queues;
      while rest != map[]
        invariant forall l | l in rest :: l in queues && rest[l] == queues[l]
        invariant forall done, l | done in queues && done !in rest && l in rest :: LinkBefore(done, l)
        invariant ShowsOnly(result, View(), queues.Keys - rest.Keys) && Distinct(result) && InOrder(result)
        decreases rest.Keys
      {
        SomeKey(rest);
        SomeLeast(rest.Keys);
        var link :| link in rest && forall l | l in rest :: l == link || LinkBefore(link, l);
        var queue := rest[link];
        ghost var before := result;
        for position := 0 to |queue|
          invariant result == before + QueueView(View(), link)[..position]
        {
          result := result + [ObservedAt(View(), link, position)];
        }
        assert QueueView(View(), link)[..|queue|] == QueueView(View(), link);
        ListedBefore(before, View(), queues.Keys - rest.Keys, link);
        NextLinkInOrder(before, View(), link);
        AddsOneLink(before, View(), queues.Keys - rest.Keys, link);
        OneLinkLess(queues, rest, link);
        rest := rest - {link};
      }
      assert rest.Keys == {};
    }

    /** How many messages are queued on all links. */
    method Len() returns (total: nat)
      ensures total == Total(queues)
    {
      total := 0;
      var rest := queues;
      while rest != map[]
        invariant total + Total(rest) == Total(queues)
        decreases rest.Keys
      {
        SomeKey(rest);
        var link :| link in rest;
        TotalStep(rest, link);
        total := total + |rest[link]|;
        rest := rest - {link};
      }
    }
  }

  function CanDuplicateMessage(net: Net, link: Link, position: nat): bool
    requires position < |Queue(net, link)|
  {
    CanRegister(net, Unstamped(Queue(net, link)[position].message), Queue(net, link)[position].message.id)
  }

  predicate CanDuplicate(net: Net, id: nat, link: Link, position: nat) {
    CanResolve(net, id, link, position) && CanDuplicateMessage(net, link, position)
  }

  function AfterDuplicate(net: Net, link: Link, position: nat, at: nat): Net
    requires position < |Queue(net, link)|
  {
    var original := Queue(net, link)[position].message;
    AfterRegister(net, Unstamped(original), original.id, at)
  }
}
