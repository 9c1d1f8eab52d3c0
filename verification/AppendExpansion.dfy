/** How the mapper turns one delivered MsgApp into single-entry model events, and
    why running those events in order means the same as the atomic append. */
module AppendExpansion {
  import opened Arithmetic
  import opened Keys

  /** A replicated entry; a leader's no-op carries no client value. */
  datatype Entry = Entry(term: nat, data: Option<int>)

  datatype RawEntry = RawEntry(term: nat, data: Option<int>, normal: bool)

  datatype Append<E> = Append(from: nat, to: nat, term: nat, commit: nat, logTerm: nat, index: nat, entries: seq<E>)

  /** One DeliverMessage event of the model. */
  type Event = Append<Entry>

  datatype Config = Config(nodes: set<nat>, maxValue: int, maxLogIndex: nat, largestTerm: nat)

  datatype Mapped = Events(events: seq<Event>) | Unsupported

  // ---------------------------------------------------------------- the receiver (section 5.3 and Figure 2)

  datatype Role = Follower | Candidate | Leader

  datatype Receiver = Receiver(term: nat, role: Role, log: seq<Entry>, commit: nat)

  /** No reply for a stale term; otherwise accepted or rejected. */
  datatype Reply = Silent | Accepted | Rejected

  predicate Contains(log: seq<Entry>, index: nat, term: nat) {
    index <= |log| && (index == 0 || log[index - 1].term == term)
  }

  /** Steps 3 and 4: delete from the first conflict on, append what is missing. */
  function Merge(log: seq<Entry>, index: nat, entries: seq<Entry>): seq<Entry>
    requires index <= |log|
    decreases |entries|
  {
    if entries == [] then log
    else if index < |log| && log[index].term == entries[0].term then Merge(log, index + 1, entries[1..])
    else log[..index] + entries
  }

  function Larger(a: nat, b: nat): nat {
    if a < b then b else a
  }

  function Smaller(a: nat, b: nat): nat {
    if a < b then a else b
  }

  /** A current term demotes the receiver and is adopted. */
  function Adopted(s: Receiver, term: nat): Receiver {
    s.(term := term, role := Follower)
  }

  /** Figure 2's AppendEntries receiver. */
  function Receive(s: Receiver, m: Event): Receiver {
    if m.term < s.term then s
    else if !Contains(s.log, m.index, m.logTerm) then Adopted(s, m.term)
    else Adopted(s, m.term).(log := Merge(s.log, m.index, m.entries),
                             commit := Larger(s.commit, Smaller(m.commit, m.index + |m.entries|)))
  }

  function ReplyTo(s: Receiver, m: Event): Reply {
    if m.term < s.term then Silent
    else if m.index < s.commit || Contains(s.log, m.index, m.logTerm) then Accepted
    else Rejected
  }

  /** What the implementation under test does: as Figure 2, except that a message
      whose previous index is already committed is answered without looking at it. */
  function Implementation(s: Receiver, m: Event): Receiver {
    if m.term >= s.term && m.index < s.commit then Adopted(s, m.term) else Receive(s, m)
  }

  function Run(s: Receiver, events: seq<Event>): Receiver
    decreases |events|
  {
    if events == [] then s else Run(Receive(s, events[0]), events[1..])
  }

  ghost predicate AllAccepted(s: Receiver, events: seq<Event>)
    decreases |events|
  {
    events != [] ==> ReplyTo(s, events[0]).Accepted? && AllAccepted(Receive(s, events[0]), events[1..])
  }

  // ---------------------------------------------------------------- the mapper

  predicate InBounds<E>(c: Config, m: Append<E>) {
    && m.from in c.nodes && m.to in c.nodes && m.term <= c.largestTerm && m.logTerm <= c.largestTerm
    && m.index <= c.maxLogIndex && m.commit <= c.maxLogIndex
  }

  predicate Modelled(c: Config, e: RawEntry) {
    e.term <= c.largestTerm && e.normal && (e.data.Some? ==> 1 <= e.data.value <= c.maxValue)
  }

  function Projected(e: RawEntry): Entry {
    Entry(e.term, e.data)
  }

  function ProjectedAll(entries: seq<RawEntry>): seq<Entry> {
    seq(|entries|, i requires 0 <= i < |entries| => Projected(entries[i]))
  }

  function Normalized(m: Append<RawEntry>): Event {
    Append(m.from, m.to, m.term, m.commit, m.logTerm, m.index, ProjectedAll(m.entries))
  }

  /** One event per entry, each naming the entry before it. */
  function Singles(m: Event): seq<Event>
    decreases |m.entries|
  {
    if m.entries == [] then []
    else
      [m.(entries := [m.entries[0]])]
      + Singles(m.(index := m.index + 1, logTerm := m.entries[0].term, entries := m.entries[1..]))
  }

  /** An append that changes no log: only the term and role remain of the message. */
  function Nil(m: Event, commit: nat): Event {
    m.(index := 0, logTerm := 0, commit := commit, entries := [])
  }

  /** The MsgApp case; `reply` is the reject flag of the response found among the effects. */
  function Expand(m: Event, beforeCommit: nat, reply: Option<bool>): seq<Event> {
    if m.index < beforeCommit then [Nil(m, beforeCommit)]
    else if |m.entries| <= 1 then [m]
    else if reply == Some(false) then Singles(m)
    else [m.(entries := m.entries[..1])]
  }

  /** An effect of the delivery, as far as the search for the reply looks at it: whether
      it sends a MsgAppResp, between whom, and its reject metadata if that parses. */
  datatype Effect = Effect(appResponse: bool, from: nat, to: nat, reject: Option<bool>)

  datatype Lookup = Found(reject: bool) | NotFound | BadMetadata

  predicate Answers(e: Effect, from: nat, to: nat) {
    e.appResponse && e.from == from && e.to == to
  }

  ghost predicate FirstAnswer(effects: seq<Effect>, from: nat, to: nat, i: int) {
    0 <= i < |effects| && Answers(effects[i], from, to) && forall j :: 0 <= j < i ==> !Answers(effects[j], from, to)
  }

  function LookupOf(reject: Option<bool>): Lookup {
    if reject.None? then BadMetadata else Found(reject.value)
  }

  function FlagFound(found: Lookup): Option<bool> {
    if found.Found? then Some(found.reject) else None
  }

  /** The reject flag of the first reply among the effects. */
  method AppendResponse(effects: seq<Effect>, from: nat, to: nat) returns (found: Lookup)
    ensures found.NotFound? <==> forall i :: 0 <= i < |effects| ==> !Answers(effects[i], from, to)
    ensures forall i | FirstAnswer(effects, from, to, i) :: found == LookupOf(effects[i].reject)
  {
    for i := 0 to |effects|
      invariant forall j :: 0 <= j < i ==> !Answers(effects[j], from, to)
    {
      if effects[i].appResponse && effects[i].from == from && effects[i].to == to {
        assert forall j | FirstAnswer(effects, from, to, j) :: j == i;
        return LookupOf(effects[i].reject);
      }
    }
    found := NotFound;
  }

  /** The reply is only looked for when a batch may have to be expanded. */
  predicate NeedsReply(m: Append<RawEntry>, beforeCommit: nat) {
    m.index >= beforeCommit && |m.entries| > 1
  }

  method NormalizeEntries(c: Config, raw: seq<RawEntry>) returns (entries: Option<seq<Entry>>)
    ensures entries.Some? <==> forall i :: 0 <= i < |raw| ==> Modelled(c, raw[i])
    ensures entries.Some? ==> entries.value == ProjectedAll(raw)
  {
    var result := [];
    for i := 0 to |raw|
      invariant forall j :: 0 <= j < i ==> Modelled(c, raw[j])
      invariant result == ProjectedAll(raw[..i])
    {
      if !Modelled(c, raw[i]) {
        return None;
      }
      result := result + [Projected(raw[i])];
    }
    assert raw[..|raw|] == raw;
    entries := Some(result);
  }

  /** mapDeliveredMessage for MsgApp, in the source's 64-bit arithmetic. */
  method MapAppend(c: Config, raw: Append<RawEntry>, beforeCommit: nat, effects: seq<Effect>)
      returns (mapped: Mapped, found: Lookup)
    requires c.maxLogIndex < TWO_64 && |raw.entries| < TWO_64
    ensures found.NotFound? || NeedsReply(raw, beforeCommit)
    ensures forall i | FirstAnswer(effects, raw.to, raw.from, i) && !found.NotFound? :: found == LookupOf(effects[i].reject)
    ensures mapped.Events? <==>
              && InBounds(c, raw) && (forall i :: 0 <= i < |raw.entries| ==> Modelled(c, raw.entries[i]))
              && raw.index + |raw.entries| <= c.maxLogIndex && !found.BadMetadata?
    ensures mapped.Events? && NeedsReply(raw, beforeCommit) && found.NotFound? ==>
              forall i :: 0 <= i < |effects| ==> !Answers(effects[i], raw.to, raw.from)
    ensures mapped.Events? ==> mapped.events == Expand(Normalized(raw), beforeCommit, FlagFound(found))
  {
    found := NotFound;
    if !InBounds(c, raw) {
      return Unsupported, found;
    }
    var entries := NormalizeEntries(c, raw.entries);
    if entries.None? || |entries.value| > Wrap(c.maxLogIndex - raw.index) {
      return Unsupported, found;
    }
    var m := Append(raw.from, raw.to, raw.term, raw.commit, raw.logTerm, raw.index, entries.value);
    if m.index < beforeCommit {
      return Events([Nil(m, beforeCommit)]), found;
    }
    if |m.entries| <= 1 {
      return Events([m]), found;
    }
    found := AppendResponse(effects, m.to, m.from);
    if found.BadMetadata? {
      return Unsupported, found;
    }
    if found.NotFound? || found.reject {
      return Events([m.(entries := m.entries[..1])]), found;
    }
    var events := ExpandBatch(c, m);
    mapped := Events(events);
  }

  method ExpandBatch(c: Config, m: Event) returns (events: seq<Event>)
    requires m.index + |m.entries| <= c.maxLogIndex < TWO_64
    ensures events == Singles(m)
  {
    hide Singles, From, Wrap;
    SinglesEnds(m);
    events := [];
    var previousTerm := m.logTerm;
    for i := 0 to |m.entries|
      invariant previousTerm == TermBefore(m, i)
      invariant events + Singles(From(m, i)) == Singles(m)
    {
      SinglesFrom(m, i);
      NoWrap(m.index + i);
      events := events + [m.(index := Wrap(m.index + i), logTerm := previousTerm, entries := [m.entries[i]])];
      previousTerm := m.entries[i].term;
    }
  }

  lemma SinglesEnds(m: Event)
    ensures From(m, 0) == m && Singles(From(m, |m.entries|)) == []
  {
  }

  lemma SinglesFrom(m: Event, i: nat)
    requires i < |m.entries|
    ensures Singles(From(m, i))
         == [m.(index := m.index + i, logTerm := TermBefore(m, i), entries := [m.entries[i]])] + Singles(From(m, i + 1))
  {
    assert From(m, i).entries[1..] == m.entries[i + 1..];
  }

  function TermBefore(m: Event, i: nat): nat
    requires i <= |m.entries|
  {
    if i == 0 then m.logTerm else m.entries[i - 1].term
  }

  /** The message with its first i entries already delivered. */
  function From(m: Event, i: nat): Event
    requires i <= |m.entries|
  {
    m.(index := m.index + i, logTerm := TermBefore(m, i), entries := m.entries[i..])
  }

  // ---------------------------------------------------------------- meaning

  /** Merging the first entry and then the rest is merging all of them, and
      leaves the first entry's term where the second event looks for it. */
  lemma MergeStep(log: seq<Entry>, index: nat, entries: seq<Entry>)
    requires index <= |log| && entries != []
    ensures var first := Merge(log, index, [entries[0]]);
            && index < |first| && first[index].term == entries[0].term
            && first[..index] == log[..index]
            && Merge(first, index + 1, entries[1..]) == Merge(log, index, entries)
  {
    if !(index < |log| && log[index].term == entries[0].term) {
      var first := log[..index] + [entries[0]];
      assert first[..index + 1] == first;
      if |entries| > 1 {
        assert first + entries[1..] == log[..index] + entries;
      }
    }
  }

  lemma CommitStep(commit: nat, leader: nat, next: nat, count: nat)
    requires count >= 1
    ensures Larger(Larger(commit, Smaller(leader, next)), Smaller(leader, next + count)) == Larger(commit, Smaller(leader, next + count))
  {
  }

  lemma FirstSingle(m: Event)
    requires m.entries != []
    ensures var tail := m.(index := m.index + 1, logTerm := m.entries[0].term, entries := m.entries[1..]);
            && Singles(m) == [m.(entries := [m.entries[0]])] + Singles(tail)
            && (|m.entries| == 1 ==> Singles(tail) == [])
  {
  }

  /** Entry by entry the batch is accepted throughout and ends where the atomic
      append ends. */
  lemma {:induction false} SinglesMeanTheBatch(s: Receiver, m: Event)
    requires m.term >= s.term && Contains(s.log, m.index, m.logTerm) && m.entries != []
    ensures Run(s, Singles(m)) == Receive(s, m)
    ensures AllAccepted(s, Singles(m))
    decreases |m.entries|
  {
    hide Merge, Singles, Larger, Smaller;
    var head := m.(entries := [m.entries[0]]);
    var tail := m.(index := m.index + 1, logTerm := m.entries[0].term, entries := m.entries[1..]);
    MergeStep(s.log, m.index, m.entries);
    FirstSingle(m);
    if |m.entries| > 1 {
      SinglesMeanTheBatch(Receive(s, head), tail);
      CommitStep(s.commit, m.commit, m.index + 1, |m.entries| - 1);
    } else {
      assert m.entries == [m.entries[0]];
    }
  }

  /** A flag the mapper may find when the receiver behaves as specified; for a stale
      message, which has no reply, any flag will do. */
  predicate Fits(reply: Reply, flag: Option<bool>) {
    match reply
    case Silent => true
    case Accepted => flag == Some(false)
    case Rejected => flag != Some(false)
  }

  lemma RunOne(s: Receiver, m: Event)
    ensures Run(s, [m]) == Receive(s, m)
  {
    assert [m][1..] == [];
  }

  lemma {:induction false} StaleStutters(s: Receiver, m: Event)
    requires m.term < s.term
    ensures Run(s, Singles(m)) == s
    decreases |m.entries|
  {
    if m.entries != [] {
      var head := m.(entries := [m.entries[0]]);
      var tail := m.(index := m.index + 1, logTerm := m.entries[0].term, entries := m.entries[1..]);
      assert Singles(m) == [head] + Singles(tail);
      StaleStutters(s, tail);
    }
  }

  /** Whatever the receiver did with the message, running the mapped events in the
      model ends in the same term, role, log and commit index. */
  lemma ExpansionPreservesMeaning(s: Receiver, m: Event, flag: Option<bool>)
    requires Fits(ReplyTo(s, m), flag)
    ensures Run(s, Expand(m, s.commit, flag)) == Implementation(s, m)
  {
    var events := Expand(m, s.commit, flag);
    if |m.entries| > 1 && m.index >= s.commit && flag == Some(false) {
      if ReplyTo(s, m).Accepted? {
        SinglesMeanTheBatch(s, m);
      } else {
        StaleStutters(s, m);
      }
    } else {
      RunOne(s, events[0]);
    }
  }

  /** A batch the receiver rejects, or ignores without a reply, leaves the log and
      commit index alone, and so does its first entry in the model. */
  lemma CutBatchChangesNoLog(s: Receiver, m: Event, flag: Option<bool>)
    requires |m.entries| > 1 && m.index >= s.commit && !ReplyTo(s, m).Accepted? && flag != Some(false)
    ensures Expand(m, s.commit, flag) == [m.(entries := m.entries[..1])]
    ensures Run(s, Expand(m, s.commit, flag)).log == s.log == Implementation(s, m).log
    ensures Run(s, Expand(m, s.commit, flag)).commit == s.commit == Implementation(s, m).commit
  {
    RunOne(s, m.(entries := m.entries[..1]));
  }

  /** Cutting is necessary: expanding this rejected batch would let the model
      accept its second entry. */
  lemma ExpandingARejectionIsWrong(s: Receiver, m: Event, e1: Entry, e2: Entry, e3: Entry)
    requires e1.term == 1 && e2.term == 2 && e3.term == 3
    requires s == Receiver(3, Follower, [e1, e2, e2], 0)
    requires m == Append(1, 2, 3, 0, 3, 1, [e2, e3])
    ensures ReplyTo(s, m).Rejected? && Implementation(s, m).log == s.log
    ensures Run(s, Singles(m)).log == [e1, e2, e3]
  {
    var first := m.(entries := [e2]);
    var second := m.(index := 2, logTerm := 2, entries := [e3]);
    var rest := m.(index := 2, logTerm := 2, entries := [e2, e3][1..]);
    var nothing := rest.(index := 3, logTerm := 3, entries := rest.entries[1..]);
    assert rest == second && Singles(nothing) == [];
    assert Singles(second) == [second] + Singles(nothing) == [second];
    assert Singles(m) == [first] + Singles(rest) == [first, second];
    assert Receive(s, first) == s;
    assert Merge(s.log, 2, [e3]) == [e1, e2] + [e3];
    RunOne(s, second);
    assert [first, second][1..] == [second];
  }

  // ---------------------------------------------------------------- what the events say

  /** Every event is the same leader's message to the same node in the same term. A
      message behind the commit index becomes one empty append carrying that index;
      otherwise the leader's commit index stays and the entries are the batch's own,
      one after the other. */
  lemma {:induction false} ExpansionKeepsTheSender(m: Event, beforeCommit: nat, reply: Option<bool>)
    ensures forall e | e in Expand(m, beforeCommit, reply) :: e.from == m.from && e.to == m.to && e.term == m.term
    ensures m.index < beforeCommit ==>
              forall e | e in Expand(m, beforeCommit, reply) :: e.entries == [] && e.commit == beforeCommit && e.index == e.logTerm == 0
    ensures m.index >= beforeCommit ==>
              && (forall e | e in Expand(m, beforeCommit, reply) :: e.commit == m.commit)
              && EntriesOf(Expand(m, beforeCommit, reply)) <= m.entries
              && (|m.entries| <= 1 || reply == Some(false) ==> EntriesOf(Expand(m, beforeCommit, reply)) == m.entries)
  {
    SinglesKeepTheSender(m);
    assert EntriesOf([m]) == m.entries by {
      assert [m][1..] == [];
    }
    if |m.entries| > 1 {
      var cut := m.(entries := m.entries[..1]);
      assert [cut][1..] == [] && EntriesOf([cut]) == cut.entries;
    }
  }

  function EntriesOf(events: seq<Event>): seq<Entry>
    decreases |events|
  {
    if events == [] then [] else events[0].entries + EntriesOf(events[1..])
  }

  lemma {:induction false} SinglesKeepTheSender(m: Event)
    ensures forall e | e in Singles(m) :: e.from == m.from && e.to == m.to && e.term == m.term && e.commit == m.commit
    ensures EntriesOf(Singles(m)) == m.entries
    decreases |m.entries|
  {
    if m.entries != [] {
      var tail := m.(index := m.index + 1, logTerm := m.entries[0].term, entries := m.entries[1..]);
      SinglesKeepTheSender(tail);
      assert Singles(m)[1..] == Singles(tail);
    }
  }

  /** Normalizing keeps who sent what: entry i keeps its term and its value. */
  lemma NormalizedKeeps(m: Append<RawEntry>)
    ensures var n := Normalized(m);
            && n.from == m.from && n.to == m.to && n.term == m.term && n.commit == m.commit
            && n.index == m.index && n.logTerm == m.logTerm && |n.entries| == |m.entries|
            && forall i :: 0 <= i < |m.entries| ==> n.entries[i].term == m.entries[i].term && n.entries[i].data == m.entries[i].data
  {
  }

  // ---------------------------------------------------------------- bounds

  lemma {:induction false} SinglesInBounds(c: Config, m: Event, first: nat)
    requires InBounds(c, m) && m.index + |m.entries| <= c.maxLogIndex && first <= m.index
    requires forall i :: 0 <= i < |m.entries| ==> m.entries[i].term <= c.largestTerm
    ensures forall e | e in Singles(m) :: InBounds(c, e) && |e.entries| == 1 && first <= e.index < c.maxLogIndex
    ensures |Singles(m)| == |m.entries|
    decreases |m.entries|
  {
    if m.entries != [] {
      var tail := m.(index := m.index + 1, logTerm := m.entries[0].term, entries := m.entries[1..]);
      SinglesOfTail(c, m);
      hide Singles, InBounds;
      SinglesInBounds(c, tail, first);
    }
  }

  lemma SinglesOfTail(c: Config, m: Event)
    requires InBounds(c, m) && m.index + |m.entries| <= c.maxLogIndex && m.entries != []
    requires forall i :: 0 <= i < |m.entries| ==> m.entries[i].term <= c.largestTerm
    ensures var head := m.(entries := [m.entries[0]]);
            var tail := m.(index := m.index + 1, logTerm := m.entries[0].term, entries := m.entries[1..]);
            && Singles(m) == [head] + Singles(tail) && InBounds(c, head) && InBounds(c, tail)
            && forall i :: 0 <= i < |tail.entries| ==> tail.entries[i].term <= c.largestTerm
  {
  }

  /** Every emitted event stays inside the model's bounds, carries at most one
      entry and leaves the log within MaxLogIndex. */
  lemma ExpansionInBounds(c: Config, raw: Append<RawEntry>, beforeCommit: nat, reply: Option<bool>)
    requires InBounds(c, raw) && raw.index + |raw.entries| <= c.maxLogIndex && beforeCommit <= c.maxLogIndex
    requires forall i :: 0 <= i < |raw.entries| ==> Modelled(c, raw.entries[i])
    ensures forall e | e in Expand(Normalized(raw), beforeCommit, reply) ::
              InBounds(c, e) && |e.entries| <= 1 && e.index + |e.entries| <= c.maxLogIndex
  {
    SinglesInBounds(c, Normalized(raw), 0);
  }
}
