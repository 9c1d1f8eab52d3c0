/** The semantic coverage projection: absolute terms become ranks, indices become
    distances to the log's end, and everything else of the model state stays. */
module Coverage {
  import opened Keys

  datatype LogEntry = LogEntry(term: nat, value: nat)

  /** A parsed model state; what the projection copies verbatim is one text each. */
  datatype State = State(active: string, roles: string, currentTerm: seq<nat>, log: seq<seq<LogEntry>>,
                         commitIndex: seq<nat>, matchIndex: seq<seq<nat>>, votesGranted: seq<set<int>>, votedFor: string)

  datatype Lag = ZeroIndex | FullLog | Lag1 | Lag2Plus

  /** The raw tuple is kept when its length does not fit the log. */
  datatype Shape = Raw(values: seq<nat>) | Lags(lags: seq<Lag>)

  datatype Votes = NoVote | OneVote | MoreVotes

  datatype RankedEntry = RankedEntry(rank: nat, value: nat)

  datatype Projection = Projection(active: string, roles: string, terms: seq<nat>, log: seq<seq<RankedEntry>>,
                                   commit: Shape, replication: Option<seq<seq<Lag>>>, rawReplication: seq<seq<nat>>,
                                   votes: seq<Votes>, votedFor: string)

  // ---------------------------------------------------------------- terms and ranks

  function LogTerms(log: seq<seq<LogEntry>>): set<int> {
    set i, k | 0 <= i < |log| && 0 <= k < |log[i]| :: log[i][k].term
  }

  /** Every term the state mentions. */
  function Terms(s: State): set<int> {
    Elements(s.currentTerm) + LogTerms(s.log)
  }

  /** Term 0 keeps rank 0; the others are numbered from 1 in increasing order. */
  function Rank(terms: set<int>, term: int): nat {
    if term == 0 then 0 else |set u | u in terms && 0 < u <= term|
  }

  method TermRanks(terms: set<int>) returns (ranks: map<int, nat>)
    requires forall t | t in terms :: t >= 0
    ensures ranks.Keys == terms && forall t | t in terms :: ranks[t] == Rank(terms, t)
  {
    hide Rank, Positives, Sorted;
    var ordered := Sorted(terms);
    ranks := map[];
    var next := 1;
    NoPositives();
    for i := 0 to |ordered|
      invariant forall j :: 0 <= j < i ==> ordered[j] in ranks
      invariant forall t | t in ranks :: t in terms && ranks[t] == Rank(terms, t)
      invariant next == 1 + |Positives(ordered[..i])|
    {
      var term := ordered[i];
      assert term in Elements(ordered);
      OneMorePositive(ordered, i);
      if term == 0 {
        RankOfZero(terms);
        ranks := ranks[term := 0];
      } else {
        RankOfNext(terms, ordered, i);
        ranks := ranks[term := next];
        next := next + 1;
      }
    }
    forall t
      ensures t in ranks <==> t in terms
    {
      assert t in terms <==> t in Elements(ordered);
      if t in terms {
        var j :| 0 <= j < |ordered| && ordered[j] == t;
      }
    }
  }

  function Positives(list: seq<int>): set<int> {
    set u | u in list && u > 0
  }

  lemma OneMorePositive(ordered: seq<int>, i: nat)
    requires i < |ordered| && Increasing(ordered)
    ensures |Positives(ordered[..i + 1])| == |Positives(ordered[..i])| + (if ordered[i] > 0 then 1 else 0)
  {
    assert ordered[..i + 1] == ordered[..i] + [ordered[i]];
    assert forall j :: 0 <= j < i ==> ordered[..i][j] < ordered[i];
    if ordered[i] > 0 {
      assert Positives(ordered[..i + 1]) == Positives(ordered[..i]) + {ordered[i]};
    } else {
      assert Positives(ordered[..i + 1]) == Positives(ordered[..i]);
    }
  }

  lemma NoPositives()
    ensures |Positives([])| == 0
  {
    assert Positives([]) == {};
  }

  lemma RankOfZero(terms: set<int>)
    ensures Rank(terms, 0) == 0
  {
  }

  lemma PrefixHoldsSmaller(terms: set<int>, ordered: seq<int>, i: nat, u: int)
    requires ordered == Sorted(terms) && i < |ordered|
    ensures u in ordered[..i + 1] <==> u in terms && u <= ordered[i]
  {
    assert u in terms <==> u in Elements(ordered);
    if u in terms && u <= ordered[i] {
      var j :| 0 <= j < |ordered| && ordered[j] == u;
      assert ordered[..i + 1][j] == u;
    }
  }

  lemma RankOfNext(terms: set<int>, ordered: seq<int>, i: nat)
    requires ordered == Sorted(terms) && i < |ordered| && ordered[i] > 0
    ensures Rank(terms, ordered[i]) == |Positives(ordered[..i + 1])|
  {
    hide Sorted;
    forall u
      ensures u in ordered[..i + 1] <==> u in terms && u <= ordered[i]
    {
      PrefixHoldsSmaller(terms, ordered, i, u);
    }
    assert (set u | u in terms && 0 < u <= ordered[i]) == Positives(ordered[..i + 1]);
  }

  // ---------------------------------------------------------------- the projection

  function LagOf(length: nat, index: nat): Lag {
    if index == 0 then ZeroIndex
    else if length <= index then FullLog
    else if length - index == 1 then Lag1
    else Lag2Plus
  }

  function VotesOf(granted: set<int>): Votes {
    if |granted| == 0 then NoVote else if |granted| == 1 then OneVote else MoreVotes
  }

  function RankedLog(log: seq<LogEntry>, terms: set<int>): seq<RankedEntry> {
    seq(|log|, k requires 0 <= k < |log| => RankedEntry(Rank(terms, log[k].term), log[k].value))
  }

  function RankedLogs(log: seq<seq<LogEntry>>, terms: set<int>): seq<seq<RankedEntry>> {
    seq(|log|, i requires 0 <= i < |log| => RankedLog(log[i], terms))
  }

  function RankedTerms(current: seq<nat>, terms: set<int>): seq<nat> {
    seq(|current|, i requires 0 <= i < |current| => Rank(terms, current[i]))
  }

  function CommitShape(commits: seq<nat>, log: seq<seq<LogEntry>>): Shape {
    if |commits| != |log| then Raw(commits)
    else Lags(seq(|commits|, i requires 0 <= i < |commits| => LagOf(|log[i]|, commits[i])))
  }

  function ReplicationRow(row: seq<nat>, length: nat): seq<Lag> {
    seq(|row|, k requires 0 <= k < |row| => LagOf(length, row[k]))
  }

  function ReplicationShape(rows: seq<seq<nat>>, log: seq<seq<LogEntry>>): Option<seq<seq<Lag>>> {
    if |rows| != |log| then None
    else Some(seq(|rows|, i requires 0 <= i < |rows| => ReplicationRow(rows[i], |log[i]|)))
  }

  function VoteShape(votes: seq<set<int>>): seq<Votes> {
    seq(|votes|, i requires 0 <= i < |votes| => VotesOf(votes[i]))
  }

  function Project(s: State): Projection {
    Projection(s.active, s.roles, RankedTerms(s.currentTerm, Terms(s)), RankedLogs(s.log, Terms(s)),
               CommitShape(s.commitIndex, s.log), ReplicationShape(s.matchIndex, s.log),
               if |s.matchIndex| == |s.log| then [] else s.matchIndex, VoteShape(s.votesGranted), s.votedFor)
  }

  /** semanticLog and replaceTerms: looking every term up in the rank table. */
  method SemanticLog(s: State, ranks: map<int, nat>) returns (shapes: seq<seq<RankedEntry>>)
    requires ranks.Keys == Terms(s) && forall t | t in ranks :: ranks[t] == Rank(Terms(s), t)
    ensures shapes == RankedLogs(s.log, Terms(s))
  {
    shapes := [];
    for i := 0 to |s.log|
      invariant |shapes| == i && forall j :: 0 <= j < i ==> shapes[j] == RankedLog(s.log[j], Terms(s))
    {
      var parts := [];
      for k := 0 to |s.log[i]|
        invariant |parts| == k
        invariant forall m :: 0 <= m < k ==> parts[m] == RankedEntry(Rank(Terms(s), s.log[i][m].term), s.log[i][m].value)
      {
        assert s.log[i][k].term in LogTerms(s.log);
        parts := parts + [RankedEntry(ranks[s.log[i][k].term], s.log[i][k].value)];
      }
      shapes := shapes + [parts];
    }
  }

  method ReplaceTerms(s: State, ranks: map<int, nat>) returns (terms: seq<nat>)
    requires ranks.Keys == Terms(s) && forall t | t in ranks :: ranks[t] == Rank(Terms(s), t)
    ensures terms == RankedTerms(s.currentTerm, Terms(s))
  {
    terms := [];
    for i := 0 to |s.currentTerm|
      invariant |terms| == i && forall j :: 0 <= j < i ==> terms[j] == Rank(Terms(s), s.currentTerm[j])
    {
      assert s.currentTerm[i] in Elements(s.currentTerm);
      terms := terms + [ranks[s.currentTerm[i]]];
    }
  }

  method ProjectState(s: State) returns (projection: Projection)
    ensures projection == Project(s)
  {
    var ranks := TermRanks(Terms(s));
    var terms := ReplaceTerms(s, ranks);
    var log := SemanticLog(s, ranks);
    projection := Projection(s.active, s.roles, terms, log, CommitShape(s.commitIndex, s.log),
                             ReplicationShape(s.matchIndex, s.log), if |s.matchIndex| == |s.log| then [] else s.matchIndex,
                             VoteShape(s.votesGranted), s.votedFor);
  }

  // ---------------------------------------------------------------- renaming terms

  ghost predicate Renaming(f: nat -> nat) {
    f(0) == 0 && forall a: nat, b: nat :: a < b ==> f(a) < f(b)
  }

  function RenamedLog(log: seq<LogEntry>, f: nat -> nat): seq<LogEntry> {
    seq(|log|, k requires 0 <= k < |log| => LogEntry(f(log[k].term), log[k].value))
  }

  function RenamedLogs(log: seq<seq<LogEntry>>, f: nat -> nat): seq<seq<LogEntry>> {
    seq(|log|, i requires 0 <= i < |log| => RenamedLog(log[i], f))
  }

  function Renamed(s: State, f: nat -> nat): State {
    s.(currentTerm := seq(|s.currentTerm|, i requires 0 <= i < |s.currentTerm| => f(s.currentTerm[i])),
       log := RenamedLogs(s.log, f))
  }

  function Image(terms: set<int>, f: nat -> nat): set<int> {
    set t | t in terms && t >= 0 :: f(t) as int
  }

  lemma {:induction false} ImageSize(terms: set<int>, f: nat -> nat)
    requires Renaming(f) && forall t | t in terms :: t >= 0
    ensures |Image(terms, f)| == |terms|
  {
    if terms != {} {
      SomeMember(terms);
      var t: int :| t in terms;
      var rest := terms - {t};
      ImageSize(rest, f);
      assert f(t) !in Image(rest, f);
      assert Image(terms, f) == Image(rest, f) + {f(t)};
    }
  }

  lemma RenamedTerms(s: State, f: nat -> nat)
    ensures Terms(Renamed(s, f)) == Image(Terms(s), f)
  {
    var r := Renamed(s, f);
    forall u | u in Image(Terms(s), f)
      ensures u in Terms(r)
    {
      var t: int :| t in Terms(s) && t >= 0 && f(t) == u;
      if t in Elements(s.currentTerm) {
        var i :| 0 <= i < |s.currentTerm| && s.currentTerm[i] == t;
        assert r.currentTerm[i] == u;
        assert u in Elements(r.currentTerm);
      } else {
        var i, k :| 0 <= i < |s.log| && 0 <= k < |s.log[i]| && s.log[i][k].term == t;
        assert r.log[i][k].term == u;
      }
    }
    forall u | u in Terms(r)
      ensures u in Image(Terms(s), f)
    {
      if u in Elements(r.currentTerm) {
        var i :| 0 <= i < |r.currentTerm| && r.currentTerm[i] == u;
        assert s.currentTerm[i] in Elements(s.currentTerm) && f(s.currentTerm[i]) == u;
      } else {
        var i, k :| 0 <= i < |r.log| && 0 <= k < |r.log[i]| && r.log[i][k].term == u;
        assert s.log[i][k].term in LogTerms(s.log) && f(s.log[i][k].term) == u;
      }
    }
  }

  /** A strictly increasing renaming that fixes 0 keeps every rank. */
  lemma RankOfRenamed(terms: set<int>, f: nat -> nat, t: nat)
    requires Renaming(f) && forall u | u in terms :: u >= 0
    ensures Rank(Image(terms, f), f(t)) == Rank(terms, t)
  {
    if t > 0 {
      var below := set u | u in terms && 0 < u <= t;
      var belowImage := set u | u in Image(terms, f) && 0 < u <= f(t);
      assert f(0) < f(t);
      ImageSize(below, f);
      forall u | u in terms && u >= 0
        ensures 0 < f(u) <= f(t) <==> 0 < u <= t
      {
        OrderKept(f, u, t);
      }
      assert Image(below, f) == belowImage;
    }
  }

  lemma OrderKept(f: nat -> nat, a: nat, b: nat)
    requires Renaming(f)
    ensures (f(a) <= f(b) <==> a <= b) && (f(a) > 0 <==> a > 0)
  {
    if a < b {
      assert f(a) < f(b);
    } else if b < a {
      assert f(b) < f(a);
    }
    if a > 0 {
      assert f(0) < f(a);
    }
  }

  ghost predicate KeepsRanks(terms: set<int>, terms': set<int>, f: nat -> nat) {
    forall t: nat :: Rank(terms', f(t)) == Rank(terms, t)
  }

  lemma TermsPart(s: State, f: nat -> nat, terms: set<int>, terms': set<int>)
    requires KeepsRanks(terms, terms', f)
    ensures RankedTerms(Renamed(s, f).currentTerm, terms') == RankedTerms(s.currentTerm, terms)
  {
  }

  lemma LogPart(log: seq<seq<LogEntry>>, f: nat -> nat, terms: set<int>, terms': set<int>)
    requires KeepsRanks(terms, terms', f)
    ensures RankedLogs(RenamedLogs(log, f), terms') == RankedLogs(log, terms)
  {
    forall i | 0 <= i < |log|
      ensures RankedLog(RenamedLogs(log, f)[i], terms') == RankedLog(log[i], terms)
    {
      hide Rank;
    }
  }

  lemma ShapesPart(s: State, f: nat -> nat)
    ensures CommitShape(s.commitIndex, RenamedLogs(s.log, f)) == CommitShape(s.commitIndex, s.log)
    ensures ReplicationShape(s.matchIndex, RenamedLogs(s.log, f)) == ReplicationShape(s.matchIndex, s.log)
  {
    var renamed := RenamedLogs(s.log, f);
    assert forall i :: 0 <= i < |s.log| ==> |renamed[i]| == |s.log[i]|;
    if |s.matchIndex| == |s.log| {
      assert ReplicationShape(s.matchIndex, renamed).value == ReplicationShape(s.matchIndex, s.log).value;
    }
  }

  /** Coverage does not depend on which absolute terms an execution went through. */
  lemma ProjectionIgnoresTermNames(s: State, f: nat -> nat)
    requires Renaming(f)
    ensures Project(Renamed(s, f)) == Project(s)
  {
    hide Rank, RankedTerms, RankedLogs, CommitShape, ReplicationShape, RenamedLogs;
    var terms, terms' := Terms(s), Terms(Renamed(s, f));
    RenamedTerms(s, f);
    TermsAreNatural(s);
    forall t: nat
      ensures Rank(terms', f(t)) == Rank(terms, t)
    {
      RankOfRenamed(terms, f, t);
    }
    TermsPart(s, f, terms, terms');
    LogPart(s.log, f, terms, terms');
    ShapesPart(s, f);
    LogLength(s.log, f);
  }

  lemma TermsAreNatural(s: State)
    ensures forall t | t in Terms(s) :: t >= 0
  {
  }

  lemma LogLength(log: seq<seq<LogEntry>>, f: nat -> nat)
    ensures |RenamedLogs(log, f)| == |log|
  {
  }

  // ---------------------------------------------------------------- and nothing but the names

  /** Where a state mentions a term. */
  datatype Place = Current(i: nat) | InLog(i: nat, k: nat)

  predicate IsPlace(s: State, p: Place) {
    match p
    case Current(i) => i < |s.currentTerm|
    case InLog(i, k) => i < |s.log| && k < |s.log[i]|
  }

  function TermAt(s: State, p: Place): nat
    requires IsPlace(s, p)
  {
    match p
    case Current(i) => s.currentTerm[i]
    case InLog(i, k) => s.log[i][k].term
  }

  lemma RankOrder(terms: set<int>, a: nat, b: nat)
    requires a in terms && b in terms
    ensures Rank(terms, a) < Rank(terms, b) <==> a < b
    ensures Rank(terms, a) == 0 <==> a == 0
  {
    var belowA, belowB := set u | u in terms && 0 < u <= a, set u | u in terms && 0 < u <= b;
    if a < b {
      assert belowA <= belowB - {b};
      SubsetSize(belowA, belowB - {b});
    } else {
      SubsetSize(belowB, belowA);
    }
    if a > 0 {
      assert a in belowA;
    }
  }

  lemma {:induction false} SubsetSize(a: set<int>, b: set<int>)
    requires a <= b
    ensures |a| <= |b|
  {
    assert b == a + (b - a);
  }

  lemma PlaceHasRank(s: State, t: State, p: Place)
    requires Project(s) == Project(t) && IsPlace(s, p)
    ensures IsPlace(t, p) && TermAt(s, p) in Terms(s) && TermAt(t, p) in Terms(t)
    ensures Rank(Terms(s), TermAt(s, p)) == Rank(Terms(t), TermAt(t, p))
  {
    match p
    case Current(i) =>
      assert RankedTerms(s.currentTerm, Terms(s))[i] == RankedTerms(t.currentTerm, Terms(t))[i];
      assert s.currentTerm[i] in Elements(s.currentTerm) && t.currentTerm[i] in Elements(t.currentTerm);
    case InLog(i, k) =>
      assert RankedLogs(s.log, Terms(s))[i] == RankedLogs(t.log, Terms(t))[i];
      assert RankedLog(s.log[i], Terms(s))[k] == RankedLog(t.log[i], Terms(t))[k];
      assert s.log[i][k].term in LogTerms(s.log) && t.log[i][k].term in LogTerms(t.log);
  }

  /** States with one projection mention their terms in the same places and in the
      same order: the projection forgets the names of terms and nothing else about them. */
  lemma SameProjectionSameOrder(s: State, t: State, p: Place, q: Place)
    requires Project(s) == Project(t) && IsPlace(s, p) && IsPlace(s, q)
    ensures IsPlace(t, p) && IsPlace(t, q)
    ensures TermAt(s, p) < TermAt(s, q) <==> TermAt(t, p) < TermAt(t, q)
    ensures TermAt(s, p) == 0 <==> TermAt(t, p) == 0
  {
    hide Project;
    PlaceHasRank(s, t, p);
    PlaceHasRank(s, t, q);
    RankOrder(Terms(s), TermAt(s, p), TermAt(s, q));
    RankOrder(Terms(t), TermAt(t, p), TermAt(t, q));
  }
}
