/** Exactly which states the semantic coverage takes for the same. */
module CoverageMeaning {
  import opened Keys
  import opened Coverage

  // ---------------------------------------------------------------- the shape of a state

  /** Distances beyond two are not told apart. */
  function Capped(x: int): int {
    if x < 0 then 0 else if x > 2 then 2 else x
  }

  /** Two indices in logs of these lengths: both zero, or equally far behind the end. */
  predicate AlikeIndex(n: nat, i: nat, m: nat, j: nat) {
    (i == 0 <==> j == 0) && (i > 0 ==> Capped(n - i) == Capped(m - j))
  }

  lemma LagsAlike(n: nat, i: nat, m: nat, j: nat)
    ensures LagOf(n, i) == LagOf(m, j) <==> AlikeIndex(n, i, m, j)
  {
  }

  lemma VotesAlike(a: set<int>, b: set<int>)
    ensures VotesOf(a) == VotesOf(b) <==> Capped(|a|) == Capped(|b|)
  {
  }

  /** The same entries up to terms, at the same places. */
  predicate SameLayout(s: State, t: State) {
    && |s.currentTerm| == |t.currentTerm| && |s.log| == |t.log|
    && forall i :: 0 <= i < |s.log| ==> SameValues(s.log[i], t.log[i])
  }

  predicate SameValues(a: seq<LogEntry>, b: seq<LogEntry>) {
    |a| == |b| && forall k :: 0 <= k < |a| ==> a[k].value == b[k].value
  }

  predicate AlikePlaces(s: State, t: State, p: Place, q: Place)
    requires SameLayout(s, t) && IsPlace(s, p) && IsPlace(s, q)
  {
    && (TermAt(s, p) < TermAt(s, q) <==> TermAt(t, p) < TermAt(t, q))
    && (TermAt(s, p) == 0 <==> TermAt(t, p) == 0)
  }

  ghost predicate SameTermOrder(s: State, t: State)
    requires SameLayout(s, t)
  {
    forall p, q :: IsPlace(s, p) && IsPlace(s, q) ==> AlikePlaces(s, t, p, q)
  }

  predicate SameCommits(s: State, t: State)
    requires |s.log| == |t.log|
  {
    && |s.commitIndex| == |t.commitIndex|
    && if |s.commitIndex| != |s.log| then s.commitIndex == t.commitIndex
       else forall i :: 0 <= i < |s.log| ==> AlikeIndex(|s.log[i]|, s.commitIndex[i], |t.log[i]|, t.commitIndex[i])
  }

  predicate AlikeRow(n: nat, a: seq<nat>, m: nat, b: seq<nat>) {
    |a| == |b| && forall k :: 0 <= k < |a| ==> AlikeIndex(n, a[k], m, b[k])
  }

  predicate SameReplication(s: State, t: State)
    requires |s.log| == |t.log|
  {
    && |s.matchIndex| == |t.matchIndex|
    && if |s.matchIndex| != |s.log| then s.matchIndex == t.matchIndex
       else forall i :: 0 <= i < |s.log| ==> AlikeRow(|s.log[i]|, s.matchIndex[i], |t.log[i]|, t.matchIndex[i])
  }

  predicate SameVotes(s: State, t: State) {
    && |s.votesGranted| == |t.votesGranted|
    && forall i :: 0 <= i < |s.votesGranted| ==> Capped(|s.votesGranted[i]|) == Capped(|t.votesGranted[i]|)
  }

  ghost predicate SameShape(s: State, t: State) {
    && s.active == t.active && s.roles == t.roles && s.votedFor == t.votedFor
    && SameLayout(s, t) && SameTermOrder(s, t)
    && SameCommits(s, t) && SameReplication(s, t) && SameVotes(s, t)
  }

  // ---------------------------------------------------------------- ranks and the order of terms

  ghost predicate Matched(s: State, t: State, a: set<int>, b: set<int>)
    requires SameLayout(s, t)
  {
    && (forall x | x in a :: exists p :: IsPlace(s, p) && TermAt(s, p) == x)
    && (forall y | y in b :: exists p :: IsPlace(t, p) && TermAt(t, p) == y)
    && (forall p :: IsPlace(s, p) ==> (TermAt(s, p) in a <==> TermAt(t, p) in b))
  }

  /** Sets of terms mentioned at the same places are of the same size. */
  lemma {:induction false} MatchedSize(s: State, t: State, a: set<int>, b: set<int>)
    requires SameLayout(s, t) && SameTermOrder(s, t) && Matched(s, t, a, b)
    ensures |a| == |b|
    decreases a
  {
    if a == {} {
      NothingMatched(s, t, b);
    } else {
      SomeMember(a);
      var x :| x in a;
      var p :| IsPlace(s, p) && TermAt(s, p) == x;
      MatchedWithout(s, t, a, b, p);
      hide Matched, SameTermOrder;
      MatchedSize(s, t, a - {x}, b - {TermAt(t, p)});
    }
  }

  lemma NothingMatched(s: State, t: State, b: set<int>)
    requires SameLayout(s, t) && Matched(s, t, {}, b)
    ensures b == {}
  {
    hide TermAt;
    forall y
      ensures y !in b
    {
      assert y in b ==> exists p :: IsPlace(t, p) && TermAt(t, p) == y;
      forall p | IsPlace(t, p)
        ensures IsPlace(s, p) && TermAt(t, p) !in b
      {
        PlacesAreShared(s, t, p);
      }
    }
  }

  lemma PlacesAreShared(s: State, t: State, p: Place)
    requires SameLayout(s, t)
    ensures IsPlace(s, p) <==> IsPlace(t, p)
  {
  }

  lemma MatchedWithout(s: State, t: State, a: set<int>, b: set<int>, p: Place)
    requires SameLayout(s, t) && SameTermOrder(s, t) && Matched(s, t, a, b) && IsPlace(s, p) && TermAt(s, p) in a
    ensures TermAt(t, p) in b && Matched(s, t, a - {TermAt(s, p)}, b - {TermAt(t, p)})
  {
    forall q | IsPlace(s, q)
      ensures TermAt(s, q) == TermAt(s, p) <==> TermAt(t, q) == TermAt(t, p)
    {
      assert AlikePlaces(s, t, p, q) && AlikePlaces(s, t, q, p);
    }
    hide SameTermOrder;
  }

  lemma PlaceOfTerm(s: State, x: int)
    requires x in Terms(s)
    ensures exists p :: IsPlace(s, p) && TermAt(s, p) == x
  {
    if x in Elements(s.currentTerm) {
      var i :| 0 <= i < |s.currentTerm| && s.currentTerm[i] == x;
      assert IsPlace(s, Current(i)) && TermAt(s, Current(i)) == x;
    } else {
      var i, k :| 0 <= i < |s.log| && 0 <= k < |s.log[i]| && s.log[i][k].term == x;
      assert IsPlace(s, InLog(i, k)) && TermAt(s, InLog(i, k)) == x;
    }
  }

  lemma TermOfPlace(s: State, p: Place)
    requires IsPlace(s, p)
    ensures TermAt(s, p) in Terms(s)
  {
    match p
    case Current(i) => assert s.currentTerm[i] in Elements(s.currentTerm);
    case InLog(i, k) => assert s.log[i][k].term in LogTerms(s.log);
  }

  function UpTo(s: State, x: int): set<int> {
    set u | u in Terms(s) && 0 < u <= x
  }

  /** The same order of terms gives the same rank at every place. */
  lemma SameRank(s: State, t: State, p: Place)
    requires SameLayout(s, t) && SameTermOrder(s, t) && IsPlace(s, p)
    ensures Rank(Terms(s), TermAt(s, p)) == Rank(Terms(t), TermAt(t, p))
  {
    hide Terms;
    var a, b := UpTo(s, TermAt(s, p)), UpTo(t, TermAt(t, p));
    forall x | x in a
      ensures exists q :: IsPlace(s, q) && TermAt(s, q) == x
    {
      PlaceOfTerm(s, x);
    }
    forall y | y in b
      ensures exists q :: IsPlace(t, q) && TermAt(t, q) == y
    {
      PlaceOfTerm(t, y);
    }
    forall q | IsPlace(s, q)
      ensures TermAt(s, q) in a <==> TermAt(t, q) in b
    {
      TermOfPlace(s, q);
      TermOfPlace(t, q);
      assert AlikePlaces(s, t, p, q) && AlikePlaces(s, t, q, p);
    }
    MatchedSize(s, t, a, b);
    assert AlikePlaces(s, t, p, p);
  }

  // ---------------------------------------------------------------- the projection, part by part

  lemma TermsAlike(s: State, t: State)
    ensures RankedTerms(s.currentTerm, Terms(s)) == RankedTerms(t.currentTerm, Terms(t))
            && RankedLogs(s.log, Terms(s)) == RankedLogs(t.log, Terms(t))
        <==> SameLayout(s, t) && SameTermOrder(s, t)
  {
    if SameLayout(s, t) && SameTermOrder(s, t) {
      OrderGivesRanks(s, t);
    }
    if RankedTerms(s.currentTerm, Terms(s)) == RankedTerms(t.currentTerm, Terms(t))
       && RankedLogs(s.log, Terms(s)) == RankedLogs(t.log, Terms(t)) {
      RanksGiveOrder(s, t);
    }
  }

  lemma OrderGivesRanks(s: State, t: State)
    requires SameLayout(s, t) && SameTermOrder(s, t)
    ensures RankedTerms(s.currentTerm, Terms(s)) == RankedTerms(t.currentTerm, Terms(t))
    ensures RankedLogs(s.log, Terms(s)) == RankedLogs(t.log, Terms(t))
  {
    hide SameTermOrder, Rank, Terms;
    forall i | 0 <= i < |s.currentTerm|
      ensures Rank(Terms(s), s.currentTerm[i]) == Rank(Terms(t), t.currentTerm[i])
    {
      SameRank(s, t, Current(i));
    }
    forall i | 0 <= i < |s.log|
      ensures RankedLog(s.log[i], Terms(s)) == RankedLog(t.log[i], Terms(t))
    {
      forall k | 0 <= k < |s.log[i]|
        ensures RankedEntry(Rank(Terms(s), s.log[i][k].term), s.log[i][k].value)
             == RankedEntry(Rank(Terms(t), t.log[i][k].term), t.log[i][k].value)
      {
        SameRank(s, t, InLog(i, k));
        assert SameValues(s.log[i], t.log[i]);
      }
    }
  }

  lemma RanksGiveOrder(s: State, t: State)
    requires RankedTerms(s.currentTerm, Terms(s)) == RankedTerms(t.currentTerm, Terms(t))
    requires RankedLogs(s.log, Terms(s)) == RankedLogs(t.log, Terms(t))
    ensures SameLayout(s, t) && SameTermOrder(s, t)
  {
    hide Rank, Terms;
    RanksGiveLayout(s, t);
    forall p, q | IsPlace(s, p) && IsPlace(s, q)
      ensures AlikePlaces(s, t, p, q)
    {
      RankAt(s, t, p);
      RankAt(s, t, q);
      RankOrder(Terms(s), TermAt(s, p), TermAt(s, q));
      RankOrder(Terms(t), TermAt(t, p), TermAt(t, q));
    }
  }

  lemma RanksGiveLayout(s: State, t: State)
    requires RankedTerms(s.currentTerm, Terms(s)) == RankedTerms(t.currentTerm, Terms(t))
    requires RankedLogs(s.log, Terms(s)) == RankedLogs(t.log, Terms(t))
    ensures SameLayout(s, t)
  {
    hide Rank, Terms;
    assert |RankedTerms(s.currentTerm, Terms(s))| == |s.currentTerm| && |RankedTerms(t.currentTerm, Terms(t))| == |t.currentTerm|;
    assert |RankedLogs(s.log, Terms(s))| == |s.log| && |RankedLogs(t.log, Terms(t))| == |t.log|;
    forall i | 0 <= i < |s.log|
      ensures SameValues(s.log[i], t.log[i])
    {
      var a, b := RankedLogs(s.log, Terms(s))[i], RankedLogs(t.log, Terms(t))[i];
      assert a == RankedLog(s.log[i], Terms(s)) && b == RankedLog(t.log[i], Terms(t));
      forall k | 0 <= k < |a|
        ensures s.log[i][k].value == t.log[i][k].value
      {
        assert a[k].value == b[k].value;
      }
    }
  }

  lemma RankAt(s: State, t: State, p: Place)
    requires RankedTerms(s.currentTerm, Terms(s)) == RankedTerms(t.currentTerm, Terms(t))
    requires RankedLogs(s.log, Terms(s)) == RankedLogs(t.log, Terms(t))
    requires SameLayout(s, t) && IsPlace(s, p)
    ensures TermAt(s, p) in Terms(s) && TermAt(t, p) in Terms(t)
    ensures Rank(Terms(s), TermAt(s, p)) == Rank(Terms(t), TermAt(t, p))
  {
    hide Rank, Terms;
    TermOfPlace(s, p);
    TermOfPlace(t, p);
    match p
    case Current(i) =>
      assert RankedTerms(s.currentTerm, Terms(s))[i] == RankedTerms(t.currentTerm, Terms(t))[i];
    case InLog(i, k) =>
      assert RankedLogs(s.log, Terms(s))[i] == RankedLogs(t.log, Terms(t))[i];
      assert RankedLog(s.log[i], Terms(s))[k] == RankedLog(t.log[i], Terms(t))[k];
  }

  lemma CommitsAlike(s: State, t: State)
    requires |s.log| == |t.log|
    ensures CommitShape(s.commitIndex, s.log) == CommitShape(t.commitIndex, t.log) <==> SameCommits(s, t)
  {
    hide LagOf, AlikeIndex;
    forall n: nat, i: nat, m: nat, j: nat
      ensures LagOf(n, i) == LagOf(m, j) <==> AlikeIndex(n, i, m, j)
    {
      LagsAlike(n, i, m, j);
    }
    var a, b := CommitShape(s.commitIndex, s.log), CommitShape(t.commitIndex, t.log);
    if a == b && a.Lags? {
      assert |a.lags| == |s.commitIndex| && |b.lags| == |t.commitIndex|;
      assert forall i :: 0 <= i < |a.lags| ==> a.lags[i] == LagOf(|s.log[i]|, s.commitIndex[i]);
      assert forall i :: 0 <= i < |b.lags| ==> b.lags[i] == LagOf(|t.log[i]|, t.commitIndex[i]);
    }
  }

  lemma RowsAlike(n: nat, a: seq<nat>, m: nat, b: seq<nat>)
    ensures ReplicationRow(a, n) == ReplicationRow(b, m) <==> AlikeRow(n, a, m, b)
  {
    hide LagOf, AlikeIndex;
    forall i: nat, j: nat
      ensures LagOf(n, i) == LagOf(m, j) <==> AlikeIndex(n, i, m, j)
    {
      LagsAlike(n, i, m, j);
    }
    var x, y := ReplicationRow(a, n), ReplicationRow(b, m);
    assert |x| == |a| && |y| == |b|;
    assert forall k :: 0 <= k < |a| ==> x[k] == LagOf(n, a[k]);
    assert forall k :: 0 <= k < |b| ==> y[k] == LagOf(m, b[k]);
  }

  function RawRows(s: State): seq<seq<nat>> {
    if |s.matchIndex| == |s.log| then [] else s.matchIndex
  }

  lemma ReplicationAlike(s: State, t: State)
    requires |s.log| == |t.log|
    ensures ReplicationShape(s.matchIndex, s.log) == ReplicationShape(t.matchIndex, t.log) && RawRows(s) == RawRows(t)
        <==> SameReplication(s, t)
  {
    hide ReplicationRow, AlikeRow;
    if |s.matchIndex| == |s.log| && |t.matchIndex| == |t.log| {
      var a, b := ReplicationShape(s.matchIndex, s.log).value, ReplicationShape(t.matchIndex, t.log).value;
      assert |a| == |s.log| && |b| == |t.log|;
      forall i | 0 <= i < |s.log|
        ensures a[i] == b[i] <==> AlikeRow(|s.log[i]|, s.matchIndex[i], |t.log[i]|, t.matchIndex[i])
      {
        assert a[i] == ReplicationRow(s.matchIndex[i], |s.log[i]|) && b[i] == ReplicationRow(t.matchIndex[i], |t.log[i]|);
        RowsAlike(|s.log[i]|, s.matchIndex[i], |t.log[i]|, t.matchIndex[i]);
      }
      assert a == b <==> forall i :: 0 <= i < |s.log| ==> a[i] == b[i];
    }
  }

  lemma VotesShapeAlike(s: State, t: State)
    ensures VoteShape(s.votesGranted) == VoteShape(t.votesGranted) <==> SameVotes(s, t)
  {
    hide VotesOf, Capped;
    var a, b := VoteShape(s.votesGranted), VoteShape(t.votesGranted);
    assert |a| == |s.votesGranted| && |b| == |t.votesGranted|;
    forall i | 0 <= i < |a| && i < |b|
      ensures a[i] == b[i] <==> Capped(|s.votesGranted[i]|) == Capped(|t.votesGranted[i]|)
    {
      VotesAlike(s.votesGranted[i], t.votesGranted[i]);
    }
  }

  /** Coverage takes two states for the same exactly when they differ in nothing but the
      names of terms, distances of two and more from a log's end, and votes beyond two. */
  lemma ProjectionIsTheShape(s: State, t: State)
    ensures Project(s) == Project(t) <==> SameShape(s, t)
  {
    hide RankedTerms, RankedLogs, CommitShape, ReplicationShape, VoteShape, SameTermOrder, SameCommits, SameReplication, SameVotes;
    TermsAlike(s, t);
    VotesShapeAlike(s, t);
    if |s.log| == |t.log| {
      CommitsAlike(s, t);
      ReplicationAlike(s, t);
    }
  }
}
