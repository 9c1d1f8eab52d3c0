/** Options, and the sorted key lists the Go code writes whenever it turns a
    `map[K]struct{}` into a JSON array. */
module Keys {

  datatype Option<+T> = None | Some(value: T)

  function Elements(s: seq<int>): set<int> {
    set x | x in s
  }

  ghost predicate Distinct<T>(s: seq<T>) {
    forall i, j :: 0 <= i < j < |s| ==> s[i] != s[j]
  }

  ghost predicate Increasing(s: seq<int>) {
    forall i, j :: 0 <= i < j < |s| ==> s[i] < s[j]
  }

  lemma SomeMember(s: set<int>)
    ensures s == {} || exists x :: x in s
  {
    if forall x :: x !in s {
      assert s == {};
    }
  }

  lemma {:induction false} HasMinimum(s: set<int>)
    requires s != {}
    ensures exists m :: m in s && forall x | x in s :: m <= x
  {
    SomeMember(s);
    var k: int :| k in s;
    var rest := s - {k};
    assert forall x | x in s :: x == k || x in rest;
    if rest != {} {
      HasMinimum(rest);
      var m :| m in rest && forall x | x in rest :: m <= x;
      var best := if k < m then k else m;
      assert best in s;
      assert forall x | x in s :: best <= x;
    }
  }

  function Min(s: set<int>): (m: int)
    requires s != {}
    ensures m in s && forall x | x in s :: m <= x
  {
    HasMinimum(s);
    var m :| m in s && forall x | x in s :: m <= x;
    m
  }

  /** The elements of `s` in increasing order. */
  function Sorted(s: set<int>): (r: seq<int>)
    ensures Increasing(r) && Elements(r) == s && |r| == |s|
  {
    if s == {} then
      []
    else
      var m := Min(s);
      var rest := Sorted(s - {m});
      SortedStep(m, s, rest);
      [m] + rest
  }

  lemma SortedStep(m: int, s: set<int>, rest: seq<int>)
    requires m in s && forall x | x in s :: m <= x
    requires Increasing(rest) && Elements(rest) == s - {m}
    ensures Increasing([m] + rest) && Elements([m] + rest) == s
  {
    var r := [m] + rest;
    forall j | 0 < j < |r|
      ensures r[0] < r[j]
    {
      assert r[j] in Elements(rest);
    }
    forall x
      ensures x in r <==> x in s
    {
      assert x in s - {m} <==> x in rest by { assert x in Elements(rest) <==> x in rest; }
    }
  }

  /** A strictly increasing list is the sorted list of its own elements. */
  lemma {:induction false} IncreasingIsSorted(r: seq<int>)
    requires Increasing(r)
    ensures r == Sorted(Elements(r))
  {
    if r != [] {
      hide Increasing, Elements, Sorted;
      TailIncreases(r);
      FirstIsMin(r);
      SortedUnfolds(Elements(r));
      var rest := r[1..];
      IncreasingIsSorted(rest);
      assert Sorted(Elements(r)) == [r[0]] + rest;
    }
  }

  lemma TailIncreases(r: seq<int>)
    requires r != [] && Increasing(r)
    ensures Increasing(r[1..]) && Elements(r) != {} && r == [r[0]] + r[1..]
  {
    assert r[0] in Elements(r);
  }

  lemma SortedUnfolds(s: set<int>)
    requires s != {}
    ensures Sorted(s) == [Min(s)] + Sorted(s - {Min(s)})
  {
    hide Increasing, Elements;
  }

  lemma FirstIsMin(r: seq<int>)
    requires r != [] && Increasing(r)
    ensures r[0] in Elements(r)
    ensures r[0] == Min(Elements(r))
    ensures Elements(r[1..]) == Elements(r) - {r[0]}
  {
    assert r[0] in Elements(r);
    forall x | x in Elements(r)
      ensures r[0] <= x
      ensures x == r[0] || x in r[1..]
    {
      var k :| 0 <= k < |r| && r[k] == x;
      if k > 0 {
        assert r[1..][k - 1] == x;
      }
    }
    forall x | x in r[1..]
      ensures x in r && x != r[0]
    {
      var k :| 0 <= k < |r[1..]| && r[1..][k] == x;
      assert r[k + 1] == x;
    }
  }

  lemma DistinctStep<T>(x: T, rest: seq<T>)
    ensures Distinct([x] + rest) <==> x !in rest && Distinct(rest)
  {
    var s := [x] + rest;
    if Distinct(s) {
      forall j | 0 <= j < |rest|
        ensures rest[j] != x
      {
        assert s[0] == x && s[j + 1] == rest[j];
      }
      forall i, j | 0 <= i < j < |rest|
        ensures rest[i] != rest[j]
      {
        assert s[i + 1] == rest[i] && s[j + 1] == rest[j];
      }
    }
  }

  /** A list without repetitions has as many members as elements. */
  lemma {:induction false} DistinctSize(s: seq<int>)
    ensures |Elements(s)| <= |s|
    ensures Distinct(s) <==> |Elements(s)| == |s|
  {
    if s != [] {
      var rest := s[1..];
      DistinctSize(rest);
      assert s == [s[0]] + rest;
      assert Elements(s) == {s[0]} + Elements(rest);
      DistinctStep(s[0], rest);
      if s[0] in rest {
        assert Elements(s) == Elements(rest);
      }
    }
  }
}
