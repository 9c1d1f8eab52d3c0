/** The adapter's random numbers: a SplitMix64 stream and rejection sampling from it. */
module SplitMix {
  import opened Arithmetic
  import opened Keys

  const INCREMENT: int := 0x9e3779b97f4a7c15

  /** The inverse of the odd increment modulo 2^64: INCREMENT * INVERSE == 1 + WRAPS * 2^64. */
  const INVERSE: int := 0xf1de83e19937733d
  const WRAPS: int := (INCREMENT * INVERSE - 1) / TWO_64

  // ---------------------------------------------------------------- the stream

  // The steps of the output function, on wrapping 64-bit words, and their inverses.

  function Fold30(v: bv64): bv64 { v ^ (v >> 30) }

  function Fold27(v: bv64): bv64 { v ^ (v >> 27) }

  function Fold31(v: bv64): bv64 { v ^ (v >> 31) }

  function Unfold30(v: bv64): bv64 { v ^ (v >> 30) ^ (v >> 60) }

  function Unfold27(v: bv64): bv64 { v ^ (v >> 27) ^ (v >> 54) }

  function Unfold31(v: bv64): bv64 { v ^ (v >> 31) ^ (v >> 62) }

  function First(v: bv64): bv64 { v * 0xbf58476d1ce4e5b9 }

  function Second(v: bv64): bv64 { v * 0x94d049bb133111eb }

  function Unfirst(v: bv64): bv64 { v * 0x96de1b173f119089 }

  function Unsecond(v: bv64): bv64 { v * 0x319642b2d24d8ec3 }

  /** SplitMix64's output function. */
  function Mix(v: bv64): bv64 {
    Fold31(Second(Fold27(First(Fold30(v)))))
  }

  function Unmix(w: bv64): bv64 {
    Unfold30(Unfirst(Unfold27(Unsecond(Unfold31(w)))))
  }

  lemma MixOfZero()
    ensures Mix(0) == 0
  {
  }

  lemma Shifts30(v: bv64)
    ensures (v ^ (v >> 30)) ^ ((v ^ (v >> 30)) >> 30) ^ ((v ^ (v >> 30)) >> 60) == v
    ensures (v ^ (v >> 30) ^ (v >> 60)) ^ ((v ^ (v >> 30) ^ (v >> 60)) >> 30) == v
  {
  }

  lemma Steps30(v: bv64)
    ensures Unfold30(Fold30(v)) == (v ^ (v >> 30)) ^ ((v ^ (v >> 30)) >> 30) ^ ((v ^ (v >> 30)) >> 60)
    ensures Fold30(Unfold30(v)) == (v ^ (v >> 30) ^ (v >> 60)) ^ ((v ^ (v >> 30) ^ (v >> 60)) >> 30)
  {
    assert Fold30(v) == (v ^ (v >> 30)) && Unfold30(v) == (v ^ (v >> 30) ^ (v >> 60));
  }

  lemma Fold30Undone(v: bv64)
    ensures Unfold30(Fold30(v)) == v && Fold30(Unfold30(v)) == v
  {
    hide Fold30, Unfold30;
    Shifts30(v);
    Steps30(v);
  }

  lemma Shifts27(v: bv64)
    ensures (v ^ (v >> 27)) ^ ((v ^ (v >> 27)) >> 27) ^ ((v ^ (v >> 27)) >> 54) == v
    ensures (v ^ (v >> 27) ^ (v >> 54)) ^ ((v ^ (v >> 27) ^ (v >> 54)) >> 27) == v
  {
  }

  lemma Steps27(v: bv64)
    ensures Unfold27(Fold27(v)) == (v ^ (v >> 27)) ^ ((v ^ (v >> 27)) >> 27) ^ ((v ^ (v >> 27)) >> 54)
    ensures Fold27(Unfold27(v)) == (v ^ (v >> 27) ^ (v >> 54)) ^ ((v ^ (v >> 27) ^ (v >> 54)) >> 27)
  {
    assert Fold27(v) == (v ^ (v >> 27)) && Unfold27(v) == (v ^ (v >> 27) ^ (v >> 54));
  }

  lemma Fold27Undone(v: bv64)
    ensures Unfold27(Fold27(v)) == v && Fold27(Unfold27(v)) == v
  {
    hide Fold27, Unfold27;
    Shifts27(v);
    Steps27(v);
  }

  lemma Shifts31(v: bv64)
    ensures (v ^ (v >> 31)) ^ ((v ^ (v >> 31)) >> 31) ^ ((v ^ (v >> 31)) >> 62) == v
    ensures (v ^ (v >> 31) ^ (v >> 62)) ^ ((v ^ (v >> 31) ^ (v >> 62)) >> 31) == v
  {
  }

  lemma Steps31(v: bv64)
    ensures Unfold31(Fold31(v)) == (v ^ (v >> 31)) ^ ((v ^ (v >> 31)) >> 31) ^ ((v ^ (v >> 31)) >> 62)
    ensures Fold31(Unfold31(v)) == (v ^ (v >> 31) ^ (v >> 62)) ^ ((v ^ (v >> 31) ^ (v >> 62)) >> 31)
  {
    assert Fold31(v) == (v ^ (v >> 31)) && Unfold31(v) == (v ^ (v >> 31) ^ (v >> 62));
  }

  lemma Fold31Undone(v: bv64)
    ensures Unfold31(Fold31(v)) == v && Fold31(Unfold31(v)) == v
  {
    hide Fold31, Unfold31;
    Shifts31(v);
    Steps31(v);
  }

  lemma FirstFactor(v: bv64)
    ensures v * 0xbf58476d1ce4e5b9 * 0x96de1b173f119089 == v
    ensures v * 0x96de1b173f119089 * 0xbf58476d1ce4e5b9 == v
  {
  }

  lemma FirstSteps(v: bv64)
    ensures Unfirst(First(v)) == v * 0xbf58476d1ce4e5b9 * 0x96de1b173f119089
    ensures First(Unfirst(v)) == v * 0x96de1b173f119089 * 0xbf58476d1ce4e5b9
  {
    assert First(v) == v * 0xbf58476d1ce4e5b9 && Unfirst(v) == v * 0x96de1b173f119089;
  }

  lemma FirstUndone(v: bv64)
    ensures Unfirst(First(v)) == v && First(Unfirst(v)) == v
  {
    hide First, Unfirst;
    FirstFactor(v);
    FirstSteps(v);
  }

  lemma SecondFactor(v: bv64)
    ensures v * 0x94d049bb133111eb * 0x319642b2d24d8ec3 == v
    ensures v * 0x319642b2d24d8ec3 * 0x94d049bb133111eb == v
  {
  }

  lemma SecondSteps(v: bv64)
    ensures Unsecond(Second(v)) == v * 0x94d049bb133111eb * 0x319642b2d24d8ec3
    ensures Second(Unsecond(v)) == v * 0x319642b2d24d8ec3 * 0x94d049bb133111eb
  {
    assert Second(v) == v * 0x94d049bb133111eb && Unsecond(v) == v * 0x319642b2d24d8ec3;
  }

  lemma SecondUndone(v: bv64)
    ensures Unsecond(Second(v)) == v && Second(Unsecond(v)) == v
  {
    hide Second, Unsecond;
    SecondFactor(v);
    SecondSteps(v);
  }

  /** The output function loses nothing: every number comes from exactly one state. */
  lemma MixIsBijective(v: bv64)
    ensures Unmix(Mix(v)) == v && Mix(Unmix(v)) == v
  {
    hide Fold30, Fold27, Fold31, Unfold30, Unfold27, Unfold31, First, Second, Unfirst, Unsecond;
    Fold30Undone(v);
    FirstUndone(Fold30(v));
    Fold27Undone(First(Fold30(v)));
    SecondUndone(Fold27(First(Fold30(v))));
    Fold31Undone(Second(Fold27(First(Fold30(v)))));
    Fold31Undone(v);
    SecondUndone(Unfold31(v));
    Fold27Undone(Unsecond(Unfold31(v)));
    FirstUndone(Unfold27(Unsecond(Unfold31(v))));
    Fold30Undone(Unfirst(Unfold27(Unsecond(Unfold31(v)))));
  }

  // ---------------------------------------------------------------- the state walks through everything

  function Advanced(state: nat): nat {
    Wrap(state + INCREMENT)
  }

  /** The state after k numbers. */
  function StateAfter(state: nat, k: nat): (later: nat)
    ensures later < TWO_64
  {
    Wrap(state + k * INCREMENT)
  }

  function Word(v: nat): bv64
    requires v < TWO_64
  {
    v as bv64
  }

  function Value(w: bv64): (v: nat)
    ensures v < TWO_64
  {
    w as nat
  }

  function NumberOf(state: nat): nat
    requires state < TWO_64
  {
    Value(Mix(Word(state)))
  }

  lemma ZeroGivesZero()
    ensures NumberOf(0) == 0
  {
    MixOfZero();
  }

  lemma MultipleOf64(w: int)
    ensures (w * TWO_64) % TWO_64 == 0
  {
  }

  lemma OddIncrement()
    ensures INCREMENT * INVERSE == 1 + WRAPS * TWO_64
  {
  }

  /** From every state, adding the odd increment often enough reaches zero. */
  lemma ReachesZero(state: nat) returns (k: nat)
    requires state < TWO_64
    ensures 1 <= k <= TWO_64 && StateAfter(state, k) == 0
  {
    var product := (TWO_64 - state) * INVERSE;
    var q := product / TWO_64;
    k := product % TWO_64;
    OddIncrement();
    assert product == q * TWO_64 + k;
    var w := 1 + (TWO_64 - state) * WRAPS - q * INCREMENT;
    assert state + k * INCREMENT == w * TWO_64;
    MultipleOf64(w);
    if k == 0 {
      k := TWO_64;
      assert state + k * INCREMENT == (w + INCREMENT) * TWO_64;
      MultipleOf64(w + INCREMENT);
    }
  }

  /** One step closer to zero. */
  lemma OneStepCloser(state: nat, k: nat)
    requires k >= 1 && StateAfter(state, k) == 0
    ensures StateAfter(Advanced(state), k - 1) == 0
  {
    var q := (state + INCREMENT) / TWO_64;
    assert Advanced(state) == state + INCREMENT - q * TWO_64;
    assert Advanced(state) + (k - 1) * INCREMENT == state + k * INCREMENT - q * TWO_64;
    ShiftedMod(state + k * INCREMENT, q);
  }

  lemma ShiftedMod(x: int, q: int)
    ensures (x - q * TWO_64) % TWO_64 == x % TWO_64
  {
    QuotientIs(x - q * TWO_64, TWO_64, x / TWO_64 - q, x % TWO_64);
  }

  // ---------------------------------------------------------------- Intn

  const MAXIMUM: int := TWO_64 - 1

  /** The first value that would bias the remainder. */
  function Limit(n: nat): nat
    requires n > 0
  {
    MAXIMUM - MAXIMUM % n
  }

  lemma LimitIsWholeBlocks(n: nat)
    requires 0 < n < TWO_64
    ensures Limit(n) % n == 0 && Limit(n) == n * (Limit(n) / n) && 0 < Limit(n) < TWO_64
  {
    var q, r := MAXIMUM / n, MAXIMUM % n;
    assert MAXIMUM == n * q + r;
    QuotientIs(Limit(n), n, q, 0);
    if q == 0 {
      assert false;
    }
    Monotone(1, q, n);
  }

  class Rand {
    var state: nat

    constructor (initial: nat)
      requires initial < TWO_64
      ensures state == initial
    {
      state := initial;
    }

    method NextUint64() returns (value: nat)
      requires state < TWO_64
      modifies this
      ensures state == Advanced(old(state)) < TWO_64 && value == NumberOf(state)
    {
      hide NumberOf;
      state := Wrap(state + INCREMENT);
      value := NumberOf(state);
    }

    /** Draws until a number falls below the limit; `drawn` is how many it took. */
    method Intn(n: nat) returns (result: nat, ghost drawn: nat)
      requires state < TWO_64 && 0 < n < TWO_64
      modifies this
      ensures state < TWO_64 && 0 <= result < n && drawn >= 1
      ensures NumberOf(state) < Limit(n) && result == NumberOf(state) % n
      ensures state == StateAfter(old(state), drawn)
      ensures forall k :: 1 <= k < drawn ==> NumberOf(StateAfter(old(state), k)) >= Limit(n)
    {
      hide NumberOf, StateAfter, Advanced;
      LimitIsWholeBlocks(n);
      ZeroGivesZero();
      ghost var left := ReachesZero(state);
      var limit := MAXIMUM - MAXIMUM % n;
      drawn := 0;
      StateAfterNone(state);
      while true
        invariant state < TWO_64 && left >= 1 && StateAfter(state, left) == 0
        invariant state == StateAfter(old(state), drawn)
        invariant forall k :: 1 <= k <= drawn ==> NumberOf(StateAfter(old(state), k)) >= Limit(n)
        decreases left
      {
        OneStepCloser(state, left);
        OneStepFurther(old(state), drawn);
        var value := NextUint64();
        drawn := drawn + 1;
        StateAfterNone(state);
        if value < limit {
          return value % n, drawn;
        }
        left := left - 1;
      }
    }
  }

  lemma StateAfterNone(state: nat)
    requires state < TWO_64
    ensures StateAfter(state, 0) == state
  {
  }

  lemma OneStepFurther(state: nat, k: nat)
    ensures StateAfter(state, k + 1) == Advanced(StateAfter(state, k))
  {
    var q := (state + k * INCREMENT) / TWO_64;
    assert StateAfter(state, k) == state + k * INCREMENT - q * TWO_64;
    ShiftedMod(state + (k + 1) * INCREMENT, q);
  }

  // ---------------------------------------------------------------- no residue is favoured

  function Accepted(limit: nat, n: nat, r: nat): set<nat>
    requires n > 0
  {
    set v: nat | v < limit && v % n == r
  }

  lemma {:induction false} BlocksHoldOneEach(n: nat, r: nat, blocks: nat)
    requires n > 0 && r < n
    ensures |Accepted(n * blocks, n, r)| == blocks
  {
    hide Accepted;
    if blocks == 0 {
      NoBlock(n, r, n * blocks);
    } else {
      BlocksHoldOneEach(n, r, blocks - 1);
      OneBlockMore(n, blocks);
      NextBlock(n, r, n * (blocks - 1), blocks - 1);
    }
  }

  lemma OneBlockMore(n: nat, blocks: nat)
    requires blocks > 0
    ensures n * blocks == n * (blocks - 1) + n
  {
  }

  lemma NoBlock(n: nat, r: nat, limit: nat)
    requires n > 0 && limit == 0
    ensures Accepted(limit, n, r) == {}
  {
  }

  lemma NextBlock(n: nat, r: nat, low: nat, q: nat)
    requires n > 0 && r < n && low == n * q
    ensures |Accepted(low + n, n, r)| == |Accepted(low, n, r)| + 1
  {
    forall v: nat | low <= v < low + n
      ensures v % n == v - low
    {
      QuotientIs(v, n, q, v - low);
    }
    assert Accepted(low + n, n, r) == Accepted(low, n, r) + {low + r};
    assert low + r !in Accepted(low, n, r);
  }

  /** Every result of Intn comes from equally many of the accepted 64-bit numbers. */
  lemma EveryResidueEquallyOften(n: nat, r: nat)
    requires 0 < n < TWO_64 && r < n
    ensures |Accepted(Limit(n), n, r)| == Limit(n) / n
  {
    LimitIsWholeBlocks(n);
    BlocksHoldOneEach(n, r, Limit(n) / n);
  }

  // ---------------------------------------------------------------- and no state is

  /** The state whose number is v. */
  function StateOf(v: nat): nat
    requires v < TWO_64
  {
    Value(Unmix(Word(v)))
  }

  lemma WordIsRemainder(v: nat)
    requires v < 0x1_0000_0000_0000_0000
    ensures (v as bv64) as nat == v % 0x1_0000_0000_0000_0000
  {
  }

  lemma SmallRemainder(v: nat)
    requires v < TWO_64
    ensures v % TWO_64 == v
  {
  }

  lemma ValueOfWord(v: nat)
    requires v < TWO_64
    ensures Value(Word(v)) == v
  {
    WordIsRemainder(v);
    SmallRemainder(v);
    assert v % 0x1_0000_0000_0000_0000 == v;
  }

  lemma WordOfValue(w: bv64)
    ensures Word(Value(w)) == w
  {
  }

  lemma NumberOfState(v: nat)
    requires v < TWO_64
    ensures NumberOf(StateOf(v)) == v
  {
    hide Mix, Unmix, Word, Value;
    MixIsBijective(Word(v));
    ValueOfWord(v);
    WordOfValue(Unmix(Word(v)));
  }

  lemma StateOfNumber(s: nat)
    requires s < TWO_64
    ensures NumberOf(s) < TWO_64 && StateOf(NumberOf(s)) == s
  {
    hide Mix, Unmix, Word, Value;
    MixIsBijective(Word(s));
    ValueOfWord(s);
    WordOfValue(Mix(Word(s)));
  }

  /** The generator states from which the next draw is accepted and gives r. */
  function AcceptedStates(limit: nat, n: nat, r: nat): set<nat>
    requires n > 0 && limit <= TWO_64
  {
    set v | v in Accepted(limit, n, r) :: StateOf(v)
  }

  lemma {:induction false} ImageSize(values: set<nat>)
    requires forall v | v in values :: v < TWO_64
    ensures |set v | v in values :: StateOf(v)| == |values|
  {
    hide StateOf;
    if values != {} {
      var one :| one in values;
      var rest := values - {one};
      ImageSize(rest);
      var image := set v | v in rest :: StateOf(v);
      assert (set v | v in values :: StateOf(v)) == image + {StateOf(one)};
      assert StateOf(one) !in image by {
        if StateOf(one) in image {
          var other :| other in rest && StateOf(other) == StateOf(one);
          NumberOfState(one);
          NumberOfState(other);
        }
      }
    }
  }

  /** The mixing function maps states onto numbers one to one, so the residues are
      also equally often the outcome over all states of the generator. */
  lemma EveryResidueFromEquallyManyStates(n: nat, r: nat)
    requires 0 < n < TWO_64 && r < n
    ensures 0 < Limit(n) < TWO_64 && |AcceptedStates(Limit(n), n, r)| == Limit(n) / n
    ensures forall s: nat | s < TWO_64 :: s in AcceptedStates(Limit(n), n, r) <==> NumberOf(s) < Limit(n) && NumberOf(s) % n == r
  {
    hide NumberOf, StateOf, Limit;
    LimitIsWholeBlocks(n);
    EveryResidueEquallyOften(n, r);
    ImageSize(Accepted(Limit(n), n, r));
    forall s: nat | s < TWO_64
      ensures s in AcceptedStates(Limit(n), n, r) <==> NumberOf(s) < Limit(n) && NumberOf(s) % n == r
    {
      StateOfNumber(s);
      if s in AcceptedStates(Limit(n), n, r) {
        var v :| v in Accepted(Limit(n), n, r) && StateOf(v) == s;
        NumberOfState(v);
      }
      if NumberOf(s) < Limit(n) && NumberOf(s) % n == r {
        assert NumberOf(s) in Accepted(Limit(n), n, r);
      }
    }
  }
}
