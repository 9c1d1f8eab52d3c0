/** The corpus: which executions are kept for mutation, and the coverage that
    decides it. Entry IDs are the numbers behind the source's "corpus-%06d". */
module Corpora {
  import opened Keys

  type Key = int

  /** A plan, as far as admission looks at it: what it does, how many actions
      it has, and whether `Validate` accepts it. */
  datatype Plan = Plan(content: int, length: nat, valid: bool)

  /** `minNew` is never zero: NewWithConfig replaces non-positive values by 1. */
  datatype Config = Config(minNew: int, semantic: bool)

  datatype Input = Input(parent: Option<nat>, source: string, depth: int, runIndex: int, seed: int, plan: Plan,
                         states: seq<Key>, semanticStates: seq<Key>, semanticTransitions: seq<Key>)

  datatype Reason =
    | RetainedRaw
    | RetainedSemanticState
    | RetainedSemanticTransition
    | RetainedSemanticStateAndTransition
    | RejectedRawThreshold
    | RejectedNoSemanticNovelty

  /** The persisted part of an entry; the admission reason is not written to
      corpus.jsonl, so it travels beside the entry. */
  datatype Entry = Entry(id: nat, parent: Option<nat>, source: string, depth: int, runIndex: int, seed: int, plan: Plan,
                         newStates: seq<Key>, newSemanticStates: seq<Key>, newSemanticTransitions: seq<Key>)

  datatype State = State(coverage: set<Key>, semanticStates: set<Key>, semanticTransitions: set<Key>,
                         entries: seq<Entry>)

  /** What Consider answers: the error path, or the new keys with the reason
      and whether an entry was appended. */
  datatype Verdict =
    | Refused
    | Considered(entry: Entry, reason: Reason, retained: bool)

  datatype Checkpoint = Checkpoint(coverageKeys: seq<Key>, semanticStateKeys: seq<Key>,
                                   semanticTransitionKeys: seq<Key>, entryCount: int)

  /** The three coverage relations are handled alike; an axis names one. */
  datatype Axis = Raw | SemanticState | SemanticTransition

  const Empty: State := State({}, {}, {}, [])

  function Normalized(config: Config): Config {
    if config.minNew <= 0 then config.(minNew := 1) else config
  }

  // ---------------------------------------------------------------- specification

  predicate Acceptable(input: Input) {
    input.plan.valid && input.plan.length > 0 && input.depth >= 0 && input.runIndex >= 0
  }

  function NewKeys(keys: seq<Key>, covered: set<Key>): seq<Key> {
    Sorted(Elements(keys) - covered)
  }

  function RetainedReason(semantic: bool, states: seq<Key>, transitions: seq<Key>): Reason {
    if !semantic then RetainedRaw
    else if |states| > 0 && |transitions| > 0 then RetainedSemanticStateAndTransition
    else if |states| > 0 then RetainedSemanticState
    else RetainedSemanticTransition
  }

  /** The entry built for an input; a rejected one keeps the zero ID, parent
      and plan of the Go struct literal. */
  function Draft(c: State, input: Input): Entry {
    Entry(0, None, input.source, input.depth, input.runIndex, input.seed, Plan(0, 0, true),
          NewKeys(input.states, c.coverage),
          NewKeys(input.semanticStates, c.semanticStates),
          NewKeys(input.semanticTransitions, c.semanticTransitions))
  }

  function Verdicts(config: Config, c: State, input: Input): Verdict {
    if !Acceptable(input) then
      Refused
    else
      var draft := Draft(c, input);
      if |draft.newStates| < config.minNew then
        Considered(draft, RejectedRawThreshold, false)
      else if config.semantic && |draft.newSemanticStates| + |draft.newSemanticTransitions| == 0 then
        Considered(draft, RejectedNoSemanticNovelty, false)
      else
        Considered(draft.(id := |c.entries|, parent := input.parent, plan := input.plan),
                   RetainedReason(config.semantic, draft.newSemanticStates, draft.newSemanticTransitions), true)
  }

  function After(config: Config, c: State, input: Input): State {
    if !Acceptable(input) then
      c
    else
      var verdict := Verdicts(config, c, input);
      State(c.coverage + Elements(input.states),
            c.semanticStates + Elements(input.semanticStates),
            c.semanticTransitions + Elements(input.semanticTransitions),
            if verdict.retained then c.entries + [verdict.entry] else c.entries)
  }

  function RolledBack(c: State, entry: Entry): Option<State> {
    if |c.entries| == 0 || c.entries[|c.entries| - 1].id != entry.id then
      None
    else
      Some(State(c.coverage - Elements(entry.newStates),
                 c.semanticStates - Elements(entry.newSemanticStates),
                 c.semanticTransitions - Elements(entry.newSemanticTransitions),
                 c.entries[..|c.entries| - 1]))
  }

  function Checkpointed(c: State): Checkpoint {
    Checkpoint(Sorted(c.coverage), Sorted(c.semanticStates), Sorted(c.semanticTransitions), |c.entries|)
  }

  function Covered(c: State, axis: Axis): set<Key> {
    match axis
    case Raw => c.coverage
    case SemanticState => c.semanticStates
    case SemanticTransition => c.semanticTransitions
  }

  function Observed(input: Input, axis: Axis): seq<Key> {
    match axis
    case Raw => input.states
    case SemanticState => input.semanticStates
    case SemanticTransition => input.semanticTransitions
  }

  function Fresh(entry: Entry, axis: Axis): seq<Key> {
    match axis
    case Raw => entry.newStates
    case SemanticState => entry.newSemanticStates
    case SemanticTransition => entry.newSemanticTransitions
  }

  function Listed(cp: Checkpoint, axis: Axis): seq<Key> {
    match axis
    case Raw => cp.coverageKeys
    case SemanticState => cp.semanticStateKeys
    case SemanticTransition => cp.semanticTransitionKeys
  }

  /** Every key some entry of the list claims to have found first, in order. */
  function Claims(entries: seq<Entry>, axis: Axis): seq<Key> {
    if entries == [] then [] else Claims(entries[..|entries| - 1], axis) + Fresh(entries[|entries| - 1], axis)
  }

  predicate GoodEntry(entry: Entry, index: nat) {
    entry.id == index && entry.depth >= 0 && entry.runIndex >= 0 && entry.plan.valid
  }

  ghost predicate GoodAxis(covered: seq<Key>, entries: seq<Entry>, axis: Axis) {
    Distinct(covered) && Distinct(Claims(entries, axis)) && Elements(Claims(entries, axis)) <= Elements(covered)
  }

  /** What RestoreCheckpointWithConfig demands of a watermark and the entries
      read back from corpus.jsonl. */
  ghost predicate Restorable(cp: Checkpoint, entries: seq<Entry>) {
    && cp.entryCount == |entries|
    && (forall i :: 0 <= i < |entries| ==> GoodEntry(entries[i], i))
    && (forall axis :: GoodAxis(Listed(cp, axis), entries, axis))
  }

  function Restored(cp: Checkpoint, entries: seq<Entry>): State {
    State(Elements(cp.coverageKeys), Elements(cp.semanticStateKeys), Elements(cp.semanticTransitionKeys), entries)
  }

  // ---------------------------------------------------------------- the class

  method UniqueKeys(keys: seq<Key>) returns (unique: set<Key>)
    ensures unique == Elements(keys)
  {
    unique := {};
    for i := 0 to |keys|
      invariant unique == Elements(keys[..i])
    {
      assert keys[..i + 1] == keys[..i] + [keys[i]];
      unique := unique + {keys[i]};
    }
    assert keys[..|keys|] == keys;
  }

  /** The members of a sorted key list that `covered` does not hold, in order. */
  method UnseenKeys(keys: seq<Key>, covered: set<Key>) returns (unseen: seq<Key>)
    requires Increasing(keys)
    ensures unseen == Sorted(Elements(keys) - covered)
  {
    unseen := [];
    for i := 0 to |keys|
      invariant Elements(unseen) == Elements(keys[..i]) - covered
      invariant Increasing(unseen)
      invariant forall k :: 0 <= k < |unseen| && i < |keys| ==> unseen[k] < keys[i]
    {
      assert keys[..i + 1] == keys[..i] + [keys[i]];
      assert Elements(keys[..i + 1]) == Elements(keys[..i]) + {keys[i]};
      if keys[i] !in covered {
        assert Elements(unseen + [keys[i]]) == Elements(unseen) + {keys[i]};
        unseen := unseen + [keys[i]];
      }
    }
    assert keys[..|keys|] == keys;
    IncreasingIsSorted(unseen);
  }

  method UniqueKeySet(keys: seq<Key>) returns (ok: bool, unique: set<Key>)
    ensures ok <==> Distinct(keys)
    ensures ok ==> unique == Elements(keys)
  {
    unique := {};
    for i := 0 to |keys|
      invariant unique == Elements(keys[..i])
      invariant Distinct(keys[..i])
    {
      assert keys[..i + 1] == keys[..i] + [keys[i]];
      if keys[i] in unique {
        var j :| 0 <= j < i && keys[..i][j] == keys[i];
        assert keys[j] == keys[i];
        return false, unique;
      }
      unique := unique + {keys[i]};
    }
    assert keys[..|keys|] == keys;
    ok := true;
  }

  /** One entry's keys must be covered and new to everything seen so far. */
  method ValidateEntryKeys(keys: seq<Key>, covered: set<Key>, earlier: seq<Key>, seen: set<Key>)
      returns (ok: bool, now: set<Key>)
    requires Distinct(earlier) && Elements(earlier) <= covered && seen == Elements(earlier)
    ensures ok <==> Distinct(earlier + keys) && Elements(earlier + keys) <= covered
    ensures ok ==> now == Elements(earlier + keys)
  {
    now := seen;
    assert earlier + keys[..0] == earlier;
    for i := 0 to |keys|
      invariant now == Elements(earlier + keys[..i])
      invariant Distinct(earlier + keys[..i]) && Elements(earlier + keys[..i]) <= covered
    {
      var before := earlier + keys[..i];
      assert earlier + keys[..i + 1] == before + [keys[i]];
      assert (earlier + keys)[|before|] == keys[i];
      if keys[i] !in covered {
        assert keys[i] in Elements(earlier + keys);
        return false, now;
      }
      if keys[i] in now {
        var j :| 0 <= j < |before| && before[j] == keys[i];
        assert (earlier + keys)[j] == keys[i];
        return false, now;
      }
      now := now + {keys[i]};
    }
    assert keys[..|keys|] == keys;
    ok := true;
  }

  lemma {:induction false} ClaimsGrow(entries: seq<Entry>, i: nat, axis: Axis)
    requires i <= |entries|
    ensures Claims(entries[..i], axis) <= Claims(entries, axis)
    decreases |entries|
  {
    if i < |entries| {
      var init := entries[..|entries| - 1];
      ClaimsGrow(init, i, axis);
      assert init[..i] == entries[..i];
    } else {
      assert entries[..i] == entries;
    }
  }

  /** A bad prefix of the entries makes the whole list unrestorable. */
  lemma BadPrefix(covered: seq<Key>, entries: seq<Entry>, i: nat, axis: Axis)
    requires i <= |entries|
    requires !(Distinct(Claims(entries[..i], axis)) && Elements(Claims(entries[..i], axis)) <= Elements(covered))
    ensures !GoodAxis(covered, entries, axis)
  {
    ClaimsGrow(entries, i, axis);
    var part, whole := Claims(entries[..i], axis), Claims(entries, axis);
    assert forall k :: 0 <= k < |part| ==> whole[k] == part[k];
    if !(Elements(part) <= Elements(covered)) {
      var x :| x in Elements(part) && x !in Elements(covered);
      assert x in Elements(whole);
    }
  }

  /** What the entries claim on one axis is distinct and covered. */
  ghost predicate ClaimsFit(covered: seq<Key>, entries: seq<Entry>, axis: Axis) {
    Distinct(Claims(entries, axis)) && Elements(Claims(entries, axis)) <= Elements(covered)
  }

  /** Checks the keys that entry i claims on one axis, given the keys claimed before. */
  method ValidateAxis(covered: set<Key>, entries: seq<Entry>, i: nat, axis: Axis, earlier: set<Key>, ghost listed: seq<Key>)
      returns (ok: bool, seen: set<Key>)
    requires i < |entries| && covered == Elements(listed) && Distinct(listed)
    requires ClaimsFit(listed, entries[..i], axis) && earlier == Elements(Claims(entries[..i], axis))
    ensures ok ==> ClaimsFit(listed, entries[..i + 1], axis) && seen == Elements(Claims(entries[..i + 1], axis))
    ensures !ok ==> !GoodAxis(listed, entries, axis)
  {
    assert entries[..i + 1][..i] == entries[..i] && entries[..i + 1][i] == entries[i];
    ok, seen := ValidateEntryKeys(Fresh(entries[i], axis), covered, Claims(entries[..i], axis), earlier);
    if !ok {
      BadPrefix(listed, entries, i + 1, axis);
    }
  }

  method RestoreCheckpoint(cp: Checkpoint, entries: seq<Entry>) returns (restored: Option<State>)
    ensures restored.Some? <==> Restorable(cp, entries)
    ensures restored.Some? ==> restored.value == Restored(cp, entries)
  {
    if cp.entryCount != |entries| {
      return None;
    }
    var rawOk, raw := UniqueKeySet(cp.coverageKeys);
    var stateOk, states := UniqueKeySet(cp.semanticStateKeys);
    var transitionOk, transitions := UniqueKeySet(cp.semanticTransitionKeys);
    if !rawOk || !stateOk || !transitionOk {
      assert !GoodAxis(Listed(cp, Raw), entries, Raw) || !GoodAxis(Listed(cp, SemanticState), entries, SemanticState)
             || !GoodAxis(Listed(cp, SemanticTransition), entries, SemanticTransition);
      return None;
    }
    var seenRaw, seenStates, seenTransitions: set<Key> := {}, {}, {};
    hide ClaimsFit, Claims, GoodAxis, Elements;
    NoClaims(entries, cp.coverageKeys, cp.semanticStateKeys, cp.semanticTransitionKeys);
    for i := 0 to |entries|
      invariant forall j :: 0 <= j < i ==> GoodEntry(entries[j], j)
      invariant seenRaw == Elements(Claims(entries[..i], Raw))
      invariant seenStates == Elements(Claims(entries[..i], SemanticState))
      invariant seenTransitions == Elements(Claims(entries[..i], SemanticTransition))
      invariant ClaimsFit(cp.coverageKeys, entries[..i], Raw)
      invariant ClaimsFit(cp.semanticStateKeys, entries[..i], SemanticState)
      invariant ClaimsFit(cp.semanticTransitionKeys, entries[..i], SemanticTransition)
    {
      var entry := entries[i];
      if entry.id != i || entry.depth < 0 || entry.runIndex < 0 || !entry.plan.valid {
        return None;
      }
      rawOk, seenRaw := ValidateAxis(raw, entries, i, Raw, seenRaw, cp.coverageKeys);
      if !rawOk {
        assert !GoodAxis(Listed(cp, Raw), entries, Raw);
        return None;
      }
      stateOk, seenStates := ValidateAxis(states, entries, i, SemanticState, seenStates, cp.semanticStateKeys);
      if !stateOk {
        assert !GoodAxis(Listed(cp, SemanticState), entries, SemanticState);
        return None;
      }
      transitionOk, seenTransitions :=
        ValidateAxis(transitions, entries, i, SemanticTransition, seenTransitions, cp.semanticTransitionKeys);
      if !transitionOk {
        assert !GoodAxis(Listed(cp, SemanticTransition), entries, SemanticTransition);
        return None;
      }
    }
    assert entries[..|entries|] == entries;
    AllAxesFit(cp, entries);
    restored := Some(State(raw, states, transitions, entries));
  }

  lemma NoClaims(entries: seq<Entry>, raw: seq<Key>, states: seq<Key>, transitions: seq<Key>)
    ensures forall axis :: Elements(Claims(entries[..0], axis)) == {}
    ensures ClaimsFit(raw, entries[..0], Raw) && ClaimsFit(states, entries[..0], SemanticState)
    ensures ClaimsFit(transitions, entries[..0], SemanticTransition)
  {
  }

  lemma AllAxesFit(cp: Checkpoint, entries: seq<Entry>)
    requires Distinct(cp.coverageKeys) && Distinct(cp.semanticStateKeys) && Distinct(cp.semanticTransitionKeys)
    requires ClaimsFit(cp.coverageKeys, entries, Raw) && ClaimsFit(cp.semanticStateKeys, entries, SemanticState)
    requires ClaimsFit(cp.semanticTransitionKeys, entries, SemanticTransition)
    ensures forall axis :: GoodAxis(Listed(cp, axis), entries, axis)
  {
    forall axis
      ensures GoodAxis(Listed(cp, axis), entries, axis)
    {
      match axis
      case Raw =>
      case SemanticState =>
      case SemanticTransition =>
    }
  }

  class Corpus {
    const config: Config
    var coverage: set<Key>
    var semanticStates: set<Key>
    var semanticTransitions: set<Key>
    var entries: seq<Entry>

    function View(): State
      reads this
    {
      State(coverage, semanticStates, semanticTransitions, entries)
    }

    constructor (requested: Config)
      ensures View() == Empty && config == Normalized(requested)
    {
      config := if requested.minNew <= 0 then requested.(minNew := 1) else requested;
      coverage, semanticStates, semanticTransitions, entries := {}, {}, {}, [];
    }

    /** RestoreCheckpointWithConfig, once RestoreCheckpoint has accepted. */
    constructor FromState(requested: Config, restored: State)
      ensures View() == restored && config == Normalized(requested)
    {
      config := if requested.minNew <= 0 then requested.(minNew := 1) else requested;
      coverage, semanticStates, semanticTransitions := restored.coverage, restored.semanticStates, restored.semanticTransitions;
      entries := restored.entries;
    }

    method Consider(input: Input) returns (verdict: Verdict)
      modifies this
      ensures verdict == Verdicts(config, old(View()), input)
      ensures View() == After(config, old(View()), input)
    {
      hide Elements, Increasing, RetainedReason;
      if !input.plan.valid || input.plan.length == 0 || input.depth < 0 || input.runIndex < 0 {
        return Refused;
      }
      var stateKeys := UniqueKeys(input.states);
      var semanticStateKeys := UniqueKeys(input.semanticStates);
      var transitionKeys := UniqueKeys(input.semanticTransitions);
      var newKeys := UnseenKeys(Sorted(stateKeys), coverage);
      var newSemanticStates := UnseenKeys(Sorted(semanticStateKeys), semanticStates);
      var newTransitions := UnseenKeys(Sorted(transitionKeys), semanticTransitions);
      coverage := coverage + stateKeys;
      semanticStates := semanticStates + semanticStateKeys;
      semanticTransitions := semanticTransitions + transitionKeys;
      var entry := Entry(0, None, input.source, input.depth, input.runIndex, input.seed, Plan(0, 0, true),
                         newKeys, newSemanticStates, newTransitions);
      if |newKeys| < config.minNew {
        return Considered(entry, RejectedRawThreshold, false);
      }
      if config.semantic && |newSemanticStates| + |newTransitions| == 0 {
        return Considered(entry, RejectedNoSemanticNovelty, false);
      }
      entry := entry.(id := |entries|, parent := input.parent, plan := input.plan);
      entries := entries + [entry];
      verdict := Considered(entry, RetainedReason(config.semantic, newSemanticStates, newTransitions), true);
    }

    method RollbackLast(entry: Entry) returns (ok: bool)
      modifies this
      ensures ok == RolledBack(old(View()), entry).Some?
      ensures View() == if ok then RolledBack(old(View()), entry).value else old(View())
    {
      if |entries| == 0 || entries[|entries| - 1].id != entry.id {
        return false;
      }
      coverage := coverage - Elements(entry.newStates);
      semanticStates := semanticStates - Elements(entry.newSemanticStates);
      semanticTransitions := semanticTransitions - Elements(entry.newSemanticTransitions);
      entries := entries[..|entries| - 1];
      ok := true;
    }

    method Watermark() returns (checkpoint: Checkpoint)
      ensures checkpoint == Checkpointed(View())
    {
      checkpoint := Checkpoint(Sorted(coverage), Sorted(semanticStates), Sorted(semanticTransitions), |entries|);
    }

    /** `Entry(id)`: linear search over the entries. */
    method Find(id: nat) returns (found: Option<Entry>)
      ensures found.Some? ==> found.value in entries && found.value.id == id
      ensures found.None? ==> forall e | e in entries :: e.id != id
    {
      for i := 0 to |entries|
        invariant forall j :: 0 <= j < i ==> entries[j].id != id
      {
        if entries[i].id == id {
          return Some(entries[i]);
        }
      }
      found := None;
    }
  }

  // ---------------------------------------------------------------- properties

  lemma AfterOnAxis(config: Config, c: State, input: Input, axis: Axis)
    requires Acceptable(input)
    ensures Covered(After(config, c, input), axis) == Covered(c, axis) + Elements(Observed(input, axis))
    ensures Verdicts(config, c, input).Considered?
    ensures Fresh(Verdicts(config, c, input).entry, axis) == Sorted(Elements(Observed(input, axis)) - Covered(c, axis))
  {
    match axis
    case Raw =>
    case SemanticState =>
    case SemanticTransition =>
  }

  /** Persisted entries stay well formed: a watermark always reads back. */
  ghost predicate WellFormed(c: State) {
    && (forall i :: 0 <= i < |c.entries| ==> GoodEntry(c.entries[i], i))
    && (forall axis :: Distinct(Claims(c.entries, axis)) && Elements(Claims(c.entries, axis)) <= Covered(c, axis))
  }

  lemma ConsiderKeepsWellFormed(config: Config, c: State, input: Input)
    requires WellFormed(c)
    ensures WellFormed(After(config, c, input))
  {
    forall axis
      ensures Distinct(Claims(After(config, c, input).entries, axis))
      ensures Elements(Claims(After(config, c, input).entries, axis)) <= Covered(After(config, c, input), axis)
    {
      ConsiderKeepsClaims(config, c, input, axis);
    }
  }

  /** What a retained entry claims was not covered before, so nobody else claims it. */
  lemma ConsiderKeepsClaims(config: Config, c: State, input: Input, axis: Axis)
    requires Distinct(Claims(c.entries, axis)) && Elements(Claims(c.entries, axis)) <= Covered(c, axis)
    ensures var next := After(config, c, input);
            Distinct(Claims(next.entries, axis)) && Elements(Claims(next.entries, axis)) <= Covered(next, axis)
  {
    if Acceptable(input) {
      AfterOnAxis(config, c, input, axis);
      var verdict := Verdicts(config, c, input);
      if verdict.retained {
        assert After(config, c, input).entries[..|c.entries|] == c.entries;
        NewClaims(Claims(c.entries, axis), Elements(Observed(input, axis)), Covered(c, axis));
      }
    }
  }

  lemma NewClaims(earlier: seq<Key>, observed: set<Key>, covered: set<Key>)
    requires Distinct(earlier) && Elements(earlier) <= covered
    ensures var all := earlier + Sorted(observed - covered);
            Distinct(all) && Elements(all) <= covered + observed
  {
    var new' := Sorted(observed - covered);
    assert forall x | x in new' :: x in Elements(new') && x !in covered;
    assert forall x | x in earlier :: x in Elements(earlier);
    AppendDistinct(earlier, new');
  }

  lemma AppendDistinct(a: seq<Key>, b: seq<Key>)
    requires Distinct(a) && Distinct(b) && forall x | x in b :: x !in a
    ensures Distinct(a + b)
  {
    forall i, j | 0 <= i < j < |a + b|
      ensures (a + b)[i] != (a + b)[j]
    {
      if i < |a| <= j {
        assert a[i] in a && b[j - |a|] in b;
      }
    }
  }

  /** Restoring a checkpoint with its own entries succeeds and gives back the
      very same corpus, hence the same decision on every later input. */
  lemma RestoreInvertsCheckpoint(config: Config, c: State, inputs: seq<Input>)
    requires WellFormed(c)
    ensures Restorable(Checkpointed(c), c.entries)
    ensures Restored(Checkpointed(c), c.entries) == c
    ensures Decisions(config, Restored(Checkpointed(c), c.entries), inputs) == Decisions(config, c, inputs)
  {
  }

  /** A retained Consider followed at once by RollbackLast changes nothing. */
  lemma RollbackUndoesConsider(config: Config, c: State, input: Input)
    requires Verdicts(config, c, input).Considered? && Verdicts(config, c, input).retained
    ensures RolledBack(After(config, c, input), Verdicts(config, c, input).entry) == Some(c)
  {
    var entry := Verdicts(config, c, input).entry;
    var next := After(config, c, input);
    assert next.entries[..|next.entries| - 1] == c.entries;
    AfterOnAxis(config, c, input, Raw);
    AfterOnAxis(config, c, input, SemanticState);
    AfterOnAxis(config, c, input, SemanticTransition);
    assert next.coverage - Elements(entry.newStates) == c.coverage;
    assert next.semanticStates - Elements(entry.newSemanticStates) == c.semanticStates;
    assert next.semanticTransitions - Elements(entry.newSemanticTransitions) == c.semanticTransitions;
  }

  // Whole runs: a list of Consider calls from one state.

  function Run(config: Config, c: State, inputs: seq<Input>): State {
    if inputs == [] then c else After(config, Run(config, c, inputs[..|inputs| - 1]), inputs[|inputs| - 1])
  }

  function Decisions(config: Config, c: State, inputs: seq<Input>): seq<Verdict> {
    if inputs == [] then []
    else
      var init := inputs[..|inputs| - 1];
      Decisions(config, c, init) + [Verdicts(config, Run(config, c, init), inputs[|inputs| - 1])]
  }

  ghost predicate ObservedBy(inputs: seq<Input>, axis: Axis, key: Key) {
    exists i :: 0 <= i < |inputs| && Acceptable(inputs[i]) && key in Observed(inputs[i], axis)
  }

  lemma ObservedByLast(init: seq<Input>, last: Input, axis: Axis, key: Key)
    ensures ObservedBy(init + [last], axis, key)
            <==> ObservedBy(init, axis, key) || (Acceptable(last) && key in Observed(last, axis))
  {
    var inputs := init + [last];
    if i :| 0 <= i < |init| && Acceptable(init[i]) && key in Observed(init[i], axis) {
      assert inputs[i] == init[i];
    }
    if Acceptable(last) && key in Observed(last, axis) {
      assert inputs[|init|] == last;
    }
  }

  /** Coverage is exactly what the accepted inputs observed, in any order. */
  lemma {:induction false} CoverageIsUnion(config: Config, inputs: seq<Input>, axis: Axis, key: Key)
    ensures key in Covered(Run(config, Empty, inputs), axis) <==> ObservedBy(inputs, axis, key)
  {
    if inputs != [] {
      var init, last := inputs[..|inputs| - 1], inputs[|inputs| - 1];
      assert inputs == init + [last];
      CoverageIsUnion(config, init, axis, key);
      ObservedByLast(init, last, axis, key);
      if Acceptable(last) {
        AfterOnAxis(config, Run(config, Empty, init), last, axis);
      }
    }
  }

  /** Completion order does not change what is covered. */
  lemma OrderDoesNotMatter(config: Config, a: seq<Input>, b: seq<Input>, axis: Axis)
    requires forall x :: x in a <==> x in b
    ensures Covered(Run(config, Empty, a), axis) == Covered(Run(config, Empty, b), axis)
  {
    forall key
      ensures key in Covered(Run(config, Empty, a), axis) <==> key in Covered(Run(config, Empty, b), axis)
    {
      CoverageIsUnion(config, a, axis, key);
      CoverageIsUnion(config, b, axis, key);
      if ObservedBy(a, axis, key) {
        var i :| 0 <= i < |a| && Acceptable(a[i]) && key in Observed(a[i], axis);
        assert a[i] in b;
      }
      if ObservedBy(b, axis, key) {
        var i :| 0 <= i < |b| && Acceptable(b[i]) && key in Observed(b[i], axis);
        assert b[i] in a;
      }
    }
  }

  predicate Attributed(verdict: Verdict, axis: Axis, key: Key) {
    verdict.Considered? && key in Fresh(verdict.entry, axis)
  }

  /** A call reports exactly the keys it observes that were not covered before. */
  lemma NewMeansUncovered(config: Config, before: State, last: Input, axis: Axis, key: Key)
    ensures Attributed(Verdicts(config, before, last), axis, key)
            <==> key !in Covered(before, axis) && key in Covered(After(config, before, last), axis)
    ensures key in Covered(before, axis) ==> key in Covered(After(config, before, last), axis)
  {
    if Acceptable(last) {
      AfterOnAxis(config, before, last, axis);
      var found := Fresh(Verdicts(config, before, last).entry, axis);
      assert key in found <==> key in Elements(found);
    }
  }

  lemma NothingCovered(axis: Axis, key: Key)
    ensures key !in Covered(Empty, axis)
  {
  }

  /** Each covered key was new in exactly one call: the first to observe it. */
  lemma {:induction false} NewExactlyOnce(config: Config, inputs: seq<Input>, axis: Axis, key: Key)
    ensures |Decisions(config, Empty, inputs)| == |inputs|
    ensures forall i, j :: 0 <= i < j < |inputs| && Attributed(Decisions(config, Empty, inputs)[i], axis, key)
                           ==> !Attributed(Decisions(config, Empty, inputs)[j], axis, key)
    ensures key in Covered(Run(config, Empty, inputs), axis)
            <==> exists i :: 0 <= i < |inputs| && Attributed(Decisions(config, Empty, inputs)[i], axis, key)
  {
    hide Verdicts, After, Attributed, Covered;
    if inputs == [] {
      NothingCovered(axis, key);
    } else {
      var init, last := inputs[..|inputs| - 1], inputs[|inputs| - 1];
      NewExactlyOnce(config, init, axis, key);
      NewMeansUncovered(config, Run(config, Empty, init), last, axis, key);
      var earlier, all := Decisions(config, Empty, init), Decisions(config, Empty, inputs);
      assert forall i :: 0 <= i < |init| ==> all[i] == earlier[i];
      assert all[|init|] == Verdicts(config, Run(config, Empty, init), last);
      if key in Covered(Run(config, Empty, init), axis) {
        var i :| 0 <= i < |init| && Attributed(earlier[i], axis, key);
        assert Attributed(all[i], axis, key);
      }
    }
  }
}
