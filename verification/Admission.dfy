/** When the corpus keeps an execution, told from what its coverage was before and after. */
module Admission {
  import opened Keys
  import opened Corpora

  function Growth(before: State, after: State, axis: Axis): int {
    |Covered(after, axis)| - |Covered(before, axis)|
  }

  /** The decision and each of its six reasons, by how much the three coverages grew. */
  ghost predicate ByGrowth(config: Config, raw: int, states: int, transitions: int, verdict: Verdict) {
    && verdict.Considered?
    && (verdict.retained <==> raw >= config.minNew && (config.semantic ==> states + transitions > 0))
    && (verdict.reason == RejectedRawThreshold <==> raw < config.minNew)
    && (verdict.reason == RejectedNoSemanticNovelty <==>
          raw >= config.minNew && config.semantic && states == 0 && transitions == 0)
    && (verdict.reason == RetainedRaw <==> raw >= config.minNew && !config.semantic)
    && (verdict.reason == RetainedSemanticState <==>
          raw >= config.minNew && config.semantic && states > 0 && transitions == 0)
    && (verdict.reason == RetainedSemanticTransition <==>
          raw >= config.minNew && config.semantic && states == 0 && transitions > 0)
    && (verdict.reason == RetainedSemanticStateAndTransition <==>
          raw >= config.minNew && config.semantic && states > 0 && transitions > 0)
  }

  lemma GrowthIsNew(config: Config, c: State, input: Input, axis: Axis)
    requires Acceptable(input)
    ensures Verdicts(config, c, input).Considered?
    ensures Growth(c, After(config, c, input), axis) == |Fresh(Verdicts(config, c, input).entry, axis)| >= 0
  {
    hide Verdicts, After, Sorted;
    AfterOnAxis(config, c, input, axis);
    var observed, covered := Elements(Observed(input, axis)), Covered(c, axis);
    assert covered + observed == covered + (observed - covered);
  }

  /** An execution is kept exactly when the raw coverage grows by the threshold and,
      if asked for, one of the semantic coverages grows as well. */
  lemma AdmissionByGrowth(config: Config, c: State, input: Input)
    requires input.plan.valid && input.plan.length > 0 && input.depth >= 0 && input.runIndex >= 0
    ensures var after := After(config, c, input);
            ByGrowth(config, Growth(c, after, Raw), Growth(c, after, SemanticState), Growth(c, after, SemanticTransition),
                     Verdicts(config, c, input))
  {
    hide After, Growth, NewKeys;
    GrowthIsNew(config, c, input, Raw);
    GrowthIsNew(config, c, input, SemanticState);
    GrowthIsNew(config, c, input, SemanticTransition);
  }

  /** An input is refused exactly when its entry could not be restored, or its plan is empty. */
  lemma RefusedExactly(config: Config, c: State, input: Input)
    ensures Verdicts(config, c, input).Refused?
            <==> !(input.plan.valid && input.plan.length > 0 && input.depth >= 0 && input.runIndex >= 0)
    ensures Verdicts(config, c, input).Refused? ==> After(config, c, input) == c
    ensures !Verdicts(config, c, input).Refused? ==>
              GoodEntry(Verdicts(config, c, input).entry.(id := |c.entries|, plan := input.plan), |c.entries|)
  {
    hide NewKeys;
  }

  /** What is kept is the execution itself under the next ID, and nothing else is kept. */
  lemma KeptIsTheInput(config: Config, c: State, input: Input)
    ensures var verdict, after := Verdicts(config, c, input), After(config, c, input);
            if verdict.Considered? && verdict.retained then
              && after.entries == c.entries + [verdict.entry] && verdict.entry.id == |c.entries|
              && verdict.entry.parent == input.parent && verdict.entry.plan == input.plan
              && verdict.entry.source == input.source && verdict.entry.depth == input.depth
              && verdict.entry.runIndex == input.runIndex && verdict.entry.seed == input.seed
            else after.entries == c.entries
  {
    hide NewKeys;
  }

  // ---------------------------------------------------------------- whole runs

  lemma {:induction false} DecisionAt(config: Config, inputs: seq<Input>, i: nat)
    requires i < |inputs|
    ensures |Decisions(config, Empty, inputs)| == |inputs|
    ensures Decisions(config, Empty, inputs)[i] == Verdicts(config, Run(config, Empty, inputs[..i]), inputs[i])
    decreases |inputs|
  {
    hide Verdicts, After;
    var init := inputs[..|inputs| - 1];
    DecisionsLength(config, init);
    if i < |init| {
      DecisionAt(config, init, i);
      assert init[..i] == inputs[..i];
    } else {
      assert inputs[..i] == init;
    }
  }

  lemma {:induction false} DecisionsLength(config: Config, inputs: seq<Input>)
    ensures |Decisions(config, Empty, inputs)| == |inputs|
  {
    if inputs != [] {
      DecisionsLength(config, inputs[..|inputs| - 1]);
    }
  }

  /** In any sequence of calls, each acceptable one is decided by how much it made the
      union of everything observed so far grow. */
  lemma DecisionsByGrowth(config: Config, inputs: seq<Input>, i: nat)
    requires i < |inputs|
    requires inputs[i].plan.valid && inputs[i].plan.length > 0 && inputs[i].depth >= 0 && inputs[i].runIndex >= 0
    ensures |Decisions(config, Empty, inputs)| == |inputs|
    ensures var before, after := Run(config, Empty, inputs[..i]), Run(config, Empty, inputs[..i + 1]);
            ByGrowth(config, Growth(before, after, Raw), Growth(before, after, SemanticState),
                     Growth(before, after, SemanticTransition), Decisions(config, Empty, inputs)[i])
  {
    hide Verdicts, After, ByGrowth;
    DecisionAt(config, inputs, i);
    assert inputs[..i + 1][..i] == inputs[..i];
    AdmissionByGrowth(config, Run(config, Empty, inputs[..i]), inputs[i]);
  }

  /** The retained entries among the decisions, in order. */
  function Kept(decisions: seq<Verdict>): seq<Entry> {
    if decisions == [] then []
    else
      var last := decisions[|decisions| - 1];
      Kept(decisions[..|decisions| - 1]) + if last.Considered? && last.retained then [last.entry] else []
  }

  /** The corpus holds exactly what was retained, in the order of the calls. */
  lemma {:induction false} CorpusIsWhatWasKept(config: Config, inputs: seq<Input>)
    ensures Run(config, Empty, inputs).entries == Kept(Decisions(config, Empty, inputs))
  {
    hide Verdicts, After;
    if inputs == [] {
      assert Empty.entries == [];
    } else {
      var init, last := inputs[..|inputs| - 1], inputs[|inputs| - 1];
      CorpusIsWhatWasKept(config, init);
      KeptIsTheInput(config, Run(config, Empty, init), last);
      var all := Decisions(config, Empty, inputs);
      assert all[..|all| - 1] == Decisions(config, Empty, init);
    }
  }

  // ---------------------------------------------------------------- restoring and rolling back

  /** A watermark is accepted exactly when it lists each key once and the corpus it
      describes is well formed: nothing else that Consider could not have made. */
  lemma RestorableMeansWellFormed(cp: Checkpoint, entries: seq<Entry>)
    ensures Restorable(cp, entries) <==>
              && cp.entryCount == |entries|
              && Distinct(cp.coverageKeys) && Distinct(cp.semanticStateKeys) && Distinct(cp.semanticTransitionKeys)
              && WellFormed(Restored(cp, entries))
  {
    hide GoodEntry, Claims, Elements, Distinct;
    var restored := Restored(cp, entries);
    forall axis
      ensures GoodAxis(Listed(cp, axis), entries, axis) <==>
                Distinct(Listed(cp, axis)) && Distinct(Claims(entries, axis))
                && Elements(Claims(entries, axis)) <= Covered(restored, axis)
      ensures axis == Raw || axis == SemanticState || axis == SemanticTransition
    {
    }
    assert Listed(cp, Raw) == cp.coverageKeys && Listed(cp, SemanticState) == cp.semanticStateKeys
           && Listed(cp, SemanticTransition) == cp.semanticTransitionKeys;
    hide Listed, Covered, GoodAxis;
  }

  /** Only the latest entry can be rolled back. */
  lemma OnlyTheLastRollsBack(c: State, entry: Entry)
    requires WellFormed(c)
    ensures RolledBack(c, entry).Some? <==> entry.id + 1 == |c.entries|
    ensures RolledBack(c, entry).Some? ==> RolledBack(c, entry).value.entries + [c.entries[entry.id]] == c.entries
  {
  }
}
