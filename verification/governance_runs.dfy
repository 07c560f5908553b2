/** What holds in every reachable state, and over every run of instructions. */
module GovernanceRuns {
  import opened Outcomes
  import opened Aggregates
  import opened GovernanceState
  import opened GovernanceSteps
  import opened GovernanceFrames
  import opened GovernanceLifecycle
  import opened GovernanceTokens
  import opened GovernanceBallots
  import opened GovernanceActivity
  import opened GovernanceTallies
  import opened GovernanceTransactions
  import opened GovernanceSignatories
  import opened GovernanceCoverage
  import opened VoteResolution

  ghost predicate NeverShort(s: State) {
    forall mint :: Surplus(s, mint) >= 0
  }

  ghost predicate Invariant(s: State) {
    && AllWellKept(s.proposals, s.now)
    && VotesCounted(s)
    && MarksMatch(s)
    && Anchored(s)
    && ActivityCounted(s)
    && AllTallied(s)
    && AllAccounted(s)
    && AllSignaturesCounted(s)
    && AllRequiredCounted(s)
    && VoteMints(s)
    && NeverShort(s)
  }

  lemma EmptyStateInvariant(realm: Realm, now: int)
    ensures Invariant(EmptyState(realm, now))
  {
  }

  /** Every instruction, successful or not, keeps the whole invariant. */
  lemma InvariantStep(s: State, ix: Instruction)
    requires Invariant(s)
    ensures Invariant(Next(s, ix))
  {
    hide Apply, AllWellKept, VotesCounted, MarksMatch, Anchored, ActivityCounted, AllTallied, AllAccounted,
         AllSignaturesCounted, AllRequiredCounted, VoteMints, Surplus;
    var step := Apply(s, ix);
    if step.Ok? {
      var s' := step.value;
      ProposalsMoveForward(s, ix, s');
      VotesCountedStep(s, ix, s');
      MarksMatchStep(s, ix, s');
      AnchoredStep(s, ix, s');
      ActivityCountedStep(s, ix, s');
      AllTalliedStep(s, ix, s');
      AllAccountedStep(s, ix, s');
      AllSignaturesCountedStep(s, ix, s');
      AllRequiredCountedStep(s, ix, s');
      VoteMintsStep(s, ix, s');
      forall mint: Pubkey
        ensures Surplus(s', mint) >= 0
      {
        SurplusChange(s, ix, s', mint);
        assert Surplus(s, mint) >= 0;
      }
    }
  }

  lemma {:induction false} RunInvariant(s: State, instructions: seq<Instruction>)
    requires Invariant(s)
    ensures Invariant(Run(s, instructions))
    decreases |instructions|
  {
    hide Apply, Invariant;
    if instructions != [] {
      RunInvariant(s, instructions[..|instructions| - 1]);
      InvariantStep(Run(s, instructions[..|instructions| - 1]), instructions[|instructions| - 1]);
    }
  }

  /** The invariant holds in every state that instructions can reach from an empty realm. */
  lemma ReachableInvariant(realm: Realm, now: int, instructions: seq<Instruction>)
    ensures Invariant(Run(EmptyState(realm, now), instructions))
  {
    hide Invariant, Run;
    EmptyStateInvariant(realm, now);
    RunInvariant(EmptyState(realm, now), instructions);
  }

  /** Running two lists of instructions one after the other. */
  lemma {:induction false} RunConcat(s: State, first: seq<Instruction>, second: seq<Instruction>)
    ensures Run(s, first + second) == Run(Run(s, first), second)
    decreases |second|
  {
    hide Next;
    if second == [] {
      assert first + second == first;
    } else {
      var (n, both) := (|second| - 1, first + second);
      assert both[..|both| - 1] == first + second[..n];
      RunConcat(s, first, second[..n]);
    }
  }

  lemma RunOne(s: State, ix: Instruction)
    ensures Run(s, [ix]) == Next(s, ix)
  {
    hide Next;
    assert [ix][..0] == [];
  }

  // ---- Lifecycle over runs -----------------------------------------------------------------------------

  /** Over any run a proposal only moves to later stages of itself. */
  lemma {:induction false} LifecycleOverRuns(s: State, instructions: seq<Instruction>, p: Pubkey)
    requires Invariant(s) && p in s.proposals
    ensures p in Run(s, instructions).proposals && Evolves(s.proposals[p], Run(s, instructions).proposals[p])
    decreases |instructions|
  {
    hide Apply, Invariant, Evolves;
    if instructions == [] {
      StaysPut(s.proposals[p], s.now);
    } else {
      var (before, ix) := (Run(s, instructions[..|instructions| - 1]), instructions[|instructions| - 1]);
      LifecycleOverRuns(s, instructions[..|instructions| - 1], p);
      RunInvariant(s, instructions[..|instructions| - 1]);
      if Apply(before, ix).Ok? {
        assert AllWellKept(before.proposals, before.now) by {
          InvariantParts(before);
        }
        ProposalsMoveForward(before, ix, Apply(before, ix).value);
        EvolvesTransitive(s.proposals[p], before.proposals[p], Next(before, ix).proposals[p]);
      }
    }
  }

  lemma InvariantParts(s: State)
    requires Invariant(s)
    ensures AllWellKept(s.proposals, s.now) && VotesCounted(s) && MarksMatch(s) && Anchored(s) && ActivityCounted(s)
    ensures AllTallied(s) && AllAccounted(s)
    ensures AllSignaturesCounted(s) && AllRequiredCounted(s) && VoteMints(s) && NeverShort(s)
  {
  }

  lemma SignatureParts(s: State)
    requires Invariant(s)
    ensures AllWellKept(s.proposals, s.now) && Anchored(s) && AllSignaturesCounted(s) && AllRequiredCounted(s)
  {
  }

  // ---- Tokens over runs ----------------------------------------------------------------------------------

  /** All tokens the run left in a holding account without a deposit. */
  function Gifts(s: State, instructions: seq<Instruction>, mint: Pubkey): nat {
    if instructions == [] then 0
    else
      var before := Run(s, instructions[..|instructions| - 1]);
      var ix := instructions[|instructions| - 1];
      Gifts(s, instructions[..|instructions| - 1], mint) + if Apply(before, ix).Ok? then Gift(before, ix, mint) else 0
  }

  /** Token conservation: holding accounts and recorded deposits differ exactly by the gifts. */
  lemma {:induction false} SurplusOverRuns(s: State, instructions: seq<Instruction>, mint: Pubkey)
    ensures Surplus(Run(s, instructions), mint) == Surplus(s, mint) + Gifts(s, instructions, mint)
    decreases |instructions|
  {
    hide Apply, Surplus, Gift;
    if instructions != [] {
      SurplusOverRuns(s, instructions[..|instructions| - 1], mint);
      var before := Run(s, instructions[..|instructions| - 1]);
      var step := Apply(before, instructions[|instructions| - 1]);
      if step.Ok? {
        SurplusChange(before, instructions[|instructions| - 1], step.value, mint);
      }
    }
  }
}
