/** Whether a proposal can enter voting without a signatory its governance requires. */
module GovernanceRequired {
  import opened Outcomes
  import opened GovernanceState
  import opened GovernanceSteps
  import opened GovernanceFrames
  import opened GovernanceLifecycle
  import opened GovernanceActivity
  import opened GovernanceSignatories
  import opened GovernanceRuns
  import opened VoteResolution

  // ---- Over runs ------------------------------------------------------------------------------------------

  /** Every successful step of the run changes the required set of the proposal's governance safely, if at all. */
  predicate AlwaysChangesSafely(s: State, instructions: seq<Instruction>, p: Pubkey)
    decreases |instructions|
  {
    instructions == []
    || (var (prefix, ix) := (instructions[..|instructions| - 1], instructions[|instructions| - 1]);
        var before := Run(s, prefix);
        && AlwaysChangesSafely(s, prefix, p)
        && (p in before.proposals && Apply(before, ix).Ok? ==> ChangesSafely(before, ix, p)))
  }

  lemma NewProposalKeepsRequired(s: State, ix: Instruction, s': State, p: Pubkey)
    requires AllWellKept(s.proposals, s.now) && AllSignaturesCounted(s) && Apply(s, ix) == Ok(s')
    requires p !in s.proposals && p in s'.proposals
    ensures RequiredKept(s', p)
  {
    hide Apply, WellKept, Advances, RequiredOf;
    ProposalMoves(s, ix, s');
    Frames(s, ix, s');
    assert PresentAt(s', p) == {};
  }

  lemma {:induction false} RequiredKeptOverRuns(s: State, instructions: seq<Instruction>, p: Pubkey)
    requires Invariant(s) && AlwaysChangesSafely(s, instructions, p)
    requires p in s.proposals ==> RequiredKept(s, p)
    ensures p in Run(s, instructions).proposals ==> RequiredKept(Run(s, instructions), p)
    decreases |instructions|
  {
    hide Apply, Invariant, RequiredKept, ChangesSafely, AllWellKept, AllSignaturesCounted, AllRequiredCounted;
    if instructions != [] {
      var (prefix, ix) := (instructions[..|instructions| - 1], instructions[|instructions| - 1]);
      var before := Run(s, prefix);
      RequiredKeptOverRuns(s, prefix, p);
      RunInvariant(s, prefix);
      InvariantParts(before);
      if Apply(before, ix).Ok? {
        var after := Apply(before, ix).value;
        if p in before.proposals {
          RequiredKeptStep(before, ix, after, p);
        } else if p in after.proposals {
          NewProposalKeepsRequired(before, ix, after, p);
        }
      }
    }
  }

  /**
   If every change of the required set over a proposal's life is a safe one, then from voting on
   every required signatory has a record and every record is signed off.
   */
  lemma EveryRequiredSignatorySigned(s: State, instructions: seq<Instruction>, p: Pubkey)
    requires Invariant(s) && p !in s.proposals && AlwaysChangesSafely(s, instructions, p)
    ensures var s' := Run(s, instructions);
            p in s'.proposals && Rank(s'.proposals[p].state) >= 2 && s'.proposals[p].state != Cancelled ==>
              && (forall key :: key in s'.required && key.governance == s'.proposals[p].governance ==>
                    SignatoryKey(p, key.signatory) in s'.signatories)
              && (forall key :: key in s'.signatories && key.proposal == p ==> s'.signatories[key].signedOff)
  {
    hide Invariant, Run, Next, AlwaysChangesSafely, RequiredKept, AllWellKept, AllSignaturesCounted;
    var s' := Run(s, instructions);
    RequiredKeptOverRuns(s, instructions, p);
    RunInvariant(s, instructions);
    InvariantParts(s');
    if p in s'.proposals && Rank(s'.proposals[p].state) >= 2 && s'.proposals[p].state != Cancelled {
      AllRequiredSigned(s', p);
    }
  }

  /** Along the run the set of signatories a governance requires never changes. */
  predicate RequiredSetFixed(s: State, instructions: seq<Instruction>, g: Pubkey)
    decreases |instructions|
  {
    && RequiredOf(Run(s, instructions).required, g) == RequiredOf(s.required, g)
    && (instructions != [] ==> RequiredSetFixed(s, instructions[..|instructions| - 1], g))
  }

  lemma UnchangedSetIsSafe(s: State, ix: Instruction, s': State, p: Pubkey)
    requires Apply(s, ix) == Ok(s') && p in s.proposals
    requires RequiredOf(s'.required, s.proposals[p].governance) == RequiredFor(s, p)
    ensures ChangesSafely(s, ix, p)
  {
    hide Apply, PresentAt, RequiredOf;
    if ix.AddRequiredIx? || ix.RemoveRequiredIx? {
      RequiredChanges(s, ix, s', p);
    }
  }

  /** In particular a set that is fixed over the proposal's life is changed safely. */
  lemma {:induction false} FixedSetIsSafe(s: State, instructions: seq<Instruction>, p: Pubkey, g: Pubkey)
    requires Invariant(s) && p !in s.proposals && RequiredSetFixed(s, instructions, g)
    requires p in Run(s, instructions).proposals ==> Run(s, instructions).proposals[p].governance == g
    ensures AlwaysChangesSafely(s, instructions, p)
    decreases |instructions|
  {
    hide Apply, Invariant, ChangesSafely, RequiredOf, AllWellKept, Evolves;
    if instructions != [] {
      var (prefix, ix) := (instructions[..|instructions| - 1], instructions[|instructions| - 1]);
      var before := Run(s, prefix);
      RunInvariant(s, prefix);
      InvariantParts(before);
      if p in before.proposals && Apply(before, ix).Ok? {
        ProposalsMoveForward(before, ix, Apply(before, ix).value);
        SameGovernance(before.proposals[p], Apply(before, ix).value.proposals[p]);
        UnchangedSetIsSafe(before, ix, Apply(before, ix).value, p);
      }
      FixedSetIsSafe(s, prefix, p, g);
    }
  }

  lemma SameGovernance(p: Proposal, p': Proposal)
    requires Evolves(p, p')
    ensures p'.governance == p.governance
  {
  }

  // ---- When a required signatory can be missed ------------------------------------------------------------

  /** What a run of signing and naming required signatories needs to know of a proposal that is not in voting yet. */
  ghost predicate Signing(s: State, p: Pubkey) {
    && Invariant(s)
    && p in s.proposals && (s.proposals[p].state == Draft || s.proposals[p].state == SigningOff)
  }

  lemma SigningFacts(s: State, p: Pubkey)
    requires Signing(s, p)
    ensures var proposal := s.proposals[p];
            && proposal.governance in s.governances && proposal.owner in s.records
            && proposal.signatoriesCount == |PresentAt(s, p)| <= U8_MAX
            && proposal.signatoriesSignedOffCount == |SignersOf(s.signatories, p)|
            && s.governances[proposal.governance].requiredSignatoriesCount == |RequiredFor(s, p)| <= U8_MAX
            && (if proposal.state == Draft then proposal.signatoriesSignedOffCount == 0
                else 0 < proposal.signatoriesSignedOffCount < proposal.signatoriesCount)
    ensures forall key :: key in s.required ==> s.required[key].signatory == key.signatory
  {
    hide Invariant, Dated, SignatoriesOf, SignersOf, RequiredOf;
    SignatureParts(s);
    assert WellKept(s.proposals[p], s.now);
    assert SignaturesCounted(s.signatories, p, s.proposals[p]);
    assert RequiredAt(s.governances, s.proposals[p].governance) == |RequiredFor(s, p)|;
  }

  function SignOne(s: State, p: Pubkey, signatory: Pubkey): Instruction
    requires p in s.proposals
  {
    SignOffIx(p, s.proposals[p].governance, signatory, true, s.proposals[p].owner)
  }

  function NameRequired(s: State, p: Pubkey, signatory: Pubkey): Instruction
    requires p in s.proposals
  {
    AddSignatoryIx(p, s.proposals[p].governance, signatory, s.proposals[p].owner, None)
  }

  /** With enough signatories each of them can sign. */
  lemma SignatoryCanSign(s: State, p: Pubkey, x: Pubkey)
    requires Signing(s, p) && |RequiredFor(s, p)| <= |PresentAt(s, p)|
    requires SignatoryKey(p, x) in s.signatories && !s.signatories[SignatoryKey(p, x)].signedOff
    ensures SignOff(s, p, s.proposals[p].governance, x, true, s.proposals[p].owner).Ok?
  {
    hide Invariant, SignatorySigned, SignOffByOwner, RequiredOf;
    SigningFacts(s, p);
    assert x in PresentAt(s, p);
    SubsetCardinality({x}, PresentAt(s, p));
  }

  lemma SignNext(s: State, p: Pubkey, x: Pubkey)
    requires p in s.proposals && SignOff(s, p, s.proposals[p].governance, x, true, s.proposals[p].owner).Ok?
    ensures Next(s, SignOne(s, p, x)) == SignOff(s, p, s.proposals[p].governance, x, true, s.proposals[p].owner).value
  {
    hide SignOff;
  }

  lemma SignEffect(s: State, p: Pubkey, x: Pubkey, s': State)
    requires p in s.proposals && WellKept(s.proposals[p], s.now) && s.proposals[p].signatoriesCount > 0
    requires SignOff(s, p, s.proposals[p].governance, x, true, s.proposals[p].owner) == Ok(s')
    ensures p in s'.proposals && (s'.proposals[p].state == SigningOff || s'.proposals[p].state == Voting)
    ensures PresentAt(s', p) == PresentAt(s, p) && RequiredFor(s', p) == RequiredFor(s, p)
    ensures |SignersOf(s'.signatories, p)| == |SignersOf(s.signatories, p)| + 1
  {
    hide SignOff, WellKept, SignatorySigned, OwnerSigned, SignatoriesOf, SignersOf, RequiredOf;
    SignOffEffect(s, p, s.proposals[p].governance, x, true, s.proposals[p].owner, s');
    SignatoryWrite(s.signatories, SignatoryKey(p, x), SignatoryRecord(true), p);
    SigningStates(s.proposals[p], s.now);
  }

  lemma SignStep(s: State, p: Pubkey, x: Pubkey)
    requires Signing(s, p) && |RequiredFor(s, p)| <= |PresentAt(s, p)|
    requires SignatoryKey(p, x) in s.signatories && !s.signatories[SignatoryKey(p, x)].signedOff
    ensures var s' := Next(s, SignOne(s, p, x));
            && Invariant(s') && p in s'.proposals
            && (s'.proposals[p].state == SigningOff || s'.proposals[p].state == Voting)
            && PresentAt(s', p) == PresentAt(s, p) && RequiredFor(s', p) == RequiredFor(s, p)
            && |SignersOf(s'.signatories, p)| == |SignersOf(s.signatories, p)| + 1
  {
    hide Next, SignOff, Invariant, WellKept, SignersOf, RequiredOf;
    SignatoryCanSign(s, p, x);
    SigningFacts(s, p);
    SignatureParts(s);
    InvariantStep(s, SignOne(s, p, x));
    SignNext(s, p, x);
    assert x in PresentAt(s, p);
    assert WellKept(s.proposals[p], s.now);
    SignEffect(s, p, x, SignOff(s, p, s.proposals[p].governance, x, true, s.proposals[p].owner).value);
  }

  /** A smaller set lacks an element of a larger one. */
  lemma Missing<T>(smaller: set<T>, larger: set<T>) returns (x: T)
    requires |smaller| < |larger|
    ensures x in larger && x !in smaller
  {
    assert !(larger <= smaller) by {
      if larger <= smaller {
        SubsetCardinality(larger, smaller);
      }
    }
    x :| x in larger && x !in smaller;
  }

  lemma SomebodyUnsigned(s: State, p: Pubkey) returns (x: Pubkey)
    requires Signing(s, p) && PresentAt(s, p) != {}
    ensures SignatoryKey(p, x) in s.signatories && !s.signatories[SignatoryKey(p, x)].signedOff
    ensures |SignersOf(s.signatories, p)| < |PresentAt(s, p)|
  {
    hide Invariant, RequiredOf;
    SigningFacts(s, p);
    var (signers, present) := (SignersOf(s.signatories, p), PresentAt(s, p));
    SubsetCardinality(signers, present);
    x := Missing(signers, present);
    assert SignatoryKey(p, x) in s.signatories;
  }

  /** Once there are enough signatories they can all sign, and voting starts. */
  lemma {:induction false} EverybodySigns(s: State, p: Pubkey) returns (run: seq<Instruction>)
    requires Signing(s, p) && |RequiredFor(s, p)| <= |PresentAt(s, p)| && PresentAt(s, p) != {}
    ensures RequirementsKept(run)
    ensures var s' := Run(s, run);
            && p in s'.proposals && s'.proposals[p].state == Voting
            && PresentAt(s', p) == PresentAt(s, p) && RequiredFor(s', p) == RequiredFor(s, p)
    decreases |PresentAt(s, p)| - |SignersOf(s.signatories, p)|
  {
    hide Next, Invariant, PresentAt, RequiredFor, SignersOf;
    var x := SomebodyUnsigned(s, p);
    var ix := SignOne(s, p, x);
    SignStep(s, p, x);
    RunOne(s, ix);
    run := [ix];
    if Next(s, ix).proposals[p].state != Voting {
      var rest := EverybodySigns(Next(s, ix), p);
      RunConcat(s, [ix], rest);
      run := [ix] + rest;
    }
  }

  /** The run does not touch any required set. */
  predicate RequirementsKept(run: seq<Instruction>) {
    forall ix :: ix in run ==> !ix.AddRequiredIx? && !ix.RemoveRequiredIx?
  }

  // Naming the required signatories that are still missing.

  lemma NameNext(s: State, p: Pubkey, x: Pubkey)
    requires p in s.proposals && AddSignatory(s, p, s.proposals[p].governance, x, s.proposals[p].owner, None).Ok?
    ensures Next(s, NameRequired(s, p, x))
        == AddSignatory(s, p, s.proposals[p].governance, x, s.proposals[p].owner, None).value
  {
    hide AddSignatory;
  }

  /** While too few are present, anybody can name a missing required signatory. */
  lemma RequiredCanBeNamed(s: State, p: Pubkey, x: Pubkey)
    requires Signing(s, p) && s.proposals[p].state == Draft && |PresentAt(s, p)| < |RequiredFor(s, p)|
    requires x in RequiredFor(s, p) && x !in PresentAt(s, p)
    ensures AddSignatory(s, p, s.proposals[p].governance, x, s.proposals[p].owner, None).Ok?
  {
    hide Invariant, AuthorizeOwner;
    SigningFacts(s, p);
    assert RequiredKey(s.proposals[p].governance, x) in s.required;
    assert SignatoryKey(p, x) !in s.signatories;
  }

  lemma NameStep(s: State, p: Pubkey, x: Pubkey)
    requires Signing(s, p) && s.proposals[p].state == Draft && |PresentAt(s, p)| < |RequiredFor(s, p)|
    requires x in RequiredFor(s, p) && x !in PresentAt(s, p)
    ensures var s' := Next(s, NameRequired(s, p, x));
            && Signing(s', p) && s'.proposals[p].state == Draft
            && PresentAt(s', p) == PresentAt(s, p) + {x} && RequiredFor(s', p) == RequiredFor(s, p)
  {
    hide Next, AddSignatory, Invariant, SignatoriesOf, SignersOf, RequiredOf;
    RequiredCanBeNamed(s, p, x);
    InvariantStep(s, NameRequired(s, p, x));
    NameNext(s, p, x);
    var g := s.proposals[p].governance;
    AddSignatoryEffect(s, p, g, x, s.proposals[p].owner, None,
        AddSignatory(s, p, g, x, s.proposals[p].owner, None).value);
    SignatoryWrite(s.signatories, SignatoryKey(p, x), SignatoryRecord(false), p);
  }

  /** Required signatories can be named until there are enough to sign; whoever is present stays. */
  lemma {:induction false} RequiredAreNamed(s: State, p: Pubkey) returns (run: seq<Instruction>)
    requires Signing(s, p) && s.proposals[p].state == Draft && |PresentAt(s, p)| <= |RequiredFor(s, p)|
    ensures RequirementsKept(run)
    ensures var s' := Run(s, run);
            && Signing(s', p) && RequiredFor(s', p) == RequiredFor(s, p)
            && PresentAt(s, p) <= PresentAt(s', p) && |PresentAt(s', p)| == |RequiredFor(s, p)|
    decreases |RequiredFor(s, p)| - |PresentAt(s, p)|
  {
    hide Next, Invariant, PresentAt, RequiredFor;
    run := [];
    if |PresentAt(s, p)| < |RequiredFor(s, p)| {
      var x := Missing(PresentAt(s, p), RequiredFor(s, p));
      var ix := NameRequired(s, p, x);
      NameStep(s, p, x);
      RunOne(s, ix);
      var rest := RequiredAreNamed(Next(s, ix), p);
      RunConcat(s, [ix], rest);
      run := [ix] + rest;
    }
  }

  /** The run brings the proposal into voting while somebody required has no signatory record. */
  ghost predicate Misses(s: State, run: seq<Instruction>, p: Pubkey) {
    && RequirementsKept(run)
    && var s' := Run(s, run);
       p in s'.proposals && s'.proposals[p].state == Voting && !(RequiredFor(s', p) <= PresentAt(s', p))
  }

  lemma MissingIsReachable(s: State, p: Pubkey) returns (run: seq<Instruction>)
    requires Signing(s, p) && !RequiredKept(s, p)
    ensures Misses(s, run, p)
  {
    hide Invariant, PresentAt, RequiredFor, Run, Next;
    var (present, required) := (PresentAt(s, p), RequiredFor(s, p));
    if |required| <= |present| {
      run := EverybodySigns(s, p);
    } else {
      var named := RequiredAreNamed(s, p);
      var s' := Run(s, named);
      if required <= PresentAt(s', p) {
        SubsetCardinality(required, PresentAt(s', p));
      }
      var signed := EverybodySigns(s', p);
      RunConcat(s, named, signed);
      run := named + signed;
    }
  }

  lemma KeptRequirementsAreSafe(s: State, run: seq<Instruction>, p: Pubkey)
    requires RequirementsKept(run)
    ensures AlwaysChangesSafely(s, run, p)
    decreases |run|
  {
    hide Apply, RequiredFor, PresentAt;
    if run != [] {
      KeptRequirementsAreSafe(s, run[..|run| - 1], p);
    }
  }

  /**
   With the required set as it is, a proposal that is not in voting yet can enter voting without
   one of its required signatories if and only if the present and the required signatories do not
   keep to the order the program asks for.
   */
  lemma RequiredCanBeMissed(s: State, p: Pubkey)
    requires Signing(s, p)
    ensures (exists run :: Misses(s, run, p)) <==> !RequiredKept(s, p)
  {
    hide Invariant, RequiredKept, Run, Next, AlwaysChangesSafely;
    if !RequiredKept(s, p) {
      var run := MissingIsReachable(s, p);
    } else if run :| Misses(s, run, p) {
      KeptRequirementsAreSafe(s, run, p);
      RequiredKeptOverRuns(s, run, p);
      KeptInVoting(Run(s, run), p);
      assert false;
    }
  }

  lemma KeptInVoting(s: State, p: Pubkey)
    requires p in s.proposals && s.proposals[p].state == Voting && RequiredKept(s, p)
    ensures RequiredFor(s, p) <= PresentAt(s, p)
  {
  }
}
