/** Signatory records, the signatures collected, and the signatories a governance requires. */
module GovernanceSignatories {
  import opened Outcomes
  import opened GovernanceState
  import opened GovernanceSteps
  import opened GovernanceFrames
  import opened GovernanceLifecycle
  import opened VoteResolution

  function SignatoriesOf(signatories: map<SignatoryKey, SignatoryRecord>, p: Pubkey): set<Pubkey> {
    set key | key in signatories && key.proposal == p :: key.signatory
  }

  function SignersOf(signatories: map<SignatoryKey, SignatoryRecord>, p: Pubkey): set<Pubkey> {
    set key | key in signatories && key.proposal == p && signatories[key].signedOff :: key.signatory
  }

  function RequiredOf(required: map<RequiredKey, RequiredSignatory>, g: Pubkey): set<Pubkey> {
    set key | key in required && key.governance == g :: key.signatory
  }

  /** A proposal's counts are the numbers of its signatory records and of the signed-off ones. */
  predicate SignaturesCounted(signatories: map<SignatoryKey, SignatoryRecord>, p: Pubkey, proposal: Proposal) {
    && proposal.signatoriesCount == |SignatoriesOf(signatories, p)| <= U8_MAX
    && proposal.signatoriesSignedOffCount == |SignersOf(signatories, p)|
  }

  predicate AllSignaturesCounted(s: State) {
    && (forall p :: p in s.proposals ==> SignaturesCounted(s.signatories, p, s.proposals[p]))
    && (forall key :: key in s.signatories ==> key.proposal in s.proposals)
  }

  /** A governance's count is the number of signatories it requires, each recorded at its own address. */
  ghost predicate AllRequiredCounted(s: State) {
    && (forall g :: RequiredAt(s.governances, g) == |RequiredOf(s.required, g)| <= U8_MAX)
    && (forall key :: key in s.required ==> s.required[key].signatory == key.signatory)
  }

  // ---- Writing signatory and required accounts ------------------------------------------------------

  lemma SignatoryWrite(signatories: map<SignatoryKey, SignatoryRecord>, key: SignatoryKey, r: SignatoryRecord,
      p: Pubkey)
    requires key in signatories ==> r.signedOff || !signatories[key].signedOff
    ensures SignatoriesOf(signatories[key := r], p)
        == SignatoriesOf(signatories, p) + if key.proposal == p then {key.signatory} else {}
    ensures SignersOf(signatories[key := r], p)
        == SignersOf(signatories, p) + if key.proposal == p && r.signedOff then {key.signatory} else {}
    ensures key in signatories ==> SignatoriesOf(signatories[key := r], p) == SignatoriesOf(signatories, p)
    ensures key.proposal == p ==> (key.signatory in SignatoriesOf(signatories, p) <==> key in signatories)
    ensures key.proposal == p ==>
        (key.signatory in SignersOf(signatories, p) <==> key in signatories && signatories[key].signedOff)
  {
  }

  lemma RequiredWrite(required: map<RequiredKey, RequiredSignatory>, key: RequiredKey, r: RequiredSignatory, g: Pubkey)
    ensures RequiredOf(required[key := r], g)
        == RequiredOf(required, g) + if key.governance == g then {key.signatory} else {}
    ensures RequiredOf(required - {key}, g)
        == RequiredOf(required, g) - if key.governance == g then {key.signatory} else {}
    ensures key.governance == g ==> (key.signatory in RequiredOf(required, g) <==> key in required)
  {
  }

  // ---- Counting ---------------------------------------------------------------------------------------

  lemma AddSignatoryEffect(s: State, p: Pubkey, g: Pubkey, signatory: Pubkey, owner: TokenOwnerKey,
      signer: Option<Pubkey>, s': State)
    requires AddSignatory(s, p, g, signatory, owner, signer) == Ok(s')
    ensures p in s.proposals && s.proposals[p].state == Draft && SignatoryKey(p, signatory) !in s.signatories
    ensures s.proposals[p].signatoriesCount < U8_MAX
    ensures g in s.governances && s.proposals[p].governance == g
    ensures s.proposals[p].signatoriesCount < s.governances[g].requiredSignatoriesCount ==>
        RequiredKey(g, signatory) in s.required
    ensures s' == s.(signatories := s.signatories[SignatoryKey(p, signatory) := SignatoryRecord(false)],
                     proposals := s.proposals[p := WithSignatory(s.proposals[p])])
  {
    hide AuthorizeOwner, WithSignatory;
  }

  lemma AddSignatoryCounted(s: State, p: Pubkey, g: Pubkey, signatory: Pubkey, owner: TokenOwnerKey,
      signer: Option<Pubkey>, s': State)
    requires AllSignaturesCounted(s) && AddSignatory(s, p, g, signatory, owner, signer) == Ok(s')
    ensures AllSignaturesCounted(s')
  {
    hide AddSignatory, SignatoriesOf, SignersOf;
    AddSignatoryEffect(s, p, g, signatory, owner, signer, s');
    forall q | q in s'.proposals
      ensures SignaturesCounted(s'.signatories, q, s'.proposals[q])
    {
      assert SignaturesCounted(s.signatories, q, s.proposals[q]);
      SignatoryWrite(s.signatories, SignatoryKey(p, signatory), SignatoryRecord(false), q);
    }
  }

  lemma SignOffCounted(s: State, p: Pubkey, g: Pubkey, signatory: Pubkey, isSigner: bool, owner: TokenOwnerKey,
      s': State)
    requires AllSignaturesCounted(s) && SignOff(s, p, g, signatory, isSigner, owner) == Ok(s')
    ensures AllSignaturesCounted(s')
  {
    hide SignOff, SignatoriesOf, SignersOf;
    SignOffEffect(s, p, g, signatory, isSigner, owner, s');
    if s.proposals[p].signatoriesCount > 0 {
      forall q | q in s'.proposals
        ensures SignaturesCounted(s'.signatories, q, s'.proposals[q])
      {
        SignatoryWrite(s.signatories, SignatoryKey(p, signatory), SignatoryRecord(true), q);
      }
    }
  }

  lemma KeptSignatures(signatories: map<SignatoryKey, SignatoryRecord>, p: Pubkey, proposal: Proposal,
      proposal': Proposal, parts: set<Part>)
    requires SignaturesCounted(signatories, p, proposal) && Keeps(parts, proposal, proposal') && SignaturePart !in parts
    ensures SignaturesCounted(signatories, p, proposal')
  {
    hide SignatoriesOf, SignersOf;
  }

  lemma OthersSignaturesCounted(s: State, ix: Instruction, s': State)
    requires AllSignaturesCounted(s) && AllWellKept(s.proposals, s.now) && Apply(s, ix) == Ok(s')
    requires !(ix.AddSignatoryIx? || ix.SignOffIx?)
    ensures AllSignaturesCounted(s')
  {
    hide Apply, WellKept, Evolves, Keeps, SignaturesCounted, IsFresh;
    Frames(s, ix, s');
    ProposalMoves(s, ix, s');
    if ix.CreateProposalIx? {
      FreshSignatures(s, ix.p, s'.proposals[ix.p], s'.now);
    } else if MovedBy(ix).Some? {
      var p := MovedBy(ix).value;
      KeptSignatures(s.signatories, p, s.proposals[p], s'.proposals[p], PartsOf(ix));
    }
  }

  lemma FreshSignatures(s: State, p: Pubkey, proposal: Proposal, now: int)
    requires AllSignaturesCounted(s) && p !in s.proposals && IsFresh(proposal) && WellKept(proposal, now)
    ensures SignaturesCounted(s.signatories, p, proposal)
  {
  }

  lemma AllSignaturesCountedStep(s: State, ix: Instruction, s': State)
    requires AllSignaturesCounted(s) && AllWellKept(s.proposals, s.now) && Apply(s, ix) == Ok(s')
    ensures AllSignaturesCounted(s')
  {
    hide CastVote, RelinquishVote, SignOff, FinalizeVote, ExecuteTransaction, CompleteProposal, RefundDeposit,
         CreateProposal, AddSignatory, InsertTransaction, RemoveTransaction, CancelProposal,
         CreateTokenOwnerRecord, DepositTokens, WithdrawTokens, RevokeTokens, SetDelegate,
         CreateGovernance, SetGovernanceConfig, AddRequiredSignatory, RemoveRequiredSignatory, AllSignaturesCounted,
         AllWellKept;
    match ix
    case AddSignatoryIx(p, g, signatory, owner, signer) => AddSignatoryCounted(s, p, g, signatory, owner, signer, s');
    case SignOffIx(p, g, signatory, isSigner, owner) => SignOffCounted(s, p, g, signatory, isSigner, owner, s');
    case _ => OthersSignaturesCounted(s, ix, s');
  }

  // ---- The required set -----------------------------------------------------------------------------------

  lemma AllRequiredCountedStep(s: State, ix: Instruction, s': State)
    requires AllRequiredCounted(s) && Apply(s, ix) == Ok(s')
    ensures AllRequiredCounted(s')
  {
    hide Apply, RequiredOf;
    if ix.AddRequiredIx? || ix.RemoveRequiredIx? {
      RequiredChange(s, ix, s');
      forall g: Pubkey
        ensures RequiredAt(s'.governances, g) == |RequiredOf(s'.required, g)| <= U8_MAX
      {
        RequiredWrite(s.required, RequiredKey(ix.g, ix.signatory), RequiredSignatory(ix.signatory), g);
        assert RequiredAt(s.governances, g) == |RequiredOf(s.required, g)|;
      }
    } else {
      Frames(s, ix, s');
      GovernanceFieldFrames(s, ix, s');
      forall g: Pubkey
        ensures RequiredAt(s'.governances, g) == |RequiredOf(s'.required, g)| <= U8_MAX
      {
        assert RequiredAt(s.governances, g) == |RequiredOf(s.required, g)|;
      }
    }
  }

  lemma RequiredChange(s: State, ix: Instruction, s': State)
    requires Apply(s, ix) == Ok(s') && (ix.AddRequiredIx? || ix.RemoveRequiredIx?)
    ensures var key := RequiredKey(ix.g, ix.signatory);
            && (key in s.required <==> ix.RemoveRequiredIx?)
            && s'.required == if ix.AddRequiredIx? then s.required[key := RequiredSignatory(ix.signatory)]
                              else s.required - {key}
    ensures ix.AddRequiredIx? ==> RequiredAt(s.governances, ix.g) < U8_MAX
    ensures forall g ::
              RequiredAt(s'.governances, g)
              == RequiredAt(s.governances, g) + if g != ix.g then 0 else if ix.AddRequiredIx? then 1 else -1
  {
    hide CastVote, RelinquishVote, SignOff, FinalizeVote, ExecuteTransaction, CompleteProposal, RefundDeposit,
         CreateProposal, AddSignatory, InsertTransaction, RemoveTransaction, CancelProposal,
         CreateTokenOwnerRecord, DepositTokens, WithdrawTokens, RevokeTokens, SetDelegate,
         CreateGovernance, SetGovernanceConfig;
  }

  // ---- The pigeonhole argument ------------------------------------------------------------------------------

  /**
   No required signatory can be missed. While drafting, the signatories present are among the
   required ones or include them all; while signing off they include them all or are still too
   few to sign; afterwards they include them all.
   */
  predicate RequiredFirst(present: set<Pubkey>, required: set<Pubkey>, state: ProposalState) {
    match state
    case Draft => present <= required || required <= present
    case SigningOff => required <= present || |present| < |required|
    case Cancelled => true
    case _ => required <= present
  }

  function PresentAt(s: State, p: Pubkey): set<Pubkey> {
    SignatoriesOf(s.signatories, p)
  }

  function RequiredFor(s: State, p: Pubkey): set<Pubkey>
    requires p in s.proposals
  {
    RequiredOf(s.required, s.proposals[p].governance)
  }

  predicate RequiredKept(s: State, p: Pubkey)
    requires p in s.proposals
  {
    RequiredFirst(PresentAt(s, p), RequiredFor(s, p), s.proposals[p].state)
  }

  /** What requiring one more signatory may do to a proposal without risk of missing anybody. */
  predicate AddsSafely(present: set<Pubkey>, required: set<Pubkey>, late: Pubkey, state: ProposalState) {
    match state
    case Draft => present <= required + {late} || (required <= present && late in present)
    case SigningOff => (required <= present && late in present) || |present| <= |required|
    case Cancelled => true
    case _ => late in present
  }

  /** The same for requiring one signatory less. */
  predicate RemovesSafely(present: set<Pubkey>, required: set<Pubkey>, dropped: Pubkey, state: ProposalState) {
    match state
    case Draft => present <= required - {dropped} || required - {dropped} <= present
    case SigningOff => required - {dropped} <= present || |present| < |required| - 1
    case _ => true
  }

  /** The condition on a step: only changes to the required set of the proposal's own governance carry one. */
  predicate ChangesSafely(s: State, ix: Instruction, p: Pubkey)
    requires p in s.proposals
  {
    match ix
    case AddRequiredIx(g, late, _) =>
      g == s.proposals[p].governance ==> AddsSafely(PresentAt(s, p), RequiredFor(s, p), late, s.proposals[p].state)
    case RemoveRequiredIx(g, dropped, _) =>
      g == s.proposals[p].governance ==>
          RemovesSafely(PresentAt(s, p), RequiredFor(s, p), dropped, s.proposals[p].state)
    case _ => true
  }

  lemma {:induction false} SubsetCardinality<T>(a: set<T>, b: set<T>)
    requires a <= b
    ensures |a| <= |b| && (|a| == |b| ==> a == b)
  {
    if a != {} {
      var x :| x in a;
      SubsetCardinality(a - {x}, b - {x});
    }
  }

  lemma AddSignatoryKeepsRequired(s: State, ix: Instruction, s': State)
    requires AllSignaturesCounted(s) && AllRequiredCounted(s)
    requires ix.AddSignatoryIx? && AddSignatory(s, ix.p, ix.g, ix.signatory, ix.owner, ix.signer) == Ok(s')
    requires ix.p in s.proposals && RequiredKept(s, ix.p)
    ensures ix.p in s'.proposals && RequiredKept(s', ix.p)
  {
    hide AddSignatory, SignatoriesOf, SignersOf, RequiredOf;
    AddSignatoryEffect(s, ix.p, ix.g, ix.signatory, ix.owner, ix.signer, s');
    SignatoryWrite(s.signatories, SignatoryKey(ix.p, ix.signatory), SignatoryRecord(false), ix.p);
    RequiredWrite(s.required, RequiredKey(ix.g, ix.signatory), RequiredSignatory(ix.signatory), ix.g);
    var (present, required) := (PresentAt(s, ix.p), RequiredFor(s, ix.p));
    assert RequiredAt(s.governances, ix.g) == |required|;
    if present <= required {
      SubsetCardinality(present, required);
    }
  }

  lemma SigningStates(p: Proposal, now: int)
    requires WellKept(p, now) && (p.state == Draft || p.state == SigningOff)
    ensures p.signatoriesCount == 0 ==>
        OwnerSigned(p, now).state == Voting && OwnerSigned(p, now).governance == p.governance
    ensures p.signatoriesCount > 0 ==>
        SignatorySigned(p, now).state == SigningOff || SignatorySigned(p, now).state == Voting
    ensures SignatorySigned(p, now).governance == p.governance
  {
  }

  /** Signing off needs as many signatories as are required, so if none can be missed all are present. */
  lemma SignOffNeedsRequired(s: State, p: Pubkey, g: Pubkey, signatory: Pubkey, isSigner: bool, owner: TokenOwnerKey,
      s': State)
    requires AllWellKept(s.proposals, s.now) && AllSignaturesCounted(s) && AllRequiredCounted(s)
    requires SignOff(s, p, g, signatory, isSigner, owner) == Ok(s')
    requires p in s.proposals && RequiredKept(s, p)
    ensures RequiredFor(s, p) <= PresentAt(s, p)
    ensures p in s'.proposals && PresentAt(s', p) == PresentAt(s, p) && RequiredFor(s', p) == RequiredFor(s, p)
    ensures s'.proposals[p].state == SigningOff || s'.proposals[p].state == Voting
  {
    hide SignOff, SignatoriesOf, SignersOf, RequiredOf, WellKept, OwnerSigned, SignatorySigned;
    SignOffEffect(s, p, g, signatory, isSigner, owner, s');
    SigningStates(s.proposals[p], s.now);
    SignatoryWrite(s.signatories, SignatoryKey(p, signatory), SignatoryRecord(true), p);
    var (present, required) := (PresentAt(s, p), RequiredFor(s, p));
    assert RequiredAt(s.governances, g) == |required|;
    if present <= required {
      SubsetCardinality(present, required);
    }
  }

  lemma SignOffKeepsRequired(s: State, ix: Instruction, s': State)
    requires AllWellKept(s.proposals, s.now) && AllSignaturesCounted(s) && AllRequiredCounted(s)
    requires ix.SignOffIx? && SignOff(s, ix.p, ix.g, ix.signatory, ix.isSigner, ix.owner) == Ok(s')
    requires ix.p in s.proposals && RequiredKept(s, ix.p)
    ensures ix.p in s'.proposals && RequiredKept(s', ix.p)
  {
    hide SignOff, PresentAt, RequiredFor, AllWellKept, AllSignaturesCounted, AllRequiredCounted;
    SignOffNeedsRequired(s, ix.p, ix.g, ix.signatory, ix.isSigner, ix.owner, s');
  }

  lemma SignaturesElsewhere(s: State, ix: Instruction, s': State, p: Pubkey)
    requires Apply(s, ix) == Ok(s') && (ix.AddSignatoryIx? || ix.SignOffIx?) && MovedBy(ix) != Some(p)
    requires p in s.proposals
    ensures p in s'.proposals && s'.proposals[p] == s.proposals[p]
    ensures PresentAt(s', p) == PresentAt(s, p) && RequiredFor(s', p) == RequiredFor(s, p)
  {
    hide CastVote, RelinquishVote, SignOff, FinalizeVote, ExecuteTransaction, CompleteProposal, RefundDeposit,
         CreateProposal, AddSignatory, InsertTransaction, RemoveTransaction, CancelProposal,
         CreateTokenOwnerRecord, DepositTokens, WithdrawTokens, RevokeTokens, SetDelegate,
         CreateGovernance, SetGovernanceConfig, AddRequiredSignatory, RemoveRequiredSignatory, SignatoriesOf,
         SignersOf, RequiredOf;
    match ix
    case AddSignatoryIx(q, g, signatory, owner, signer) =>
      AddSignatoryEffect(s, q, g, signatory, owner, signer, s');
      SignatoryWrite(s.signatories, SignatoryKey(q, signatory), SignatoryRecord(false), p);
    case SignOffIx(q, g, signatory, isSigner, owner) =>
      SignOffEffect(s, q, g, signatory, isSigner, owner, s');
      SignatoryWrite(s.signatories, SignatoryKey(q, signatory), SignatoryRecord(true), p);
  }

  lemma SignatureStepKeepsRequired(s: State, ix: Instruction, s': State, p: Pubkey)
    requires AllWellKept(s.proposals, s.now) && AllSignaturesCounted(s) && AllRequiredCounted(s)
    requires Apply(s, ix) == Ok(s')
    requires (ix.AddSignatoryIx? || ix.SignOffIx?) && p in s.proposals && RequiredKept(s, p)
    ensures p in s'.proposals && RequiredKept(s', p)
  {
    hide CastVote, RelinquishVote, SignOff, FinalizeVote, ExecuteTransaction, CompleteProposal, RefundDeposit,
         CreateProposal, AddSignatory, InsertTransaction, RemoveTransaction, CancelProposal,
         CreateTokenOwnerRecord, DepositTokens, WithdrawTokens, RevokeTokens, SetDelegate,
         CreateGovernance, SetGovernanceConfig, AddRequiredSignatory, RemoveRequiredSignatory, RequiredFirst,
         PresentAt, RequiredFor, AllWellKept, AllSignaturesCounted,
         AllRequiredCounted;
    if MovedBy(ix) != Some(p) {
      SignaturesElsewhere(s, ix, s', p);
    } else if ix.AddSignatoryIx? {
      AddSignatoryKeepsRequired(s, ix, s');
    } else {
      SignOffKeepsRequired(s, ix, s');
    }
  }

  lemma AddingIsSafe(present: set<Pubkey>, required: set<Pubkey>, late: Pubkey, state: ProposalState)
    requires late !in required && RequiredFirst(present, required, state)
    ensures RequiredFirst(present, required + {late}, state) <==> AddsSafely(present, required, late, state)
  {
    assert |required + {late}| == |required| + 1;
    assert required + {late} <= present <==> required <= present && late in present;
  }

  lemma RemovingIsSafe(present: set<Pubkey>, required: set<Pubkey>, dropped: Pubkey, state: ProposalState)
    requires dropped in required && RequiredFirst(present, required, state)
    ensures RequiredFirst(present, required - {dropped}, state) <==> RemovesSafely(present, required, dropped, state)
  {
    assert |required - {dropped}| == |required| - 1;
  }

  lemma RequiredChanges(s: State, ix: Instruction, s': State, p: Pubkey)
    requires Apply(s, ix) == Ok(s') && (ix.AddRequiredIx? || ix.RemoveRequiredIx?) && p in s.proposals
    ensures p in s'.proposals && s'.proposals[p] == s.proposals[p] && PresentAt(s', p) == PresentAt(s, p)
    ensures ix.g != s.proposals[p].governance ==> RequiredFor(s', p) == RequiredFor(s, p)
    ensures ix.g == s.proposals[p].governance ==>
              && (ix.signatory in RequiredFor(s, p) <==> ix.RemoveRequiredIx?)
              && RequiredFor(s', p)
                 == if ix.AddRequiredIx? then RequiredFor(s, p) + {ix.signatory} else RequiredFor(s, p) - {ix.signatory}
  {
    hide Apply, SignatoriesOf, RequiredOf;
    Frames(s, ix, s');
    RequiredChange(s, ix, s');
    RequiredWrite(s.required, RequiredKey(ix.g, ix.signatory), RequiredSignatory(ix.signatory),
        s.proposals[p].governance);
  }

  /** Changing a required set keeps it exactly under the stated conditions. */
  lemma RequiredChangeSafe(s: State, ix: Instruction, s': State, p: Pubkey)
    requires Apply(s, ix) == Ok(s') && (ix.AddRequiredIx? || ix.RemoveRequiredIx?)
    requires p in s.proposals && RequiredKept(s, p)
    ensures p in s'.proposals && (RequiredKept(s', p) <==> ChangesSafely(s, ix, p))
  {
    hide Apply, RequiredFirst, AddsSafely, RemovesSafely, PresentAt, RequiredFor;
    RequiredChanges(s, ix, s', p);
    if ix.g == s.proposals[p].governance {
      if ix.AddRequiredIx? {
        AddingIsSafe(PresentAt(s, p), RequiredFor(s, p), ix.signatory, s.proposals[p].state);
      } else {
        RemovingIsSafe(PresentAt(s, p), RequiredFor(s, p), ix.signatory, s.proposals[p].state);
      }
    }
  }

  lemma OthersKeepRequired(s: State, ix: Instruction, s': State, p: Pubkey)
    requires AllWellKept(s.proposals, s.now) && Apply(s, ix) == Ok(s')
    requires !(ix.AddSignatoryIx? || ix.SignOffIx? || ix.AddRequiredIx? || ix.RemoveRequiredIx?)
    requires p in s.proposals && RequiredKept(s, p)
    ensures p in s'.proposals && RequiredKept(s', p)
  {
    hide Apply, WellKept, OptionsEvolve, SignatoriesOf, RequiredOf;
    Frames(s, ix, s');
    ProposalMoves(s, ix, s');
  }

  /** A step leaves no required signatory to be missed if and only if it changes the required set safely. */
  lemma RequiredKeptStep(s: State, ix: Instruction, s': State, p: Pubkey)
    requires AllWellKept(s.proposals, s.now) && AllSignaturesCounted(s) && AllRequiredCounted(s)
    requires Apply(s, ix) == Ok(s')
    requires p in s.proposals && RequiredKept(s, p)
    ensures p in s'.proposals && (RequiredKept(s', p) <==> ChangesSafely(s, ix, p))
  {
    hide Apply, RequiredKept, AddsSafely, RemovesSafely, AllWellKept, AllSignaturesCounted, AllRequiredCounted;
    if ix.AddSignatoryIx? || ix.SignOffIx? {
      SignatureStepKeepsRequired(s, ix, s', p);
    } else if ix.AddRequiredIx? || ix.RemoveRequiredIx? {
      RequiredChangeSafe(s, ix, s', p);
    } else {
      OthersKeepRequired(s, ix, s', p);
    }
  }

  /** From voting on, keeping it means that every required signatory has signed, and everybody else named as well. */
  lemma AllRequiredSigned(s: State, p: Pubkey)
    requires AllWellKept(s.proposals, s.now) && AllSignaturesCounted(s)
    requires p in s.proposals && Rank(s.proposals[p].state) >= 2 && s.proposals[p].state != Cancelled
    requires RequiredKept(s, p)
    ensures forall key :: key in s.required && key.governance == s.proposals[p].governance ==>
              && SignatoryKey(p, key.signatory) in s.signatories
              && s.signatories[SignatoryKey(p, key.signatory)].signedOff
    ensures forall key :: key in s.signatories && key.proposal == p ==> s.signatories[key].signedOff
  {
    hide Dated;
    SubsetCardinality(SignersOf(s.signatories, p), SignatoriesOf(s.signatories, p));
    forall key | key in s.signatories && key.proposal == p
      ensures s.signatories[key].signedOff
    {
      assert key.signatory in SignatoriesOf(s.signatories, p);
      assert key.signatory in SignersOf(s.signatories, p);
    }
    forall key | key in s.required && key.governance == s.proposals[p].governance
      ensures SignatoryKey(p, key.signatory) in s.signatories
    {
      assert key.signatory in RequiredFor(s, p);
      assert key.signatory in SignatoriesOf(s.signatories, p);
    }
  }
}
