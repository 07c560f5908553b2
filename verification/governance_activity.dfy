/** The counters of active proposals kept by owners and governances. */
module GovernanceActivity {
  import opened Outcomes
  import opened Aggregates
  import opened GovernanceState
  import opened GovernanceSteps
  import opened GovernanceFrames
  import opened GovernanceLifecycle
  import opened VoteResolution

  function OwnedActive(owner: TokenOwnerKey, p: Proposal): nat {
    if p.owner == owner && IsActive(p.state) then 1 else 0
  }

  function OwnedActiveBy(owner: TokenOwnerKey): (Pubkey, Proposal) -> nat {
    (_, p) => OwnedActive(owner, p)
  }

  function GovernedActive(g: Pubkey, p: Proposal): nat {
    if p.governance == g && IsActive(p.state) then 1 else 0
  }

  function GovernedActiveBy(g: Pubkey): (Pubkey, Proposal) -> nat {
    (_, p) => GovernedActive(g, p)
  }

  /** Both counters equal the number of active proposals they stand for. */
  ghost predicate ActivityCounted(s: State) {
    && (forall owner :: OutstandingAt(s.records, owner) == Sum(s.proposals, OwnedActiveBy(owner)))
    && (forall g :: ActiveAt(s.governances, g) == Sum(s.proposals, GovernedActiveBy(g)))
  }

  ghost predicate CountersMove(s: State, s': State, owner: TokenOwnerKey, g: Pubkey, change: int) {
    && (forall k :: OutstandingAt(s'.records, k) == OutstandingAt(s.records, k) + if k == owner then change else 0)
    && (forall k :: ActiveAt(s'.governances, k) == ActiveAt(s.governances, k) + if k == g then change else 0)
  }

  /** The counters follow the proposal p from s to s'. */
  ghost predicate Follows(s: State, p: Pubkey, s': State) {
    && p in s'.proposals
    && var before := if p in s.proposals && IsActive(s.proposals[p].state) then 1 else 0;
       var after := if IsActive(s'.proposals[p].state) then 1 else 0;
       CountersMove(s, s', s'.proposals[p].owner, s'.proposals[p].governance, after - before)
  }

  /** The proposal's own contribution moves both sums together with both counters. */
  lemma ActivityMoves(s: State, p: Pubkey, s': State)
    requires ActivityCounted(s) && Follows(s, p, s') && s'.proposals == s.proposals[p := s'.proposals[p]]
    requires p in s.proposals ==> Evolves(s.proposals[p], s'.proposals[p])
    ensures ActivityCounted(s')
  {
    forall owner: TokenOwnerKey
      ensures OutstandingAt(s'.records, owner) == Sum(s'.proposals, OwnedActiveBy(owner))
    {
      SumWrite(s.proposals, p, s'.proposals[p], OwnedActiveBy(owner));
      assert OutstandingAt(s.records, owner) == Sum(s.proposals, OwnedActiveBy(owner));
    }
    forall g: Pubkey
      ensures ActiveAt(s'.governances, g) == Sum(s'.proposals, GovernedActiveBy(g))
    {
      SumWrite(s.proposals, p, s'.proposals[p], GovernedActiveBy(g));
      assert ActiveAt(s.governances, g) == Sum(s.proposals, GovernedActiveBy(g));
    }
  }

  /** An active proposal is counted, so neither counter is zero. */
  lemma ActiveIsCounted(s: State, p: Pubkey)
    requires ActivityCounted(s) && p in s.proposals && IsActive(s.proposals[p].state)
    ensures OutstandingAt(s.records, s.proposals[p].owner) > 0 && ActiveAt(s.governances, s.proposals[p].governance) > 0
  {
    var (owner, g) := (s.proposals[p].owner, s.proposals[p].governance);
    SumSplit(s.proposals, p, OwnedActiveBy(owner));
    SumSplit(s.proposals, p, GovernedActiveBy(g));
    assert OutstandingAt(s.records, owner) == Sum(s.proposals, OwnedActiveBy(owner));
    assert ActiveAt(s.governances, g) == Sum(s.proposals, GovernedActiveBy(g));
  }

  lemma CloseMoves(s: State, p: Pubkey, closed: Proposal, owner: TokenOwnerRecord, governance: Governance)
    requires closed.owner in s.records && s.records[closed.owner] == owner && owner.outstandingProposalCount > 0
    requires closed.governance in s.governances && s.governances[closed.governance] == governance
    requires governance.activeProposalCount > 0
    ensures CountersMove(s, Close(s, p, closed, owner, governance), closed.owner, closed.governance, -1)
    ensures Close(s, p, closed, owner, governance).proposals == s.proposals[p := closed]
  {
  }

  lemma CreateProposalFollows(s: State, p: Pubkey, g: Pubkey, mint: Pubkey, owner: TokenOwnerKey,
      signer: Option<Pubkey>, payer: Pubkey, addinWeight: Option<nat>, labels: seq<string>, voteType: VoteType,
      useDeny: bool, s': State)
    requires CreateProposal(s, p, g, mint, owner, signer, payer, addinWeight, labels, voteType, useDeny) == Ok(s')
    ensures Follows(s, p, s') && p !in s.proposals && s'.proposals == s.proposals[p := s'.proposals[p]]
  {
    hide AssertCanCreateProposal, AssertValidProposalOptions, ResolveVoteThreshold, ProposalDepositAmount;
  }

  lemma CancelProposalFollows(s: State, p: Pubkey, g: Pubkey, owner: TokenOwnerKey, signer: Option<Pubkey>, s': State)
    requires ActivityCounted(s) && CancelProposal(s, p, g, owner, signer) == Ok(s')
    ensures Follows(s, p, s')
  {
    hide Close, CountersMove, ActivityCounted;
    ActiveIsCounted(s, p);
    CloseMoves(s, p, Closed(s.proposals[p], Cancelled, s.now), s.records[owner], s.governances[g]);
  }

  lemma FinalizeVoteFollows(s: State, p: Pubkey, g: Pubkey, owner: TokenOwnerKey, mint: Pubkey, source: MaxWeightSource,
      s': State)
    requires ActivityCounted(s) && AllWellKept(s.proposals, s.now)
    requires FinalizeVote(s, p, g, owner, mint, source) == Ok(s')
    ensures Follows(s, p, s')
  {
    hide Close, CountersMove, ActivityCounted, FinalizedVote, ResolveMaxVoterWeight, ResolveVoteThreshold, WellKept,
         OptionsEvolve, Keeps;
    var proposal := s.proposals[p];
    var max := ResolveMaxVoterWeight(proposal, source, Electorate).value;
    var threshold := ResolveVoteThreshold(s.governances[g], s.realm, mint, Electorate).value;
    FinalizationMoves(proposal, max, s.governances[g].config, s.now, threshold);
    ActiveIsCounted(s, p);
    CloseMoves(s, p, FinalizedVote(proposal, max, s.governances[g].config, s.now, threshold).value, s.records[owner],
        s.governances[g]);
  }

  lemma CastVoteFollows(s: State, p: Pubkey, g: Pubkey, voter: TokenOwnerKey, owner: TokenOwnerKey,
      signer: Option<Pubkey>, vote: Vote, addinWeight: Option<nat>, source: MaxWeightSource, s': State)
    requires ActivityCounted(s) && CastVote(s, p, g, voter, owner, signer, vote, addinWeight, source) == Ok(s')
    ensures Follows(s, p, s')
  {
    hide CastVote, Count, AssertValidVote, AddVote, ProposalMintForVote, VoterWeight, ActivityCounted;
    CastVoteEffect(s, p, g, voter, owner, signer, vote, addinWeight, source, s');
    BallotFacts(s, p, g, voter, signer, vote, addinWeight, source);
    CountKeepsGovernance(s, p, g, voter, signer, vote, addinWeight, source);
    ActiveIsCounted(s, p);
  }

  ghost predicate CountersKept(s: State, s': State) {
    && (forall k :: OutstandingAt(s'.records, k) == OutstandingAt(s.records, k))
    && (forall k :: ActiveAt(s'.governances, k) == ActiveAt(s.governances, k))
  }

  lemma OthersKeepCounters(s: State, ix: Instruction, s': State)
    requires Apply(s, ix) == Ok(s') && !ix.CreateProposalIx? && DecisionPart !in PartsOf(ix)
    ensures CountersKept(s, s')
  {
    hide Apply;
    FieldFrames(s, ix, s');
    GovernanceFieldFrames(s, ix, s');
  }

  lemma MovesWrite(parts: set<Part>, s: State, p: Pubkey, s': State)
    requires Moves(parts, s, p, s')
    ensures p in s.proposals && p in s'.proposals && s'.proposals == s.proposals[p := s'.proposals[p]]
    ensures Evolves(s.proposals[p], s'.proposals[p])
    ensures s'.proposals[p].owner == s.proposals[p].owner && s'.proposals[p].governance == s.proposals[p].governance
    ensures DecisionPart !in parts ==> IsActive(s'.proposals[p].state) == IsActive(s.proposals[p].state)
  {
    hide WellKept, OptionsEvolve;
  }

  lemma CountersFollow(s: State, ix: Instruction, s': State, p: Pubkey)
    requires ActivityCounted(s) && AllWellKept(s.proposals, s.now) && Apply(s, ix) == Ok(s')
    requires DecisionPart in PartsOf(ix) && MovedBy(ix) == Some(p)
    ensures Follows(s, p, s')
  {
    hide CastVote, RelinquishVote, SignOff, FinalizeVote, ExecuteTransaction, CompleteProposal, RefundDeposit,
         CreateProposal, AddSignatory, InsertTransaction, RemoveTransaction, CancelProposal,
         CreateTokenOwnerRecord, DepositTokens, WithdrawTokens, RevokeTokens, SetDelegate,
         CreateGovernance, SetGovernanceConfig, AddRequiredSignatory, RemoveRequiredSignatory, ActivityCounted,
         Follows, AllWellKept;
    match ix
    case CancelIx(_, g, owner, signer) => CancelProposalFollows(s, p, g, owner, signer, s');
    case CastVoteIx(_, g, voter, owner, signer, vote, addinWeight, source) =>
      CastVoteFollows(s, p, g, voter, owner, signer, vote, addinWeight, source, s');
    case FinalizeIx(_, g, owner, mint, source) => FinalizeVoteFollows(s, p, g, owner, mint, source, s');
  }

  lemma ActivityCountedStep(s: State, ix: Instruction, s': State)
    requires ActivityCounted(s) && AllWellKept(s.proposals, s.now) && Apply(s, ix) == Ok(s')
    ensures ActivityCounted(s')
  {
    hide Apply, Moves, AllWellKept, WellKept, Evolves;
    ProposalMoves(s, ix, s');
    if ix.CreateProposalIx? {
      CreateCounted(s, ix, s');
    } else if MovedBy(ix).Some? {
      var p := MovedBy(ix).value;
      MovesWrite(PartsOf(ix), s, p, s');
      if DecisionPart in PartsOf(ix) {
        CountersFollow(s, ix, s', p);
      } else {
        OthersKeepCounters(s, ix, s');
      }
      ActivityMoves(s, p, s');
    } else {
      OthersKeepCounters(s, ix, s');
    }
  }

  lemma CreateCounted(s: State, ix: Instruction, s': State)
    requires ActivityCounted(s) && ix.CreateProposalIx? && Apply(s, ix) == Ok(s')
    ensures ActivityCounted(s')
  {
    hide CastVote, RelinquishVote, SignOff, FinalizeVote, ExecuteTransaction, CompleteProposal, RefundDeposit,
         CreateProposal, AddSignatory, InsertTransaction, RemoveTransaction, CancelProposal,
         CreateTokenOwnerRecord, DepositTokens, WithdrawTokens, RevokeTokens, SetDelegate,
         CreateGovernance, SetGovernanceConfig, AddRequiredSignatory, RemoveRequiredSignatory, ActivityCounted, Follows;
    CreateProposalFollows(s, ix.p, ix.g, ix.mint, ix.owner, ix.signer, ix.payer, ix.addinWeight, ix.labels,
        ix.voteType, ix.useDeny, s');
    ActivityMoves(s, ix.p, s');
  }

  // ---- Owners and governances exist -------------------------------------------------------------------

  /** A proposal's owner has a record and its governance exists. */
  predicate Anchored(s: State) {
    forall p :: p in s.proposals ==> s.proposals[p].owner in s.records && s.proposals[p].governance in s.governances
  }

  lemma CreateAnchors(s: State, ix: Instruction, s': State)
    requires ix.CreateProposalIx? && Apply(s, ix) == Ok(s')
    ensures ix.p in s'.proposals
    ensures s'.proposals[ix.p].owner in s'.records && s'.proposals[ix.p].governance in s'.governances
  {
    hide CastVote, RelinquishVote, SignOff, FinalizeVote, ExecuteTransaction, CompleteProposal, RefundDeposit,
         AddSignatory, InsertTransaction, RemoveTransaction, CancelProposal, MayCreate, TakeDeposit,
         ProposalDepositAmount,
         CreateTokenOwnerRecord, DepositTokens, WithdrawTokens, RevokeTokens, SetDelegate,
         CreateGovernance, SetGovernanceConfig, AddRequiredSignatory, RemoveRequiredSignatory;
  }

  lemma KeysGrow(s: State, ix: Instruction, s': State)
    requires Apply(s, ix) == Ok(s')
    ensures s.records.Keys <= s'.records.Keys && s.governances.Keys <= s'.governances.Keys
  {
    hide Apply;
    FieldFrames(s, ix, s');
    GovernanceFieldFrames(s, ix, s');
  }

  lemma AnchoredStep(s: State, ix: Instruction, s': State)
    requires Anchored(s) && AllWellKept(s.proposals, s.now) && Apply(s, ix) == Ok(s')
    ensures Anchored(s')
  {
    hide Apply, AllWellKept, WellKept, Advances, IsFresh;
    KeysGrow(s, ix, s');
    ProposalMoves(s, ix, s');
    if ix.CreateProposalIx? {
      CreateAnchors(s, ix, s');
    } else if MovedBy(ix).Some? {
      MovesWrite(PartsOf(ix), s, MovedBy(ix).value, s');
    }
  }
}
