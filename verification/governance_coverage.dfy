/** The votes of a proposal in voting against the tokens deposited for them. */
module GovernanceCoverage {
  import opened Outcomes
  import opened Aggregates
  import opened GovernanceState
  import opened GovernanceSteps
  import opened GovernanceFrames
  import opened GovernanceLifecycle
  import opened GovernanceBallots
  import opened GovernanceTallies
  import opened GovernanceTokens
  import opened VoteResolution

  /** Every unmarked vote of the mint's voters weighs at most the voter's deposit. */
  predicate Backed(s: State, mint: Pubkey) {
    forall key :: key in s.votes && key.voter.mint == mint && !s.votes[key].isRelinquished ==>
      s.votes[key].voterWeight <= DepositAt(s.records, key.voter)
  }

  /** The step takes no voter weight from a plugin beyond the deposit and revokes no tokens below a standing vote. */
  predicate KeepsBacking(s: State, ix: Instruction, mint: Pubkey) {
    match ix
    case CastVoteIx(_, _, voter, _, _, _, addinWeight, _) =>
      voter.mint == mint && addinWeight.Some? ==> addinWeight.value <= DepositAt(s.records, voter)
    case RevokeIx(voter, amount, _) =>
      voter.mint == mint ==>
        forall key :: key in s.votes && key.voter == voter && !s.votes[key].isRelinquished ==>
          s.votes[key].voterWeight + amount <= DepositAt(s.records, voter)
    case _ => true
  }

  /** Every vote was cast for its proposal's mint by the population it belongs to, which may be gone since. */
  predicate VoteMints(s: State) {
    forall key :: key in s.votes ==> VoteMintFits(s.realm, s.proposals, key, s.votes[key])
  }

  predicate VoteMintFits(realm: Realm, proposals: map<Pubkey, Proposal>, key: VoteKey, r: VoteRecord) {
    && key.proposal in proposals
    && var mint := proposals[key.proposal].governingTokenMint;
       if r.vote.Veto? then VetoFits(realm, key.voter.mint, mint) else ElectorateFits(realm, key.voter.mint, mint)
  }

  /** A vote for the voter's own population. */
  predicate ElectorateFits(realm: Realm, voterMint: Pubkey, mint: Pubkey) {
    voterMint == mint && (realm.councilMint.Some? ==> IsRealmMint(realm, mint))
  }

  /** A veto against the other population; with the council still there, its mint is the council's. */
  predicate VetoFits(realm: Realm, voterMint: Pubkey, mint: Pubkey) {
    var council := if voterMint == realm.communityMint then mint else voterMint;
    && (voterMint == realm.communityMint || mint == realm.communityMint)
    && (realm.councilMint.Some? ==> realm.councilMint == Some(council))
  }

  lemma CastVoteBacked(s: State, p: Pubkey, g: Pubkey, voter: TokenOwnerKey, owner: TokenOwnerKey,
      signer: Option<Pubkey>, vote: Vote, addinWeight: Option<nat>, source: MaxWeightSource, s': State, mint: Pubkey)
    requires CastVote(s, p, g, voter, owner, signer, vote, addinWeight, source) == Ok(s') && Backed(s, mint)
    ensures Backed(s', mint)
        <==> (voter.mint == mint && addinWeight.Some? ==> addinWeight.value <= DepositAt(s.records, voter))
  {
    hide CastVote, Count, AssertValidVote, AddVote, ProposalMintForVote;
    CastVoteEffect(s, p, g, voter, owner, signer, vote, addinWeight, source, s');
    BallotFacts(s, p, g, voter, signer, vote, addinWeight, source);
    CastVoteFields(s, p, g, voter, owner, signer, vote, addinWeight, source, s');
    var key := VoteKey(p, voter);
    assert key in s'.votes && s'.votes[key].voterWeight == VoterWeight(s.records[voter], addinWeight);
    assert voter in s'.records && DepositAt(s'.records, voter) == DepositAt(s.records, voter);
  }

  /** What a token instruction does to the deposits. */
  lemma DepositChange(s: State, ix: Instruction, s': State)
    requires Apply(s, ix) == Ok(s') && IsTokenInstruction(ix)
    ensures forall key :: key != ix.key ==> DepositAt(s'.records, key) == DepositAt(s.records, key)
    ensures ix.WithdrawIx? ==> VotesHeldAt(s.records, ix.key) == 0
    ensures ix.RevokeIx? ==> DepositAt(s'.records, ix.key) == DepositAt(s.records, ix.key) - ix.amount
    ensures !(ix.WithdrawIx? || ix.RevokeIx?) ==> DepositAt(s'.records, ix.key) >= DepositAt(s.records, ix.key)
  {
    hide CastVote, RelinquishVote, SignOff, FinalizeVote, ExecuteTransaction, CompleteProposal, RefundDeposit,
         CreateProposal, AddSignatory, InsertTransaction, RemoveTransaction, CancelProposal,
         CreateGovernance, SetGovernanceConfig, AddRequiredSignatory, RemoveRequiredSignatory;
  }

  lemma NoHeldVotes(s: State, voter: TokenOwnerKey)
    requires VotesCounted(s) && VotesHeldAt(s.records, voter) == 0
    ensures forall key :: key in s.votes && key.voter == voter ==> s.votes[key].isRelinquished
  {
    forall key | key in s.votes && key.voter == voter
      ensures s.votes[key].isRelinquished
    {
      SumSplit(s.votes, key, HeldBy(voter));
      assert VotesHeldAt(s.records, voter) == Sum(s.votes, HeldBy(voter));
    }
  }

  lemma TokensBacked(s: State, ix: Instruction, s': State, mint: Pubkey)
    requires Apply(s, ix) == Ok(s') && IsTokenInstruction(ix) && VotesCounted(s) && Backed(s, mint)
    ensures Backed(s', mint) <==> KeepsBacking(s, ix, mint)
  {
    hide Apply, VotesCounted;
    OthersKeepVotes(s, ix, s');
    DepositChange(s, ix, s');
    if ix.WithdrawIx? {
      NoHeldVotes(s, ix.key);
    }
  }

  lemma RelinquishVoteBacked(s: State, p: Pubkey, g: Pubkey, voter: TokenOwnerKey, signer: Option<Pubkey>, s': State,
      mint: Pubkey)
    requires RelinquishVote(s, p, g, voter, signer) == Ok(s') && Backed(s, mint)
    ensures Backed(s', mint)
  {
    hide RelinquishVote, SubtractVote;
    RelinquishVoteEffect(s, p, g, voter, signer, s');
    RelinquishVoteFields(s, p, g, voter, signer, s');
    forall key | key in s'.votes && key.voter.mint == mint && !s'.votes[key].isRelinquished
      ensures s'.votes[key].voterWeight <= DepositAt(s'.records, key.voter)
    {
      assert key in s.votes && s'.votes[key] == s.votes[key];
    }
  }

  /** A step keeps every vote of a mint backed by its voter's deposit exactly when it meets the two conditions. */
  lemma BackedStep(s: State, ix: Instruction, s': State, mint: Pubkey)
    requires Apply(s, ix) == Ok(s') && VotesCounted(s) && Backed(s, mint)
    ensures Backed(s', mint) <==> KeepsBacking(s, ix, mint)
  {
    hide CastVote, RelinquishVote, SignOff, FinalizeVote, ExecuteTransaction, CompleteProposal, RefundDeposit,
         CreateProposal, AddSignatory, InsertTransaction, RemoveTransaction, CancelProposal,
         CreateTokenOwnerRecord, DepositTokens, WithdrawTokens, RevokeTokens, SetDelegate,
         CreateGovernance, SetGovernanceConfig, AddRequiredSignatory, RemoveRequiredSignatory, VotesCounted, Backed;
    if IsTokenInstruction(ix) {
      TokensBacked(s, ix, s', mint);
    } else {
      match ix
      case CastVoteIx(p, g, voter, owner, signer, vote, addinWeight, source) =>
        CastVoteBacked(s, p, g, voter, owner, signer, vote, addinWeight, source, s', mint);
      case RelinquishIx(p, g, voter, signer) => RelinquishVoteBacked(s, p, g, voter, signer, s', mint);
      case _ => OthersBacked(s, ix, s', mint);
    }
  }

  lemma OthersBacked(s: State, ix: Instruction, s': State, mint: Pubkey)
    requires Apply(s, ix) == Ok(s') && Backed(s, mint)
    requires !IsTokenInstruction(ix) && !ix.CastVoteIx? && !ix.RelinquishIx?
    ensures Backed(s', mint)
  {
    hide Apply;
    OthersKeepVotes(s, ix, s');
    FieldFrames(s, ix, s');
    forall key | key in s'.votes && key.voter.mint == mint && !s'.votes[key].isRelinquished
      ensures s'.votes[key].voterWeight <= DepositAt(s'.records, key.voter)
    {
      assert key.voter in s'.records ==> DepositAt(s'.records, key.voter) == DepositAt(s.records, key.voter);
    }
  }

  // ---- Mints ----------------------------------------------------------------------------------------------

  /** Removing the council leaves every vote fitting. */
  lemma FitsStays(realm: Realm, realm': Realm, proposals: map<Pubkey, Proposal>, proposals': map<Pubkey, Proposal>,
      key: VoteKey, r: VoteRecord, r': VoteRecord)
    requires VoteMintFits(realm, proposals, key, r) && r'.vote == r.vote
    requires realm'.communityMint == realm.communityMint
    requires realm'.councilMint == realm.councilMint || realm'.councilMint.None?
    requires key.proposal in proposals'
    requires proposals'[key.proposal].governingTokenMint == proposals[key.proposal].governingTokenMint
    ensures VoteMintFits(realm', proposals', key, r')
  {
  }

  lemma VoteMintsStep(s: State, ix: Instruction, s': State)
    requires VoteMints(s) && AllWellKept(s.proposals, s.now) && Apply(s, ix) == Ok(s')
    ensures VoteMints(s')
  {
    hide Apply, AllWellKept, OptionsEvolve, VoteMintFits;
    ProposalsMoveForward(s, ix, s');
    Frames(s, ix, s');
    VotesHaveMints(s, ix, s');
    forall key | key in s'.votes
      ensures VoteMintFits(s'.realm, s'.proposals, key, s'.votes[key])
    {
      var before := if VoteMintFits(s.realm, s.proposals, key, s'.votes[key]) then s'.votes[key] else s.votes[key];
      FitsHaveProposals(s.realm, s.proposals, key, before);
      FitsStays(s.realm, s'.realm, s.proposals, s'.proposals, key, before, s'.votes[key]);
    }
  }

  lemma FitsHaveProposals(realm: Realm, proposals: map<Pubkey, Proposal>, key: VoteKey, r: VoteRecord)
    requires VoteMintFits(realm, proposals, key, r)
    ensures key.proposal in proposals
  {
  }

  /** Every vote after an instruction is one from before, with the same kind, or was cast with a fitting mint. */
  lemma VotesHaveMints(s: State, ix: Instruction, s': State)
    requires Apply(s, ix) == Ok(s')
    ensures forall key :: key in s'.votes ==>
              || VoteMintFits(s.realm, s.proposals, key, s'.votes[key])
              || (key in s.votes && s'.votes[key].vote == s.votes[key].vote)
  {
    hide CastVote, RelinquishVote, SignOff, FinalizeVote, ExecuteTransaction, CompleteProposal, RefundDeposit,
         CreateProposal, AddSignatory, InsertTransaction, RemoveTransaction, CancelProposal,
         CreateTokenOwnerRecord, DepositTokens, WithdrawTokens, RevokeTokens, SetDelegate,
         CreateGovernance, SetGovernanceConfig, AddRequiredSignatory, RemoveRequiredSignatory, VoteMintFits;
    match ix
    case CastVoteIx(p, g, voter, owner, signer, vote, addinWeight, source) =>
      CastVoteMint(s, p, g, voter, owner, signer, vote, addinWeight, source, s');
    case RelinquishIx(p, g, voter, signer) => RelinquishVoteMint(s, p, g, voter, signer, s');
    case _ => OthersKeepVotes(s, ix, s');
  }

  lemma CastVoteMint(s: State, p: Pubkey, g: Pubkey, voter: TokenOwnerKey, owner: TokenOwnerKey, signer: Option<Pubkey>,
      vote: Vote, addinWeight: Option<nat>, source: MaxWeightSource, s': State)
    requires CastVote(s, p, g, voter, owner, signer, vote, addinWeight, source) == Ok(s')
    ensures forall key :: key in s'.votes ==>
              if key == VoteKey(p, voter) then VoteMintFits(s.realm, s.proposals, key, s'.votes[key])
              else key in s.votes && s'.votes[key] == s.votes[key]
  {
    hide CastVote, Count, AssertValidVote, AddVote, VoterWeight, IsRealmMint, ProposalMintForVote,
         ElectorateFits, VetoFits;
    CastVoteEffect(s, p, g, voter, owner, signer, vote, addinWeight, source, s');
    BallotFacts(s, p, g, voter, signer, vote, addinWeight, source);
    CastMintsFit(s.realm, voter.mint, vote, s.proposals[p].governingTokenMint);
  }

  lemma CastMintsFit(realm: Realm, voterMint: Pubkey, vote: Vote, mint: Pubkey)
    requires IsRealmMint(realm, voterMint) && ProposalMintForVote(realm, voterMint, KindOf(vote)) == Ok(mint)
    ensures if vote.Veto? then VetoFits(realm, voterMint, mint) else ElectorateFits(realm, voterMint, mint)
  {
  }

  lemma RelinquishVoteMint(s: State, p: Pubkey, g: Pubkey, voter: TokenOwnerKey, signer: Option<Pubkey>, s': State)
    requires RelinquishVote(s, p, g, voter, signer) == Ok(s')
    ensures forall key :: key in s'.votes ==> key in s.votes && s'.votes[key].vote == s.votes[key].vote
  {
    hide RelinquishVote, SubtractVote;
    RelinquishVoteEffect(s, p, g, voter, signer, s');
  }

  // ---- Coverage -----------------------------------------------------------------------------------------------

  function ElectorateIn(p: Pubkey, key: VoteKey, r: VoteRecord): nat {
    if key.proposal == p && !r.vote.Veto? then r.voterWeight else 0
  }

  function ElectorateOf(p: Pubkey): (VoteKey, VoteRecord) -> nat {
    (key, r) => ElectorateIn(p, key, r)
  }

  /** Different votes on one proposal are backed by different deposits. */
  lemma {:induction false} VotesCoveredByDeposits(votes: map<VoteKey, VoteRecord>,
      records: map<TokenOwnerKey, TokenOwnerRecord>, p: Pubkey, mint: Pubkey)
    requires forall key :: key in votes && key.proposal == p && !votes[key].vote.Veto? ==>
               key.voter.mint == mint && votes[key].voterWeight <= DepositAt(records, key.voter)
    ensures Sum(votes, ElectorateOf(p)) <= DepositSum(records, mint)
    decreases |votes|
  {
    if votes != map[] {
      var key :| key in votes;
      SumSplit(votes, key, ElectorateOf(p));
      if key.proposal == p && !votes[key].vote.Veto? && key.voter in records {
        SumSplit(records, key.voter, DepositsIn(mint));
        VotesCoveredByDeposits(votes - {key}, records - {key.voter}, p, mint);
      } else {
        VotesCoveredByDeposits(votes - {key}, records, p, mint);
      }
    }
  }

  /** No option together with the deny option outweighs the electorate that voted. */
  lemma TalliesWithinElectorate(s: State, p: Pubkey, i: nat)
    requires AllTallied(s) && p in s.proposals && i < |s.proposals[p].options|
    ensures s.proposals[p].options[i].voteWeight + DenyWeight(s.proposals[p]) <= Sum(s.votes, ElectorateOf(p))
  {
    forall key | key in s.votes
      ensures ApprovalIn(p, i, key, s.votes[key]) + DenialIn(p, key, s.votes[key]) <= ElectorateIn(p, key, s.votes[key])
    {
      if key.proposal == p && s.votes[key].vote.Approve? && i < |s.votes[key].vote.choices| {
        ShareIsPart(s.votes[key].vote.choices[i], s.votes[key].voterWeight);
      }
    }
    SumAdds(s.votes, ApprovalsOf(p, i), DenialsOf(p), ElectorateOf(p));
  }

  lemma ShareIsPart(choice: VoteChoice, weight: nat)
    ensures ShareOf(choice, weight) <= weight
  {
    if choice.weightPercentage < 100 {
      PercentageBounds(choice.weightPercentage, weight);
      HundredthPart(choice.weightPercentage * weight, weight);
      assert weight * choice.weightPercentage == choice.weightPercentage * weight;
    }
  }

  lemma HundredthPart(n: nat, whole: nat)
    requires n <= 100 * whole
    ensures n / 100 <= whole
  {
  }

  /** All votes on a proposal in voting are tokens that lie in the holding account. */
  lemma VotesAreTokens(s: State, p: Pubkey)
    requires p in s.proposals && s.proposals[p].state == Voting
    requires Backed(s, s.proposals[p].governingTokenMint) && MarksMatch(s) && VoteMints(s)
    requires Surplus(s, s.proposals[p].governingTokenMint) >= 0
    ensures Sum(s.votes, ElectorateOf(p)) <= DepositSum(s.records, s.proposals[p].governingTokenMint)
        <= HoldingOf(s, s.proposals[p].governingTokenMint)
  {
    VotesCoveredByDeposits(s.votes, s.records, p, s.proposals[p].governingTokenMint);
  }
}
