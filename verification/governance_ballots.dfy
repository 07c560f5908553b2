/** Vote records against the votes counted in the voters' records. */
module GovernanceBallots {
  import opened Outcomes
  import opened Aggregates
  import opened GovernanceState
  import opened GovernanceSteps
  import opened GovernanceFrames
  import opened GovernanceLifecycle
  import opened VoteResolution

  function HeldVote(voter: TokenOwnerKey, key: VoteKey, record: VoteRecord): nat {
    if key.voter == voter && !record.isRelinquished then 1 else 0
  }

  function HeldBy(voter: TokenOwnerKey): (VoteKey, VoteRecord) -> nat {
    (key, record) => HeldVote(voter, key, record)
  }

  /** Every voter's count is the number of the voter's unmarked vote records. */
  ghost predicate VotesCounted(s: State) {
    forall voter :: VotesHeldAt(s.records, voter) == Sum(s.votes, HeldBy(voter))
  }

  /** Votes exist from voting on, and only decided proposals have marked ones. */
  predicate MarksMatch(s: State) {
    forall key :: key in s.votes ==>
      && key.proposal in s.proposals
      && Rank(s.proposals[key.proposal].state) >= 2
      && (s.votes[key].isRelinquished ==> Rank(s.proposals[key.proposal].state) >= 3)
  }

  lemma CastVoteCounted(s: State, p: Pubkey, g: Pubkey, voter: TokenOwnerKey, owner: TokenOwnerKey,
      signer: Option<Pubkey>, vote: Vote, addinWeight: Option<nat>, source: MaxWeightSource, s': State)
    requires CastVote(s, p, g, voter, owner, signer, vote, addinWeight, source) == Ok(s')
    ensures VotesCounted(s) ==> VotesCounted(s')
    ensures p in s.proposals && s.proposals[p].state == Voting
    ensures VoteKey(p, voter) !in s.votes && VoteKey(p, voter) in s'.votes
    ensures s'.votes == s.votes[VoteKey(p, voter) := s'.votes[VoteKey(p, voter)]]
    ensures !s'.votes[VoteKey(p, voter)].isRelinquished
  {
    hide CastVote, Count, AssertValidVote, AddVote, ProposalMintForVote, VoterWeight;
    CastVoteEffect(s, p, g, voter, owner, signer, vote, addinWeight, source, s');
    BallotFacts(s, p, g, voter, signer, vote, addinWeight, source);
    var key := VoteKey(p, voter);
    if VotesCounted(s) {
      forall v: TokenOwnerKey
        ensures VotesHeldAt(s'.records, v) == Sum(s'.votes, HeldBy(v))
      {
        SumWrite(s.votes, key, s'.votes[key], HeldBy(v));
        assert VotesHeldAt(s.records, v) == Sum(s.votes, HeldBy(v));
      }
    }
  }

  lemma RelinquishVoteCounted(s: State, p: Pubkey, g: Pubkey, voter: TokenOwnerKey, signer: Option<Pubkey>, s': State)
    requires RelinquishVote(s, p, g, voter, signer) == Ok(s')
    ensures VotesCounted(s) ==> VotesCounted(s')
  {
    hide RelinquishVote, SubtractVote;
    RelinquishVoteEffect(s, p, g, voter, signer, s');
    var key := VoteKey(p, voter);
    if VotesCounted(s) {
      forall v: TokenOwnerKey
        ensures VotesHeldAt(s'.records, v) == Sum(s'.votes, HeldBy(v))
      {
        if s.proposals[p].state == Voting {
          SumDispose(s.votes, key, HeldBy(v));
        } else {
          SumWrite(s.votes, key, s'.votes[key], HeldBy(v));
        }
        assert VotesHeldAt(s.records, v) == Sum(s.votes, HeldBy(v));
      }
    }
  }

  lemma OthersKeepVotes(s: State, ix: Instruction, s': State)
    requires Apply(s, ix) == Ok(s') && !(ix.CastVoteIx? || ix.RelinquishIx?)
    ensures s'.votes == s.votes
    ensures VotesCounted(s) ==> VotesCounted(s')
  {
    hide Apply;
    Frames(s, ix, s');
    FieldFrames(s, ix, s');
    if VotesCounted(s) {
      forall voter: TokenOwnerKey
        ensures VotesHeldAt(s'.records, voter) == Sum(s'.votes, HeldBy(voter))
      {
        assert VotesHeldAt(s.records, voter) == Sum(s.votes, HeldBy(voter));
      }
    }
  }

  lemma VotesCountedStep(s: State, ix: Instruction, s': State)
    requires VotesCounted(s) && Apply(s, ix) == Ok(s')
    ensures VotesCounted(s')
  {
    hide CastVote, RelinquishVote, SignOff, FinalizeVote, ExecuteTransaction, CompleteProposal, RefundDeposit,
         CreateProposal, AddSignatory, InsertTransaction, RemoveTransaction, CancelProposal,
         CreateTokenOwnerRecord, DepositTokens, WithdrawTokens, RevokeTokens, SetDelegate,
         CreateGovernance, SetGovernanceConfig, AddRequiredSignatory, RemoveRequiredSignatory, VotesCounted;
    match ix
    case CastVoteIx(p, g, voter, owner, signer, vote, addinWeight, source) =>
      CastVoteCounted(s, p, g, voter, owner, signer, vote, addinWeight, source, s');
    case RelinquishIx(p, g, voter, signer) => RelinquishVoteCounted(s, p, g, voter, signer, s');
    case _ => OthersKeepVotes(s, ix, s');
  }

  lemma RelinquishVoteMarks(s: State, p: Pubkey, g: Pubkey, voter: TokenOwnerKey, signer: Option<Pubkey>, s': State)
    requires RelinquishVote(s, p, g, voter, signer) == Ok(s') && MarksMatch(s)
    ensures p in s.proposals && (s.proposals[p].state == Voting || Rank(s.proposals[p].state) >= 3)
    ensures if s.proposals[p].state == Voting then s'.votes == s.votes - {VoteKey(p, voter)}
            else
              && VoteKey(p, voter) in s'.votes && s'.votes[VoteKey(p, voter)].isRelinquished
              && s'.votes == s.votes[VoteKey(p, voter) := s'.votes[VoteKey(p, voter)]]
  {
    hide RelinquishVote, SubtractVote;
    RelinquishVoteEffect(s, p, g, voter, signer, s');
  }

  /** The votes of s' are old votes, except for those the instruction wrote. */
  predicate VotesMarked(s: State, s': State) {
    forall key :: key in s'.votes ==>
      (key in s.votes && s'.votes[key] == s.votes[key])
      || (&& key.proposal in s.proposals
          && if s'.votes[key].isRelinquished then Rank(s.proposals[key.proposal].state) >= 3
             else s.proposals[key.proposal].state == Voting)
  }

  lemma VotesAreMarked(s: State, ix: Instruction, s': State)
    requires MarksMatch(s) && Apply(s, ix) == Ok(s')
    ensures VotesMarked(s, s')
  {
    hide CastVote, RelinquishVote, SignOff, FinalizeVote, ExecuteTransaction, CompleteProposal, RefundDeposit,
         CreateProposal, AddSignatory, InsertTransaction, RemoveTransaction, CancelProposal,
         CreateTokenOwnerRecord, DepositTokens, WithdrawTokens, RevokeTokens, SetDelegate,
         CreateGovernance, SetGovernanceConfig, AddRequiredSignatory, RemoveRequiredSignatory;
    match ix
    case CastVoteIx(p, g, voter, owner, signer, vote, addinWeight, source) =>
      CastVoteCounted(s, p, g, voter, owner, signer, vote, addinWeight, source, s');
    case RelinquishIx(p, g, voter, signer) => RelinquishVoteMarks(s, p, g, voter, signer, s');
    case _ => OthersKeepVotes(s, ix, s');
  }

  lemma MarksMatchStep(s: State, ix: Instruction, s': State)
    requires MarksMatch(s) && AllWellKept(s.proposals, s.now) && Apply(s, ix) == Ok(s')
    ensures MarksMatch(s')
  {
    hide Apply, AllWellKept, OptionsEvolve;
    ProposalsMoveForward(s, ix, s');
    VotesAreMarked(s, ix, s');
  }
}
