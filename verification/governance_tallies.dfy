/** The tallies of a proposal against its vote records. */
module GovernanceTallies {
  import opened Outcomes
  import opened Aggregates
  import opened GovernanceState
  import opened GovernanceSteps
  import opened GovernanceFrames
  import opened GovernanceLifecycle
  import opened GovernanceBallots
  import opened VoteResolution

  // ---- What one vote gives to each tally ----------------------------------------------------------

  function ApprovalShare(vote: Vote, weight: nat, i: nat): nat {
    if vote.Approve? && i < |vote.choices| then ShareOf(vote.choices[i], weight) else 0
  }

  function DenyShare(vote: Vote, weight: nat): nat {
    if vote.Deny? then weight else 0
  }

  function VetoShare(vote: Vote, weight: nat): nat {
    if vote.Veto? then weight else 0
  }

  function ApprovalIn(p: Pubkey, i: nat, key: VoteKey, r: VoteRecord): nat {
    if key.proposal == p then ApprovalShare(r.vote, r.voterWeight, i) else 0
  }

  function ApprovalsOf(p: Pubkey, i: nat): (VoteKey, VoteRecord) -> nat {
    (key, r) => ApprovalIn(p, i, key, r)
  }

  function DenialIn(p: Pubkey, key: VoteKey, r: VoteRecord): nat {
    if key.proposal == p then DenyShare(r.vote, r.voterWeight) else 0
  }

  function DenialsOf(p: Pubkey): (VoteKey, VoteRecord) -> nat {
    (key, r) => DenialIn(p, key, r)
  }

  function VetoIn(p: Pubkey, key: VoteKey, r: VoteRecord): nat {
    if key.proposal == p then VetoShare(r.vote, r.voterWeight) else 0
  }

  function VetoesOf(p: Pubkey): (VoteKey, VoteRecord) -> nat {
    (key, r) => VetoIn(p, key, r)
  }

  function DenyWeight(p: Proposal): nat {
    if p.denyVoteWeight.Some? then p.denyVoteWeight.value else 0
  }

  /** Every tally is the sum over all existing vote records of what the record gave to it. */
  ghost predicate Tallied(votes: map<VoteKey, VoteRecord>, p: Pubkey, proposal: Proposal) {
    && (forall i :: 0 <= i < |proposal.options| ==> proposal.options[i].voteWeight == Sum(votes, ApprovalsOf(p, i)))
    && DenyWeight(proposal) == Sum(votes, DenialsOf(p))
    && proposal.vetoVoteWeight == Sum(votes, VetoesOf(p))
  }

  /** A vote that was valid for the proposal when it was cast. */
  predicate Fits(proposal: Proposal, vote: Vote) {
    match vote
    case Approve(choices) => |choices| == |proposal.options| && forall c :: c in choices ==> c.weightPercentage <= 100
    case Deny => proposal.denyVoteWeight.Some?
    case Veto => true
    case Abstain => false
  }

  ghost predicate AllTallied(s: State) {
    && (forall p :: p in s.proposals ==> Tallied(s.votes, p, s.proposals[p]))
    && (forall key :: key in s.votes ==>
        key.proposal in s.proposals && Fits(s.proposals[key.proposal], s.votes[key].vote))
  }

  // ---- Adding and subtracting a vote ----------------------------------------------------------------

  /** The tallies of q are those of p changed by one vote, sign 1 for a cast vote and -1 for one taken back. */
  predicate TalliesMove(p: Proposal, q: Proposal, vote: Vote, weight: nat, sign: int) {
    && |q.options| == |p.options|
    && q.denyVoteWeight.Some? == p.denyVoteWeight.Some?
    && (forall i :: 0 <= i < |p.options| ==>
        q.options[i].voteWeight == p.options[i].voteWeight + sign * ApprovalShare(vote, weight, i))
    && DenyWeight(q) == DenyWeight(p) + sign * DenyShare(vote, weight)
    && q.vetoVoteWeight == p.vetoVoteWeight + sign * VetoShare(vote, weight)
  }

  lemma AddVoteTallies(p: Proposal, vote: Vote, weight: nat, q: Proposal)
    requires AssertValidVote(p, vote) == Pass && AddVote(p, vote, weight) == Ok(q)
    ensures Fits(p, vote) && TalliesMove(p, q, vote, weight, 1)
  {
    hide AddChoices, ChoicesVerdict, ShareOf;
    if vote.Approve? {
      AddChoicesAdds(p.options, vote.choices, weight, 0);
    }
  }

  /** The tallies cover a vote they include, so taking it back never fails. */
  lemma SubtractVoteTallies(p: Proposal, vote: Vote, weight: nat)
    requires Fits(p, vote)
    requires forall i :: 0 <= i < |p.options| ==> ApprovalShare(vote, weight, i) <= p.options[i].voteWeight
    requires DenyShare(vote, weight) <= DenyWeight(p) && VetoShare(vote, weight) <= p.vetoVoteWeight
    ensures SubtractVote(p, vote, weight).Ok? && TalliesMove(p, SubtractVote(p, vote, weight).value, vote, weight, -1)
  {
    hide SubtractChoices, ShareOf;
    if vote.Approve? {
      SubtractChoicesSubtracts(p.options, vote.choices, weight, 0);
      forall j | 0 <= j < |vote.choices| && j < |p.options|
        ensures vote.choices[j].weightPercentage <= 100 && ShareOf(vote.choices[j], weight) <= p.options[j].voteWeight
      {
        assert ShareOf(vote.choices[j], weight) == ApprovalShare(vote, weight, j);
      }
    }
  }

  /** Every vote record is covered by the tallies of its proposal. */
  lemma TalliesCover(s: State, key: VoteKey)
    requires AllTallied(s) && key in s.votes
    ensures var (p, r) := (s.proposals[key.proposal], s.votes[key]);
            && Fits(p, r.vote)
            && (forall i :: 0 <= i < |p.options| ==> ApprovalShare(r.vote, r.voterWeight, i) <= p.options[i].voteWeight)
            && DenyShare(r.vote, r.voterWeight) <= DenyWeight(p) && VetoShare(r.vote, r.voterWeight) <= p.vetoVoteWeight
  {
    var (p, r) := (key.proposal, s.votes[key]);
    forall i | 0 <= i < |s.proposals[p].options|
      ensures ApprovalShare(r.vote, r.voterWeight, i) <= s.proposals[p].options[i].voteWeight
    {
      SumSplit(s.votes, key, ApprovalsOf(p, i));
    }
    SumSplit(s.votes, key, DenialsOf(p));
    SumSplit(s.votes, key, VetoesOf(p));
  }

  /** Counting a vote into a proposal keeps all tallies. */
  lemma CastKeepsTallies(votes: map<VoteKey, VoteRecord>, key: VoteKey, r: VoteRecord, p: Pubkey, proposal: Proposal,
      proposal': Proposal)
    requires key !in votes && Tallied(votes, p, proposal)
    requires if key.proposal
        == p then TalliesMove(proposal, proposal', r.vote, r.voterWeight, 1) else proposal' == proposal
    ensures Tallied(votes[key := r], p, proposal')
  {
    forall i | 0 <= i < |proposal.options|
      ensures proposal'.options[i].voteWeight == Sum(votes[key := r], ApprovalsOf(p, i))
    {
      SumWrite(votes, key, r, ApprovalsOf(p, i));
    }
    SumWrite(votes, key, r, DenialsOf(p));
    SumWrite(votes, key, r, VetoesOf(p));
  }

  lemma RetractKeepsTallies(votes: map<VoteKey, VoteRecord>, key: VoteKey, p: Pubkey, proposal: Proposal,
      proposal': Proposal)
    requires key in votes && Tallied(votes, p, proposal)
    requires if key.proposal == p then TalliesMove(proposal, proposal', votes[key].vote, votes[key].voterWeight, -1)
        else proposal' == proposal
    ensures Tallied(votes - {key}, p, proposal')
  {
    forall i | 0 <= i < |proposal.options|
      ensures proposal'.options[i].voteWeight == Sum(votes - {key}, ApprovalsOf(p, i))
    {
      SumDispose(votes, key, ApprovalsOf(p, i));
    }
    SumDispose(votes, key, DenialsOf(p));
    SumDispose(votes, key, VetoesOf(p));
  }

  lemma MarkKeepsTallies(votes: map<VoteKey, VoteRecord>, key: VoteKey, p: Pubkey, proposal: Proposal)
    requires key in votes && Tallied(votes, p, proposal)
    ensures Tallied(votes[key := votes[key].(isRelinquished := true)], p, proposal)
  {
    var r := votes[key].(isRelinquished := true);
    forall i | 0 <= i < |proposal.options|
      ensures proposal.options[i].voteWeight == Sum(votes[key := r], ApprovalsOf(p, i))
    {
      SumWrite(votes, key, r, ApprovalsOf(p, i));
    }
    SumWrite(votes, key, r, DenialsOf(p));
    SumWrite(votes, key, r, VetoesOf(p));
  }

  // ---- Every instruction --------------------------------------------------------------------------------

  lemma CastVoteTallies(s: State, p: Pubkey, g: Pubkey, voter: TokenOwnerKey, owner: TokenOwnerKey,
      signer: Option<Pubkey>, vote: Vote, addinWeight: Option<nat>, source: MaxWeightSource, s': State)
    requires AllWellKept(s.proposals, s.now)
    requires CastVote(s, p, g, voter, owner, signer, vote, addinWeight, source) == Ok(s')
    ensures p in s.proposals && VoteKey(p, voter) !in s.votes && VoteKey(p, voter) in s'.votes && p in s'.proposals
    ensures s'.votes == s.votes[VoteKey(p, voter) := s'.votes[VoteKey(p, voter)]]
    ensures s'.proposals == s.proposals[p := s'.proposals[p]]
    ensures var r := s'.votes[VoteKey(p, voter)];
            Fits(s.proposals[p], r.vote) && TalliesMove(s.proposals[p], s'.proposals[p], r.vote, r.voterWeight, 1)
  {
    hide CastVote, Count, AssertValidVote, AddVote, ProposalMintForVote, VoterWeight, Advances, WellKept, Fits,
         ApprovalShare, DenyShare, VetoShare;
    CastVoteEffect(s, p, g, voter, owner, signer, vote, addinWeight, source, s');
    BallotFacts(s, p, g, voter, signer, vote, addinWeight, source);
    CountMoves(s, p, g, voter, signer, vote, addinWeight, source);
    var ballot := Count(s, p, g, voter, signer, vote, addinWeight, source).value;
    AddVoteTallies(s.proposals[p], vote, ballot.weight, ballot.counted);
  }

  lemma CastVoteTallied(s: State, p: Pubkey, g: Pubkey, voter: TokenOwnerKey, owner: TokenOwnerKey,
      signer: Option<Pubkey>, vote: Vote, addinWeight: Option<nat>, source: MaxWeightSource, s': State)
    requires AllTallied(s) && AllWellKept(s.proposals, s.now)
    requires CastVote(s, p, g, voter, owner, signer, vote, addinWeight, source) == Ok(s')
    ensures AllTallied(s')
  {
    hide CastVote, AllWellKept, Tallied, ApprovalShare, DenyShare, VetoShare;
    CastVoteTallies(s, p, g, voter, owner, signer, vote, addinWeight, source, s');
    var key := VoteKey(p, voter);
    forall q | q in s'.proposals
      ensures Tallied(s'.votes, q, s'.proposals[q])
    {
      CastKeepsTallies(s.votes, key, s'.votes[key], q, s.proposals[q], s'.proposals[q]);
    }
  }

  lemma RelinquishVoteTallied(s: State, p: Pubkey, g: Pubkey, voter: TokenOwnerKey, signer: Option<Pubkey>, s': State)
    requires AllTallied(s) && RelinquishVote(s, p, g, voter, signer) == Ok(s')
    ensures AllTallied(s')
  {
    hide RelinquishVote, SubtractVote, Tallied, ApprovalShare, DenyShare, VetoShare;
    RelinquishVoteEffect(s, p, g, voter, signer, s');
    var key := VoteKey(p, voter);
    var (proposal, r) := (s.proposals[p], s.votes[key]);
    TalliesCover(s, key);
    SubtractVoteTallies(proposal, r.vote, r.voterWeight);
    forall q | q in s'.proposals
      ensures Tallied(s'.votes, q, s'.proposals[q])
    {
      if proposal.state == Voting {
        RetractKeepsTallies(s.votes, key, q, s.proposals[q], s'.proposals[q]);
      } else {
        MarkKeepsTallies(s.votes, key, q, s.proposals[q]);
      }
    }
  }

  /** A proposal whose tallies are not touched. */
  lemma KeptTallies(votes: map<VoteKey, VoteRecord>, p: Pubkey, proposal: Proposal, proposal': Proposal,
      parts: set<Part>)
    requires Tallied(votes, p, proposal) && Keeps(parts, proposal, proposal') && TallyPart !in parts
    ensures Tallied(votes, p, proposal')
    ensures forall vote :: Fits(proposal, vote) ==> Fits(proposal', vote)
  {
  }

  lemma FreshTallies(s: State, p: Pubkey, proposal: Proposal)
    requires AllTallied(s) && p !in s.proposals && IsFresh(proposal)
    ensures Tallied(s.votes, p, proposal)
  {
    forall i | 0 <= i < |proposal.options|
      ensures proposal.options[i].voteWeight == Sum(s.votes, ApprovalsOf(p, i))
    {
      SumZero(s.votes, ApprovalsOf(p, i));
    }
    SumZero(s.votes, DenialsOf(p));
    SumZero(s.votes, VetoesOf(p));
  }

  lemma MovedTallied(s: State, parts: set<Part>, p: Pubkey, s': State)
    requires AllTallied(s) && Moves(parts, s, p, s') && TallyPart !in parts && s'.votes == s.votes
    ensures AllTallied(s')
  {
    hide Tallied, Fits, WellKept, Keeps, Evolves;
    KeptTallies(s.votes, p, s.proposals[p], s'.proposals[p], parts);
  }

  lemma CreatedTallied(s: State, p: Pubkey, s': State)
    requires AllTallied(s) && Creates(s, p, s') && s'.votes == s.votes
    ensures AllTallied(s')
  {
    hide Tallied, Fits, WellKept, IsFresh;
    FreshTallies(s, p, s'.proposals[p]);
  }

  lemma UntouchedTallied(s: State, s': State)
    requires AllTallied(s) && s'.proposals == s.proposals && s'.votes == s.votes
    ensures AllTallied(s')
  {
  }

  lemma OthersTallied(s: State, ix: Instruction, s': State)
    requires AllTallied(s) && AllWellKept(s.proposals, s.now) && Apply(s, ix) == Ok(s')
    requires !(ix.CastVoteIx? || ix.RelinquishIx?)
    ensures AllTallied(s')
  {
    hide Apply, AllTallied, AllWellKept, Moves, Creates, PartsOf;
    OthersKeepVotes(s, ix, s');
    ProposalMoves(s, ix, s');
    if ix.CreateProposalIx? {
      CreatedTallied(s, ix.p, s');
    } else if MovedBy(ix).Some? {
      OthersLeaveTallies(ix);
      MovedTallied(s, PartsOf(ix), MovedBy(ix).value, s');
    } else {
      UntouchedTallied(s, s');
    }
  }

  lemma OthersLeaveTallies(ix: Instruction)
    requires !(ix.CastVoteIx? || ix.RelinquishIx?)
    ensures TallyPart !in PartsOf(ix)
  {
  }

  lemma AllTalliedStep(s: State, ix: Instruction, s': State)
    requires AllTallied(s) && AllWellKept(s.proposals, s.now) && Apply(s, ix) == Ok(s')
    ensures AllTallied(s')
  {
    hide CastVote, RelinquishVote, SignOff, FinalizeVote, ExecuteTransaction, CompleteProposal, RefundDeposit,
         CreateProposal, AddSignatory, InsertTransaction, RemoveTransaction, CancelProposal,
         CreateTokenOwnerRecord, DepositTokens, WithdrawTokens, RevokeTokens, SetDelegate,
         CreateGovernance, SetGovernanceConfig, AddRequiredSignatory, RemoveRequiredSignatory, AllTallied, AllWellKept;
    match ix
    case CastVoteIx(p, g, voter, owner, signer, vote, addinWeight, source) =>
      CastVoteTallied(s, p, g, voter, owner, signer, vote, addinWeight, source, s');
    case RelinquishIx(p, g, voter, signer) => RelinquishVoteTallied(s, p, g, voter, signer, s');
    case _ => OthersTallied(s, ix, s');
  }
}
