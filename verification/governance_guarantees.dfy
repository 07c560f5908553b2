/** What the invariant means to the people who use a realm. */
module GovernanceGuarantees {
  import opened Outcomes
  import opened Aggregates
  import opened GovernanceState
  import opened GovernanceSteps
  import opened GovernanceFrames
  import opened GovernanceLifecycle
  import opened GovernanceTokens
  import opened GovernanceBallots
  import opened GovernanceActivity
  import opened GovernanceTallies
  import opened GovernanceTransactions
  import opened GovernanceSignatories
  import opened GovernanceCoverage
  import opened GovernanceRuns
  import opened VoteResolution

  // ---- Timestamps --------------------------------------------------------------------------------------

  predicate NotAfter(first: Option<int>, second: Option<int>) {
    first.Some? && second.Some? ==> first.value <= second.value
  }

  function Stamps(q: Proposal, now: int): seq<Option<int>> {
    [Some(q.draftAt), q.signingOffAt, q.votingAt, q.votingCompletedAt, q.executingAt, q.closedAt, Some(now)]
  }

  lemma DatedInOrder(q: Proposal, now: int)
    requires Dated(q, now)
    ensures var stamps := Stamps(q, now);
            forall i, j :: 0 <= i < j < |stamps| ==> NotAfter(stamps[i], stamps[j])
    ensures q.state == Voting ==> q.votingAt.Some?
    ensures q.votingCompletedAt.Some? <==> Rank(q.state) >= 3 && q.state != Cancelled
  {
  }

  /** Wherever two timestamps of a proposal are set, the earlier stage has the earlier one. */
  lemma TimestampsInOrder(s: State, p: Pubkey)
    requires Invariant(s) && p in s.proposals
    ensures var stamps := Stamps(s.proposals[p], s.now);
            forall i, j :: 0 <= i < j < |stamps| ==> NotAfter(stamps[i], stamps[j])
    ensures s.proposals[p].state == Voting ==> s.proposals[p].votingAt.Some?
    ensures s.proposals[p].votingCompletedAt.Some?
        <==> Rank(s.proposals[p].state) >= 3 && s.proposals[p].state != Cancelled
  {
    hide Invariant, Dated, NotAfter, Stamps, SignaturesMatch;
    InvariantParts(s);
    assert WellKept(s.proposals[p], s.now);
    DatedInOrder(s.proposals[p], s.now);
  }

  // ---- Getting tokens back ---------------------------------------------------------------------------

  /** A recorded deposit is always there to be withdrawn, and a revocation to be burned. */
  lemma DepositsArePayable(s: State, key: TokenOwnerKey, ownerSigned: bool, locked: bool, toHolding: bool, amount: nat,
      authorized: bool)
    requires Invariant(s)
    ensures WithdrawTokens(s, key, ownerSigned, locked, toHolding) != Err(InsufficientFunds)
    ensures RevokeTokens(s, key, amount, authorized) != Err(InsufficientFunds)
  {
    hide AllWellKept, VotesCounted, MarksMatch, ActivityCounted, AllTallied, AllAccounted, AllSignaturesCounted,
         AllRequiredCounted, VoteMints;
    assert Surplus(s, key.mint) >= 0;
    if key in s.records {
      SumSplit(s.records, key, DepositsIn(key.mint));
    }
  }

  /** The withdrawal guard, read off the accounts: no standing vote and no active proposal. */
  lemma WithdrawalGuard(s: State, key: TokenOwnerKey)
    requires Invariant(s) && key in s.records
    ensures AssertCanWithdraw(s.records[key], false) == Pass
       <==> && (forall v :: v in s.votes && v.voter == key ==> s.votes[v].isRelinquished)
            && (forall p :: p in s.proposals && s.proposals[p].owner == key ==> !IsActive(s.proposals[p].state))
  {
    hide AllWellKept, MarksMatch, AllTallied, AllAccounted, AllSignaturesCounted, AllRequiredCounted, VoteMints,
         NeverShort;
    assert VotesHeldAt(s.records, key) == Sum(s.votes, HeldBy(key));
    assert OutstandingAt(s.records, key) == Sum(s.proposals, OwnedActiveBy(key));
    if s.records[key].unrelinquishedVotesCount == 0 {
      NoHeldVotes(s, key);
    } else if forall v :: v in s.votes && v.voter == key ==> s.votes[v].isRelinquished {
      SumZero(s.votes, HeldBy(key));
    }
    if p :| p in s.proposals && s.proposals[p].owner == key && IsActive(s.proposals[p].state) {
      ActiveIsCounted(s, p);
    } else {
      SumZero(s.proposals, OwnedActiveBy(key));
    }
  }

  // ---- Taking votes back -----------------------------------------------------------------------------

  /** The one unwrap that can fail: a community veto that stands after the council was removed. */
  predicate CouncilUnwrapFails(s: State, p: Pubkey, g: Pubkey, voter: TokenOwnerKey) {
    && s.realm.councilMint.None? && voter.mint == s.realm.communityMint
    && p in s.proposals && s.proposals[p].governance == g
    && voter in s.records
    && VoteKey(p, voter) in s.votes && s.votes[VoteKey(p, voter)].vote.Veto?
  }

  /**
   In a reachable state relinquishing passes every unwrap and every checked subtraction but
   one: it panics if and only if it needs the mint of a council that was removed.
   */
  lemma RelinquishPanicsExactly(s: State, p: Pubkey, g: Pubkey, voter: TokenOwnerKey, signer: Option<Pubkey>)
    requires Invariant(s)
    ensures RelinquishVote(s, p, g, voter, signer) == Err(Panicked) <==> CouncilUnwrapFails(s, p, g, voter)
  {
    hide Invariant, SubtractVote, ProposalMintForVote, VoteReturned, RetractVote, MarkVote, AllWellKept, AllTallied,
         NeverShort, AllSignaturesCounted, AllRequiredCounted, VoteMints, AllAccounted, MarksMatch,
         ActivityCounted, VotesCounted;
    InvariantParts(s);
    var key := VoteKey(p, voter);
    if key in s.votes {
      VoteMintResolves(s, key);
      if !s.votes[key].isRelinquished {
        StandingVoteIsHeld(s, key);
        VotingHasStarted(s, p);
        TalliesReturnVote(s, key);
        BranchGuards(s, key, s.proposals[p], s.records[voter], s.votes[key], signer);
      }
    }
  }

  lemma TalliesReturnVote(s: State, key: VoteKey)
    requires AllTallied(s) && key in s.votes
    ensures SubtractVote(s.proposals[key.proposal], s.votes[key].vote, s.votes[key].voterWeight).Ok?
  {
    hide SubtractVote, Tallied;
    TalliesCover(s, key);
    SubtractVoteTallies(s.proposals[key.proposal], s.votes[key].vote, s.votes[key].voterWeight);
  }

  /** The populations the vote was cast between are still in the realm. */
  predicate MintsRemain(realm: Realm, voter: TokenOwnerKey, vote: Vote) {
    IsRealmMint(realm, voter.mint) && (vote.Veto? ==> realm.councilMint.Some?)
  }

  /** The vote is decided, or its voter signs while voting is open. */
  predicate Returnable(s: State, proposal: Proposal, governance: Governance, voter: TokenOwnerKey,
      signer: Option<Pubkey>) {
    proposal.state == Voting ==>
      proposal.votingAt.Some? && s.now <= VotingMaxTimeEnd(proposal, governance.config) && SignedFor(s, voter, signer)
  }

  /**
   In a reachable state relinquishing a standing vote succeeds if and only if its mints are
   still in the realm and its own guards allow it.
   */
  lemma StandingVoteIsReturnable(s: State, p: Pubkey, voter: TokenOwnerKey, signer: Option<Pubkey>)
    requires Invariant(s)
    requires VoteKey(p, voter) in s.votes && !s.votes[VoteKey(p, voter)].isRelinquished
    ensures p in s.proposals && s.proposals[p].governance in s.governances
    ensures RelinquishVote(s, p, s.proposals[p].governance, voter, signer).Ok?
       <==> && MintsRemain(s.realm, voter, s.votes[VoteKey(p, voter)].vote)
            && Returnable(s, s.proposals[p], s.governances[s.proposals[p].governance], voter, signer)
  {
    hide Invariant, SubtractVote, ProposalMintForVote, VoteReturned, RetractVote, MarkVote, AllWellKept, AllTallied,
         NeverShort, AllSignaturesCounted, AllRequiredCounted, VoteMints, AllAccounted, MarksMatch, ActivityCounted,
         VotesCounted, AssertOwnerOrDelegateSigned, MintsRemain;
    InvariantParts(s);
    var key := VoteKey(p, voter);
    VoteMintResolves(s, key);
    StandingVoteIsHeld(s, key);
    VotingHasStarted(s, p);
    TalliesReturnVote(s, key);
    BranchGuards(s, key, s.proposals[p], s.records[voter], s.votes[key], signer);
  }

  /** What loading a vote to relinquish it makes of the voter's mint. */
  lemma VoteMintResolves(s: State, key: VoteKey)
    requires VoteMints(s) && key in s.votes
    ensures key.proposal in s.proposals
    ensures var vote := s.votes[key].vote;
            var mint := ProposalMintForVote(s.realm, key.voter.mint, KindOf(vote));
            if MintsRemain(s.realm, key.voter, vote) then
              && IsRealmMint(s.realm, key.voter.mint) && mint == Ok(s.proposals[key.proposal].governingTokenMint)
              && (vote.Veto? ==> s.realm.councilMint.Some?)
            else IsRealmMint(s.realm, key.voter.mint) ==>
              && s.realm.councilMint.None? && key.voter.mint == s.realm.communityMint && vote.Veto?
              && mint == Err(Panicked)
  {
    assert VoteMintFits(s.realm, s.proposals, key, s.votes[key]);
  }

  /** Each branch has one guard left. */
  lemma BranchGuards(s: State, key: VoteKey, proposal: Proposal, record: TokenOwnerRecord, voteRecord: VoteRecord,
      signer: Option<Pubkey>)
    requires record.unrelinquishedVotesCount > 0 && SubtractVote(proposal, voteRecord.vote, voteRecord.voterWeight).Ok?
    ensures RetractVote(s, key, proposal, record, voteRecord, signer) != Err(Panicked)
    ensures MarkVote(s, key, proposal, record, voteRecord) != Err(Panicked)
    ensures RetractVote(s, key, proposal, record, voteRecord, signer).Ok?
       <==> AssertOwnerOrDelegateSigned(key.voter, record, signer) == Pass
    ensures MarkVote(s, key, proposal, record, voteRecord).Ok? <==> proposal.state != Voting
  {
    hide SubtractVote;
  }

  lemma StandingVoteIsHeld(s: State, key: VoteKey)
    requires VotesCounted(s) && key in s.votes && !s.votes[key].isRelinquished
    ensures VotesHeldAt(s.records, key.voter) > 0
  {
    SumSplit(s.votes, key, HeldBy(key.voter));
    assert VotesHeldAt(s.records, key.voter) == Sum(s.votes, HeldBy(key.voter));
  }

  lemma VotingHasStarted(s: State, p: Pubkey)
    requires AllWellKept(s.proposals, s.now) && p in s.proposals
    ensures s.proposals[p].state == Voting ==> s.proposals[p].votingAt.Some?
    ensures Rank(s.proposals[p].state) >= 3 && s.proposals[p].state != Cancelled ==>
        s.proposals[p].votingCompletedAt.Some?
  {
  }

  /** Adding a vote and taking it back leaves the proposal as it was. */
  lemma SubtractVoteUndoesAddVote(p: Proposal, vote: Vote, weight: nat)
    ensures var q := AddVote(p, vote, weight); q.Ok? ==> SubtractVote(q.value, vote, weight) == Ok(p)
  {
    hide AddChoices, SubtractChoices, ShareOf;
    var q := AddVote(p, vote, weight);
    if q.Ok? && vote.Approve? {
      AddChoicesAdds(p.options, vote.choices, weight, 0);
      SubtractChoicesSubtracts(q.value.options, vote.choices, weight, 0);
      assert SubtractChoices(q.value.options, vote.choices, weight, 0).value == p.options;
    }
  }

  lemma AddVoteKeepsRest(p: Proposal, vote: Vote, weight: nat)
    ensures var q := AddVote(p, vote, weight);
            q.Ok? ==> q.value.state == p.state && q.value.votingAt == p.votingAt && q.value.governance == p.governance
                      && q.value.governingTokenMint == p.governingTokenMint
  {
    hide AddChoices;
  }

  lemma RetractUndoesVoted(s: State, p: Pubkey, voter: TokenOwnerKey, signer: Option<Pubkey>, vote: Vote, weight: nat,
      counted: Proposal, record: TokenOwnerRecord, s': State)
    requires p in s.proposals && voter in s.records && VoteKey(p, voter) !in s.votes
    requires AddVote(s.proposals[p], vote, weight) == Ok(counted)
    requires record == s.records[voter].(unrelinquishedVotesCount := s.records[voter].unrelinquishedVotesCount + 1)
    requires AssertOwnerOrDelegateSigned(voter, s.records[voter], signer) == Pass
    requires s'.votes == s.votes[VoteKey(p, voter) := VoteRecord(weight, vote, false)]
    requires s'.records == s.records[voter := record] && s'.proposals == s.proposals[p := counted]
    requires s' == s.(votes := s'.votes, records := s'.records, proposals := s'.proposals)
    ensures RetractVote(s', VoteKey(p, voter), counted, record, VoteRecord(weight, vote, false), signer) == Ok(s)
  {
    hide AddVote, SubtractVote;
    SubtractVoteUndoesAddVote(s.proposals[p], vote, weight);
    var key := VoteKey(p, voter);
    assert s'.votes - {key} == s.votes;
    assert s'.records[voter := s.records[voter]] == s.records;
    assert s'.proposals[p := s.proposals[p]] == s.proposals;
  }

  /** A vote that did not decide the proposal can be taken back at once, and nothing is left of it. */
  lemma RelinquishUndoesCast(s: State, p: Pubkey, g: Pubkey, voter: TokenOwnerKey, owner: TokenOwnerKey,
      signer: Option<Pubkey>, vote: Vote, addinWeight: Option<nat>, source: MaxWeightSource, s': State)
    requires CastVote(s, p, g, voter, owner, signer, vote, addinWeight, source) == Ok(s')
    requires p in s'.proposals && s'.proposals[p].state == Voting
    ensures RelinquishVote(s', p, g, voter, signer) == Ok(s)
  {
    hide CastVote, Count, AddVote, RetractVote, MarkVote, AssertValidVote, ProposalMintForVote, VoterWeight,
         IsRealmMint, AssertOwnerOrDelegateSigned;
    CastVoteEffect(s, p, g, voter, owner, signer, vote, addinWeight, source, s');
    BallotFacts(s, p, g, voter, signer, vote, addinWeight, source);
    CountKeepsGovernance(s, p, g, voter, signer, vote, addinWeight, source);
    var ballot := Count(s, p, g, voter, signer, vote, addinWeight, source).value;
    AddVoteKeepsRest(s.proposals[p], vote, ballot.weight);
    assert ballot.tipped.None?;
    RetractUndoesVoted(s, p, voter, signer, vote, ballot.weight, ballot.counted, ballot.record, s');
  }

  // ---- Authority ------------------------------------------------------------------------------------------

  /** The voter or the voter's delegate signed. */
  predicate SignedFor(s: State, voter: TokenOwnerKey, signer: Option<Pubkey>) {
    voter in s.records && AssertOwnerOrDelegateSigned(voter, s.records[voter], signer) == Pass
  }

  /**
   What may happen to one vote record: it stays, it is only marked, or its voter signed for
   casting or retracting it.
   */
  predicate VoteRespected(s: State, ix: Instruction, s': State, key: VoteKey) {
    && (key !in s.votes && key in s'.votes ==>
          ix.CastVoteIx? && key == VoteKey(ix.p, ix.voter) && SignedFor(s, ix.voter, ix.signer)
              && s'.votes[key].vote == ix.vote)
    && (key in s.votes && key !in s'.votes ==>
          ix.RelinquishIx? && key == VoteKey(ix.p, ix.voter) && SignedFor(s, ix.voter, ix.signer))
    && (key in s.votes && key in s'.votes ==>
          && s'.votes[key].vote == s.votes[key].vote && s'.votes[key].voterWeight == s.votes[key].voterWeight
          && (s.votes[key].isRelinquished ==> s'.votes[key].isRelinquished))
  }

  lemma CastVoteRespects(s: State, ix: Instruction, s': State, key: VoteKey)
    requires ix.CastVoteIx?
    requires CastVote(s, ix.p, ix.g, ix.voter, ix.owner, ix.signer, ix.vote, ix.addinWeight, ix.source) == Ok(s')
    ensures VoteRespected(s, ix, s', key)
  {
    hide CastVote, Count, AssertValidVote, AddVote, ProposalMintForVote, VoterWeight, AssertOwnerOrDelegateSigned;
    CastVoteEffect(s, ix.p, ix.g, ix.voter, ix.owner, ix.signer, ix.vote, ix.addinWeight, ix.source, s');
    BallotFacts(s, ix.p, ix.g, ix.voter, ix.signer, ix.vote, ix.addinWeight, ix.source);
  }

  lemma RetractionIsSigned(s: State, p: Pubkey, g: Pubkey, voter: TokenOwnerKey, signer: Option<Pubkey>, s': State)
    requires RelinquishVote(s, p, g, voter, signer) == Ok(s')
    ensures p in s.proposals && (s.proposals[p].state == Voting ==> SignedFor(s, voter, signer))
  {
    hide ProposalMintForVote, SubtractVote, AssertOwnerOrDelegateSigned, MarkVote;
    if s.proposals[p].state == Voting && !SignedFor(s, voter, signer) {
      MarkNeedsDecision(s, VoteKey(p, voter), s.proposals[p], s.records[voter], s.votes[VoteKey(p, voter)]);
    }
  }

  lemma MarkNeedsDecision(s: State, key: VoteKey, proposal: Proposal, record: TokenOwnerRecord, voteRecord: VoteRecord)
    requires proposal.state == Voting
    ensures MarkVote(s, key, proposal, record, voteRecord).Err?
  {
  }

  lemma RelinquishVoteRespects(s: State, ix: Instruction, s': State, key: VoteKey)
    requires ix.RelinquishIx? && RelinquishVote(s, ix.p, ix.g, ix.voter, ix.signer) == Ok(s')
    ensures VoteRespected(s, ix, s', key)
  {
    hide RelinquishVote, SubtractVote, AssertOwnerOrDelegateSigned, VoteReturned;
    RelinquishVoteEffect(s, ix.p, ix.g, ix.voter, ix.signer, s');
    RetractionIsSigned(s, ix.p, ix.g, ix.voter, ix.signer, s');
  }

  /** Nobody else can cast, change or retract a vote, and none changes its content or weight. */
  lemma VotesBelongToVoters(s: State, ix: Instruction, s': State, key: VoteKey)
    requires Apply(s, ix) == Ok(s')
    ensures VoteRespected(s, ix, s', key)
  {
    hide CastVote, RelinquishVote, SignOff, FinalizeVote, ExecuteTransaction, CompleteProposal, RefundDeposit,
         CreateProposal, AddSignatory, InsertTransaction, RemoveTransaction, CancelProposal,
         CreateTokenOwnerRecord, DepositTokens, WithdrawTokens, RevokeTokens, SetDelegate,
         CreateGovernance, SetGovernanceConfig, AddRequiredSignatory, RemoveRequiredSignatory, SignedFor;
    if ix.CastVoteIx? {
      CastVoteRespects(s, ix, s', key);
    } else if ix.RelinquishIx? {
      RelinquishVoteRespects(s, ix, s', key);
    } else {
      Frames(s, ix, s');
    }
  }

  /**
   A deposit goes down only by a withdrawal its owner signed, to zero, or by an authorized
   revocation, by its amount.
   */
  lemma DepositsBelongToOwners(s: State, ix: Instruction, s': State, key: TokenOwnerKey)
    requires Apply(s, ix) == Ok(s')
    ensures DepositAt(s'.records, key) < DepositAt(s.records, key) ==>
              || (ix.WithdrawIx? && ix.key == key && ix.ownerSigned && DepositAt(s'.records, key) == 0)
              || (ix.RevokeIx? && ix.key == key && ix.authorized
                  && DepositAt(s'.records, key) == DepositAt(s.records, key) - ix.amount)
  {
    hide Apply;
    if IsTokenInstruction(ix) {
      DepositChange(s, ix, s');
      if ix.WithdrawIx? || ix.RevokeIx? {
        TokensNeedAuthority(s, ix, s');
      }
    } else {
      FieldFrames(s, ix, s');
    }
  }

  lemma TokensNeedAuthority(s: State, ix: Instruction, s': State)
    requires Apply(s, ix) == Ok(s') && (ix.WithdrawIx? || ix.RevokeIx?)
    ensures ix.WithdrawIx? ==> ix.ownerSigned && DepositAt(s'.records, ix.key) == 0
    ensures ix.RevokeIx? ==> ix.authorized
  {
    hide CreateTokenOwnerRecord, DepositTokens, WithdrawTokens, RevokeTokens, SetDelegate, CreateGovernance,
         SetGovernanceConfig, AddRequiredSignatory, RemoveRequiredSignatory, CreateProposal, AddSignatory, SignOff,
         InsertTransaction, RemoveTransaction, CancelProposal, CastVote, RelinquishVote, FinalizeVote,
         ExecuteTransaction, CompleteProposal, RefundDeposit;
    if ix.WithdrawIx? {
      WithdrawNeedsOwner(s, ix.key, ix.ownerSigned, ix.locked, ix.toHolding, s');
    } else {
      RevokeNeedsAuthority(s, ix.key, ix.amount, ix.authorized, s');
    }
  }

  lemma WithdrawNeedsOwner(s: State, key: TokenOwnerKey, ownerSigned: bool, locked: bool, toHolding: bool, s': State)
    requires WithdrawTokens(s, key, ownerSigned, locked, toHolding) == Ok(s')
    ensures ownerSigned && DepositAt(s'.records, key) == 0
  {
  }

  lemma RevokeNeedsAuthority(s: State, key: TokenOwnerKey, amount: nat, authorized: bool, s': State)
    requires RevokeTokens(s, key, amount, authorized) == Ok(s')
    ensures authorized
  {
  }

  // ---- Coverage --------------------------------------------------------------------------------------------

  /** No step of the run takes plugin weight beyond the deposit or revokes tokens below a standing vote. */
  predicate AlwaysKeepsBacking(s: State, instructions: seq<Instruction>, mint: Pubkey)
    decreases |instructions|
  {
    instructions == []
    || (var (prefix, ix) := (instructions[..|instructions| - 1], instructions[|instructions| - 1]);
        AlwaysKeepsBacking(s, prefix, mint)
            && (Apply(Run(s, prefix), ix).Ok? ==> KeepsBacking(Run(s, prefix), ix, mint)))
  }

  lemma {:induction false} BackedOverRuns(s: State, instructions: seq<Instruction>, mint: Pubkey)
    requires Invariant(s) && Backed(s, mint) && AlwaysKeepsBacking(s, instructions, mint)
    ensures Backed(Run(s, instructions), mint)
    decreases |instructions|
  {
    hide Apply, Invariant, Backed, KeepsBacking;
    if instructions != [] {
      var (prefix, ix) := (instructions[..|instructions| - 1], instructions[|instructions| - 1]);
      BackedOverRuns(s, prefix, mint);
      RunInvariant(s, prefix);
      InvariantParts(Run(s, prefix));
      if Apply(Run(s, prefix), ix).Ok? {
        BackedStep(Run(s, prefix), ix, Apply(Run(s, prefix), ix).value, mint);
      }
    }
  }

  /**
   While a proposal is in voting, no option and the deny option together outweigh the tokens
   in the holding account.
   */
  lemma TalliesAreHeldTokens(s: State, instructions: seq<Instruction>, p: Pubkey, i: nat)
    requires Invariant(s) && p in Run(s, instructions).proposals
    requires var mint := Run(s, instructions).proposals[p].governingTokenMint;
             Backed(s, mint) && AlwaysKeepsBacking(s, instructions, mint)
    requires Run(s, instructions).proposals[p].state == Voting && i < |Run(s, instructions).proposals[p].options|
    ensures var s' := Run(s, instructions);
            s'.proposals[p].options[i].voteWeight + DenyWeight(s'.proposals[p])
                <= HoldingOf(s', s'.proposals[p].governingTokenMint)
  {
    hide Invariant, Run, Next, AlwaysKeepsBacking, Backed, AllTallied, MarksMatch, VoteMints, NeverShort;
    var s' := Run(s, instructions);
    var mint := s'.proposals[p].governingTokenMint;
    RunInvariant(s, instructions);
    BackedOverRuns(s, instructions, mint);
    InvariantParts(s');
    NeverShortAt(s', mint);
    VotesAreTokens(s', p);
    TalliesWithinElectorate(s', p, i);
  }

  lemma NeverShortAt(s: State, mint: Pubkey)
    requires NeverShort(s)
    ensures Surplus(s, mint) >= 0
  {
  }
}
