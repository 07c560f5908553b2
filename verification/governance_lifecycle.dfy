/** A proposal's life: states only move forward, decided tallies are frozen, timestamps are in order. */
module GovernanceLifecycle {
  import opened Outcomes
  import opened GovernanceState
  import opened GovernanceSteps
  import opened GovernanceFrames
  import opened VoteResolution

  function Rank(state: ProposalState): nat {
    match state
    case Draft => 0
    case SigningOff => 1
    case Voting => 2
    case Succeeded => 3
    case Executing | ExecutingWithErrors => 4
    case Completed | Cancelled | Defeated | Vetoed => 5
  }

  predicate OptionEvolves(o: ProposalOption, o': ProposalOption, state: ProposalState) {
    && o'.optionLabel == o.optionLabel
    && o.transactionsNextIndex <= o'.transactionsNextIndex
    && o.transactionsExecutedCount <= o'.transactionsExecutedCount
    && (Rank(state) >= 1 ==>
        o'.transactionsCount == o.transactionsCount && o'.transactionsNextIndex == o.transactionsNextIndex)
    && (Rank(state) >= 3 ==> o'.voteWeight == o.voteWeight && o'.voteResult == o.voteResult)
  }

  predicate OptionsEvolve(options: seq<ProposalOption>, options': seq<ProposalOption>, state: ProposalState) {
    && |options| == |options'|
    && forall i :: 0 <= i < |options| ==> OptionEvolves(options[i], options'[i], state)
  }

  /** What any number of instructions may have done to a proposal. */
  predicate Evolves(p: Proposal, p': Proposal) {
    && p'.governance == p.governance && p'.governingTokenMint == p.governingTokenMint && p'.owner == p.owner
    && p'.voteType == p.voteType && p'.draftAt == p.draftAt
    && (p'.state == p.state || Rank(p.state) < Rank(p'.state))
    && OptionsEvolve(p.options, p'.options, p.state)
    && p'.denyVoteWeight.Some? == p.denyVoteWeight.Some?
    && (Rank(p.state) >= 1 ==> p'.signatoriesCount == p.signatoriesCount)
    && (Rank(p.state) >= 3 ==> p'.denyVoteWeight == p.denyVoteWeight && p'.vetoVoteWeight == p.vetoVoteWeight)
  }

  function Or(stamp: Option<int>, default: int): int {
    if stamp.Some? then stamp.value else default
  }

  /** The timestamps that are set are in order and not in the future, and the state says which ones are set. */
  predicate Dated(p: Proposal, now: int) {
    && (var signing := Or(p.signingOffAt, p.draftAt);
        var voting := Or(p.votingAt, signing);
        var decided := Or(p.votingCompletedAt, voting);
        var executing := Or(p.executingAt, decided);
        var closed := Or(p.closedAt, executing);
        p.draftAt <= signing <= voting <= decided <= executing <= closed <= now)
    && (p.signingOffAt.Some? <==> p.state != Draft && (p.state == Cancelled ==> p.signingOffAt.Some?))
    && (p.votingAt.Some? <==> Rank(p.state) >= 2 && (p.state == Cancelled ==> p.votingAt.Some?))
    && (p.votingCompletedAt.Some? <==> Rank(p.state) >= 3 && p.state != Cancelled)
    && (p.executingAt.Some? ==> Rank(p.state) >= 4) && (p.state == Executing ==> p.executingAt.Some?)
    && (p.closedAt.Some? ==> p.state == Completed || p.state == Cancelled)
    && (p.state == Cancelled ==> p.closedAt.Some?)
    && p.state != ExecutingWithErrors
  }

  /** How many signatures a state needs. */
  predicate SignaturesMatch(p: Proposal) {
    match p.state
    case Draft => p.signatoriesSignedOffCount == 0
    case SigningOff => 0 < p.signatoriesSignedOffCount < p.signatoriesCount
    case Cancelled => p.signatoriesSignedOffCount <= p.signatoriesCount
    case _ => p.signatoriesSignedOffCount == p.signatoriesCount
  }

  predicate WellKept(p: Proposal, now: int) {
    Dated(p, now) && SignaturesMatch(p)
  }

  /** The parts of a proposal an instruction may work on. */
  datatype Part = SignaturePart | TallyPart | DecisionPart | TransactionPart | CompletionPart

  predicate SameTally(o: ProposalOption, o': ProposalOption) {
    o'.voteWeight == o.voteWeight
  }

  predicate SameTransactions(o: ProposalOption, o': ProposalOption) {
    && o'.transactionsCount == o.transactionsCount
    && o'.transactionsExecutedCount == o.transactionsExecutedCount
    && o'.transactionsNextIndex == o.transactionsNextIndex
  }

  /** All parts of a proposal but the given ones stay as they are. */
  predicate Keeps(parts: set<Part>, p: Proposal, p': Proposal) {
    && |p.options| == |p'.options|
    && (SignaturePart !in parts ==>
          && p'.signatoriesCount == p.signatoriesCount && p'.signatoriesSignedOffCount == p.signatoriesSignedOffCount
          && (p.state == Draft || p.state == SigningOff ==> p'.state == p.state || p'.state == Cancelled))
    && (TallyPart !in parts ==>
          && p'.denyVoteWeight == p.denyVoteWeight && p'.vetoVoteWeight == p.vetoVoteWeight
          && forall i :: 0 <= i < |p.options| ==> SameTally(p.options[i], p'.options[i]))
    && (DecisionPart !in parts ==>
          IsActive(p'.state) == IsActive(p.state))
    && (CompletionPart !in parts ==>
          p'.state == Completed ==> p.state == Completed)
    && (TransactionPart !in parts ==>
          && (p'.state == Executing ==> p.state == Executing)
          && forall i :: 0 <= i < |p.options| ==> SameTransactions(p.options[i], p'.options[i]))
  }

  /** A proposal becomes a later stage of itself by work on the given parts. */
  predicate Advances(parts: set<Part>, p: Proposal, p': Proposal, now: int) {
    Evolves(p, p') && WellKept(p', now) && Keeps(parts, p, p')
  }

  predicate AllEvolve(before: map<Pubkey, Proposal>, after: map<Pubkey, Proposal>) {
    forall p :: p in before ==> p in after && Evolves(before[p], after[p])
  }

  predicate AllWellKept(proposals: map<Pubkey, Proposal>, now: int) {
    forall p :: p in proposals ==> WellKept(proposals[p], now)
  }

  /** One proposal advances and the others stay. */
  predicate Moves(parts: set<Part>, s: State, p: Pubkey, s': State) {
    && p in s.proposals && p in s'.proposals
    && s'.proposals == s.proposals[p := s'.proposals[p]]
    && Advances(parts, s.proposals[p], s'.proposals[p], s'.now)
  }

  predicate IsFresh(p: Proposal) {
    && p.state == Draft && p.signatoriesCount == 0 && p.vetoVoteWeight == 0
    && (p.denyVoteWeight.Some? ==> p.denyVoteWeight.value == 0)
    && forall o :: o in p.options ==>
         o.voteWeight == 0 && o.voteResult == NoResult && o.transactionsCount == 0
             && o.transactionsExecutedCount == 0 && o.transactionsNextIndex == 0
  }

  predicate Creates(s: State, p: Pubkey, s': State) {
    && p !in s.proposals && p in s'.proposals
    && s'.proposals == s.proposals[p := s'.proposals[p]]
    && IsFresh(s'.proposals[p])
    && WellKept(s'.proposals[p], s'.now)
  }

  // ---- The single moves of a proposal ---------------------------------------------------------

  lemma SignaturesMove(p: Proposal, now: int)
    requires WellKept(p, now) && (p.state == Draft || p.state == SigningOff)
    ensures p.signatoriesCount > 0 ==> Advances({SignaturePart}, p, SignatorySigned(p, now), now)
    ensures p.signatoriesCount == 0 ==> Advances({SignaturePart}, p, OwnerSigned(p, now), now)
  {
  }

  lemma SignatoryMoves(p: Proposal, now: int)
    requires WellKept(p, now) && p.state == Draft
    ensures Advances({SignaturePart}, p, WithSignatory(p), now)
  {
  }

  lemma VotesMove(p: Proposal, vote: Vote, weight: nat, now: int)
    requires WellKept(p, now) && p.state == Voting
    ensures var q := AddVote(p, vote, weight);
            q.Ok? ==> q.value.state == Voting && Advances({TallyPart}, p, q.value, now)
    ensures var q := SubtractVote(p, vote, weight); q.Ok? ==> Advances({TallyPart}, p, q.value, now)
  {
    hide AddChoices, SubtractChoices, ShareOf;
    if vote.Approve? {
      AddChoicesAdds(p.options, vote.choices, weight, 0);
      SubtractChoicesSubtracts(p.options, vote.choices, weight, 0);
    }
  }

  lemma TippingMoves(p: Proposal, max: nat, tipping: VoteTipping, now: int, threshold: VoteThreshold, kind: VoteKind)
    requires WellKept(p, now) && p.state == Voting
    ensures var q := TryTipVote(p, max, tipping, now, threshold, kind);
            q.Ok? && q.value.Some? ==> Rank(q.value.value.state) >= 3 && Advances({DecisionPart}, p, q.value.value, now)
  {
    hide MinVoteThresholdWeight, TippedVerdict;
  }

  lemma FinalizationMoves(p: Proposal, max: nat, config: GovernanceConfig, now: int, threshold: VoteThreshold)
    requires WellKept(p, now)
    ensures var q := FinalizedVote(p, max, config, now, threshold);
            q.Ok? ==>
              p.state == Voting && Rank(q.value.state) >= 3 && Advances({DecisionPart, CompletionPart}, p, q.value, now)
  {
    hide MinVoteThresholdWeight, Best, CountAt;
  }

  lemma ExecutionMoves(p: Proposal, option: nat, transaction: ProposalTransaction, config: GovernanceConfig, now: int)
    requires WellKept(p, now) && option < |p.options|
    requires AssertCanExecute(p, option, transaction, config, now) == Pass
    ensures var q := CountExecuted(p, option, now);
            q.Ok? ==> Advances({TransactionPart, CompletionPart}, p, q.value, now)
  {
    hide AllExecuted;
  }

  lemma ClosingMoves(p: Proposal, now: int)
    requires WellKept(p, now)
    ensures IsActive(p.state) ==> Advances({DecisionPart}, p, Closed(p, Cancelled, now), now)
    ensures p.state == Succeeded ==> Advances({CompletionPart}, p, Closed(p, Completed, now), now)
  {
  }

  lemma EditedOptionMoves(p: Proposal, option: nat, o: ProposalOption, now: int)
    requires WellKept(p, now) && p.state == Draft && option < |p.options|
    requires OptionEvolves(p.options[option], o, Draft) && SameTally(p.options[option], o)
    ensures Advances({TransactionPart}, p, WithOption(p, option, o), now)
  {
  }

  lemma EvolvesTransitive(p: Proposal, q: Proposal, r: Proposal)
    requires Evolves(p, q) && Evolves(q, r)
    ensures Evolves(p, r)
  {
  }

  lemma AdvancesTransitive(p: Proposal, parts: set<Part>, q: Proposal, parts': set<Part>, r: Proposal, now: int)
    requires Advances(parts, p, q, now) && Advances(parts', q, r, now)
    ensures Advances(parts + parts', p, r, now)
  {
  }

  lemma AdvancesMore(parts: set<Part>, more: set<Part>, p: Proposal, q: Proposal, now: int)
    requires Advances(parts, p, q, now) && parts <= more
    ensures Advances(more, p, q, now)
  {
  }

  lemma AdvancesKeeps(parts: set<Part>, p: Proposal, q: Proposal, now: int)
    requires Advances(parts, p, q, now)
    ensures Evolves(p, q) && WellKept(q, now) && Keeps(parts, p, q)
  {
  }

  lemma StaysPut(p: Proposal, now: int)
    ensures Evolves(p, p)
    ensures WellKept(p, now) ==> Advances({TallyPart}, p, p, now)
  {
  }

  lemma AgeKeeps(p: Proposal, now: int, later: int)
    requires WellKept(p, now) && now <= later
    ensures WellKept(p, later)
  {
  }

  // ---- The moves of an instruction --------------------------------------------------------------

  lemma AddSignatoryMoves(s: State, p: Pubkey, g: Pubkey, signatory: Pubkey, owner: TokenOwnerKey,
      signer: Option<Pubkey>, s': State)
    requires AllWellKept(s.proposals, s.now) && AddSignatory(s, p, g, signatory, owner, signer) == Ok(s')
    ensures Moves({SignaturePart}, s, p, s')
  {
    hide AuthorizeOwner, ShowRequired, WithSignatory, WellKept, Advances;
    SignatoryMoves(s.proposals[p], s.now);
  }

  lemma SignOffMoves(s: State, p: Pubkey, g: Pubkey, signatory: Pubkey, isSigner: bool, owner: TokenOwnerKey, s': State)
    requires AllWellKept(s.proposals, s.now) && SignOff(s, p, g, signatory, isSigner, owner) == Ok(s')
    ensures Moves({SignaturePart}, s, p, s')
  {
    hide SignOff, OwnerSigned, SignatorySigned, WellKept, Advances;
    SignOffEffect(s, p, g, signatory, isSigner, owner, s');
    SignaturesMove(s.proposals[p], s.now);
  }

  lemma InsertTransactionMoves(s: State, p: Pubkey, g: Pubkey, owner: TokenOwnerKey, signer: Option<Pubkey>,
      option: nat, index: nat, s': State)
    requires AllWellKept(s.proposals, s.now) && InsertTransaction(s, p, g, owner, signer, option, index) == Ok(s')
    ensures Moves({TransactionPart}, s, p, s')
  {
    hide AuthorizeOwner, WithOption, WellKept, Advances;
    var proposal := s.proposals[p];
    EditedOptionMoves(proposal, option, CountInserted(proposal.options[option], index).value, s.now);
  }

  lemma RemoveTransactionMoves(s: State, p: Pubkey, owner: TokenOwnerKey, signer: Option<Pubkey>, option: nat,
      index: nat, s': State)
    requires AllWellKept(s.proposals, s.now) && RemoveTransaction(s, p, owner, signer, option, index) == Ok(s')
    ensures Moves({TransactionPart}, s, p, s')
  {
    hide AuthorizeOwner, WithOption, WellKept, Advances;
    var o := s.proposals[p].options[option];
    EditedOptionMoves(s.proposals[p], option, o.(transactionsCount := o.transactionsCount - 1), s.now);
  }

  lemma CancelProposalMoves(s: State, p: Pubkey, g: Pubkey, owner: TokenOwnerKey, signer: Option<Pubkey>, s': State)
    requires AllWellKept(s.proposals, s.now) && CancelProposal(s, p, g, owner, signer) == Ok(s')
    ensures Moves({DecisionPart}, s, p, s')
  {
    hide LoadProposalOwner, VotingMaxTimeEnd, Closed, WellKept, Advances;
    ClosingMoves(s.proposals[p], s.now);
  }

  lemma CountMoves(s: State, p: Pubkey, g: Pubkey, voter: TokenOwnerKey, signer: Option<Pubkey>, vote: Vote,
      addinWeight: Option<nat>, source: MaxWeightSource)
    requires AllWellKept(s.proposals, s.now)
    ensures var r := Count(s, p, g, voter, signer, vote, addinWeight, source);
            r.Ok? ==>
              && p in s.proposals && s.proposals[p].state == Voting
              && Advances({TallyPart, DecisionPart}, s.proposals[p],
                          if r.value.tipped.Some? then r.value.tipped.value else r.value.counted, s.now)
              && (r.value.tipped.Some? ==> Keeps({DecisionPart}, r.value.counted, r.value.tipped.value))
  {
    hide AddVote, TryTipVote, WellKept, Advances, AssertValidVote, ResolveMaxVoterWeight, ResolveVoteThreshold,
         VoteTippingFor,
         AssertOwnerOrDelegateSigned, ProposalMintForVote, VotingBaseTimeEnd, VotingMaxTimeEnd;
    var r := Count(s, p, g, voter, signer, vote, addinWeight, source);
    if r.Ok? {
      var (counted, kind) := (r.value.counted, KindOf(vote));
      VotesMove(s.proposals[p], vote, r.value.weight, s.now);
      AdvancesMore({TallyPart}, {TallyPart, DecisionPart}, s.proposals[p], counted, s.now);
      if r.value.tipped.Some? {
        var threshold := ResolveVoteThreshold(s.governances[g], s.realm, voter.mint, kind).value;
        var tipping := VoteTippingFor(s.governances[g], s.realm, voter.mint).value;
        AdvancesKeeps({TallyPart}, s.proposals[p], counted, s.now);
        TippingMoves(counted, ResolveMaxVoterWeight(counted, source, kind).value, tipping, s.now, threshold, kind);
        AdvancesKeeps({DecisionPart}, counted, r.value.tipped.value, s.now);
        AdvancesTransitive(s.proposals[p], {TallyPart}, counted, {DecisionPart}, r.value.tipped.value, s.now);
        assert {TallyPart} + {DecisionPart} == {TallyPart, DecisionPart};
      }
    }
  }

  lemma CastVoteMoves(s: State, p: Pubkey, g: Pubkey, voter: TokenOwnerKey, owner: TokenOwnerKey,
      signer: Option<Pubkey>, vote: Vote, addinWeight: Option<nat>, source: MaxWeightSource, s': State)
    requires AllWellKept(s.proposals, s.now)
    requires CastVote(s, p, g, voter, owner, signer, vote, addinWeight, source) == Ok(s')
    ensures Moves({TallyPart, DecisionPart}, s, p, s')
  {
    hide CastVote, Count, WellKept, Advances;
    CastVoteEffect(s, p, g, voter, owner, signer, vote, addinWeight, source, s');
    CountMoves(s, p, g, voter, signer, vote, addinWeight, source);
  }

  lemma RelinquishVoteMoves(s: State, p: Pubkey, g: Pubkey, voter: TokenOwnerKey, signer: Option<Pubkey>, s': State)
    requires AllWellKept(s.proposals, s.now) && RelinquishVote(s, p, g, voter, signer) == Ok(s')
    ensures Moves({TallyPart}, s, p, s')
  {
    hide RelinquishVote, SubtractVote, VoteReturned, WellKept, Advances;
    RelinquishVoteEffect(s, p, g, voter, signer, s');
    var record := s.votes[VoteKey(p, voter)];
    StaysPut(s.proposals[p], s.now);
    if s.proposals[p].state == Voting {
      VotesMove(s.proposals[p], record.vote, record.voterWeight, s.now);
    }
  }

  lemma FinalizeVoteMoves(s: State, p: Pubkey, g: Pubkey, owner: TokenOwnerKey, mint: Pubkey, source: MaxWeightSource,
      s': State)
    requires AllWellKept(s.proposals, s.now) && FinalizeVote(s, p, g, owner, mint, source) == Ok(s')
    ensures Moves({DecisionPart, CompletionPart}, s, p, s')
  {
    hide LoadProposalOwner, ResolveMaxVoterWeight, ResolveVoteThreshold, FinalizedVote, WellKept, Advances;
    var proposal := s.proposals[p];
    FinalizationMoves(proposal, ResolveMaxVoterWeight(proposal, source, Electorate).value, s.governances[g].config,
                      s.now, ResolveVoteThreshold(s.governances[g], s.realm, mint, Electorate).value);
  }

  lemma ExecuteTransactionMoves(s: State, p: Pubkey, g: Pubkey, option: nat, index: nat, invoked: bool, s': State)
    requires AllWellKept(s.proposals, s.now) && ExecuteTransaction(s, p, g, option, index, invoked) == Ok(s')
    ensures Moves({TransactionPart, CompletionPart}, s, p, s')
  {
    hide CountExecuted, WellKept, Advances;
    ExecutionMoves(s.proposals[p], option, s.transactions[TransactionKey(p, option, index)], s.governances[g].config,
        s.now);
  }

  lemma CompleteProposalMoves(s: State, p: Pubkey, owner: TokenOwnerKey, signer: Option<Pubkey>, s': State)
    requires AllWellKept(s.proposals, s.now) && CompleteProposal(s, p, owner, signer) == Ok(s')
    ensures Moves({CompletionPart}, s, p, s')
  {
    hide AuthorizeOwner, Closed, WellKept, Advances;
    ClosingMoves(s.proposals[p], s.now);
  }

  lemma CreateProposalStarts(s: State, p: Pubkey, g: Pubkey, mint: Pubkey, owner: TokenOwnerKey, signer: Option<Pubkey>,
      payer: Pubkey, addinWeight: Option<nat>, labels: seq<string>, voteType: VoteType, useDeny: bool, s': State)
    requires CreateProposal(s, p, g, mint, owner, signer, payer, addinWeight, labels, voteType, useDeny) == Ok(s')
    ensures Creates(s, p, s')
  {
    hide AssertCanCreateProposal, AssertValidProposalOptions, ResolveVoteThreshold, ProposalDepositAmount;
  }

  // ---- Every instruction ----------------------------------------------------------------------------

  /** The proposal an instruction may move on. */
  function MovedBy(ix: Instruction): Option<Pubkey> {
    match ix
    case AddSignatoryIx(p, _, _, _, _) => Some(p)
    case SignOffIx(p, _, _, _, _) => Some(p)
    case InsertTransactionIx(p, _, _, _, _, _) => Some(p)
    case RemoveTransactionIx(p, _, _, _, _) => Some(p)
    case CancelIx(p, _, _, _) => Some(p)
    case CastVoteIx(p, _, _, _, _, _, _, _) => Some(p)
    case RelinquishIx(p, _, _, _) => Some(p)
    case FinalizeIx(p, _, _, _, _) => Some(p)
    case ExecuteIx(p, _, _, _, _) => Some(p)
    case CompleteIx(p, _, _) => Some(p)
    case _ => None
  }

  function PartsOf(ix: Instruction): set<Part> {
    if ix.AddSignatoryIx? || ix.SignOffIx? then {SignaturePart}
    else if ix.InsertTransactionIx? || ix.RemoveTransactionIx? then {TransactionPart}
    else if ix.ExecuteIx? then {TransactionPart, CompletionPart}
    else if ix.CompleteIx? then {CompletionPart}
    else if ix.CancelIx? then {DecisionPart}
    else if ix.FinalizeIx? then {DecisionPart, CompletionPart}
    else if ix.RelinquishIx? then {TallyPart}
    else if ix.CastVoteIx? then {TallyPart, DecisionPart}
    else {}
  }

  predicate Progress(s: State, ix: Instruction, s': State) {
    match MovedBy(ix)
    case Some(p) => Moves(PartsOf(ix), s, p, s')
    case None => if ix.CreateProposalIx? then Creates(s, ix.p, s') else s'.proposals == s.proposals
  }

  lemma DraftingProgress(s: State, ix: Instruction, s': State)
    requires AllWellKept(s.proposals, s.now) && Apply(s, ix) == Ok(s')
    requires ix.CreateProposalIx? || ix.AddSignatoryIx? || ix.SignOffIx? || ix.InsertTransactionIx?
        || ix.RemoveTransactionIx?
    ensures Progress(s, ix, s')
  {
    hide CastVote, RelinquishVote, SignOff, FinalizeVote, ExecuteTransaction, CompleteProposal, RefundDeposit,
         CreateProposal, AddSignatory, InsertTransaction, RemoveTransaction, CancelProposal,
         CreateTokenOwnerRecord, DepositTokens, WithdrawTokens, RevokeTokens, SetDelegate,
         CreateGovernance, SetGovernanceConfig, AddRequiredSignatory, RemoveRequiredSignatory, Moves, Creates,
         AllWellKept;
    match ix
    case CreateProposalIx(p, g, mint, owner, signer, payer, addinWeight, labels, voteType, useDeny) =>
      CreateProposalStarts(s, p, g, mint, owner, signer, payer, addinWeight, labels, voteType, useDeny, s');
    case AddSignatoryIx(p, g, signatory, owner, signer) => AddSignatoryMoves(s, p, g, signatory, owner, signer, s');
    case SignOffIx(p, g, signatory, isSigner, owner) => SignOffMoves(s, p, g, signatory, isSigner, owner, s');
    case InsertTransactionIx(p, g, owner, signer, option, index) =>
      InsertTransactionMoves(s, p, g, owner, signer, option, index, s');
    case RemoveTransactionIx(p, owner, signer, option, index) =>
      RemoveTransactionMoves(s, p, owner, signer, option, index, s');
  }

  lemma DecidingProgress(s: State, ix: Instruction, s': State)
    requires AllWellKept(s.proposals, s.now) && Apply(s, ix) == Ok(s')
    requires ix.CancelIx? || ix.CastVoteIx? || ix.RelinquishIx? || ix.FinalizeIx? || ix.ExecuteIx? || ix.CompleteIx?
    ensures Progress(s, ix, s')
  {
    hide CastVote, RelinquishVote, SignOff, FinalizeVote, ExecuteTransaction, CompleteProposal, RefundDeposit,
         CreateProposal, AddSignatory, InsertTransaction, RemoveTransaction, CancelProposal,
         CreateTokenOwnerRecord, DepositTokens, WithdrawTokens, RevokeTokens, SetDelegate,
         CreateGovernance, SetGovernanceConfig, AddRequiredSignatory, RemoveRequiredSignatory, Moves, Creates,
         AllWellKept;
    match ix
    case CancelIx(p, g, owner, signer) => CancelProposalMoves(s, p, g, owner, signer, s');
    case CastVoteIx(p, g, voter, owner, signer, vote, addinWeight, source) =>
      CastVoteMoves(s, p, g, voter, owner, signer, vote, addinWeight, source, s');
    case RelinquishIx(p, g, voter, signer) => RelinquishVoteMoves(s, p, g, voter, signer, s');
    case FinalizeIx(p, g, owner, mint, source) => FinalizeVoteMoves(s, p, g, owner, mint, source, s');
    case ExecuteIx(p, g, option, index, invoked) => ExecuteTransactionMoves(s, p, g, option, index, invoked, s');
    case CompleteIx(p, owner, signer) => CompleteProposalMoves(s, p, owner, signer, s');
  }

  /** Only the proposal an instruction names moves, and it moves forward. */
  lemma ProposalMoves(s: State, ix: Instruction, s': State)
    requires AllWellKept(s.proposals, s.now) && Apply(s, ix) == Ok(s')
    ensures Progress(s, ix, s')
  {
    hide Apply, AllWellKept, Moves, Creates;
    if ix.CreateProposalIx? || ix.AddSignatoryIx? || ix.SignOffIx? || ix.InsertTransactionIx?
        || ix.RemoveTransactionIx? {
      DraftingProgress(s, ix, s');
    } else if ix.CancelIx? || ix.CastVoteIx? || ix.RelinquishIx? || ix.FinalizeIx? || ix.ExecuteIx? || ix.CompleteIx? {
      DecidingProgress(s, ix, s');
    } else {
      Frames(s, ix, s');
    }
  }

  lemma ProposalsMoveForward(s: State, ix: Instruction, s': State)
    requires AllWellKept(s.proposals, s.now) && Apply(s, ix) == Ok(s')
    ensures AllEvolve(s.proposals, s'.proposals) && AllWellKept(s'.proposals, s'.now)
  {
    hide Apply, WellKept, Keeps, Evolves, PartsOf;
    Frames(s, ix, s');
    ProposalMoves(s, ix, s');
    forall p | p in s.proposals
      ensures Evolves(s.proposals[p], s.proposals[p]) && WellKept(s.proposals[p], s'.now)
    {
      StaysPut(s.proposals[p], s.now);
      AgeKeeps(s.proposals[p], s.now, s'.now);
    }
  }
}
