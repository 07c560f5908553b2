/** Which kinds of account each instruction leaves alone. */
module GovernanceFrames {
  import opened Outcomes
  import opened GovernanceState
  import opened GovernanceSteps
  import opened VoteResolution

  predicate WritesRecords(ix: Instruction) {
    ix.CreateTokenOwnerRecordIx? || ix.DepositIx? || ix.WithdrawIx? || ix.RevokeIx? || ix.SetDelegateIx? ||
    ix.CreateProposalIx? || ix.CancelIx? || ix.CastVoteIx? || ix.RelinquishIx? || ix.FinalizeIx?
  }

  predicate WritesHoldings(ix: Instruction) {
    ix.DepositIx? || ix.WithdrawIx? || ix.RevokeIx? || ix.OutsideTransfer?
  }

  predicate WritesGovernances(ix: Instruction) {
    ix.CreateGovernanceIx? || ix.SetConfigIx? || ix.AddRequiredIx? || ix.RemoveRequiredIx? ||
    ix.CreateProposalIx? || ix.CancelIx? || ix.CastVoteIx? || ix.FinalizeIx?
  }

  predicate WritesProposals(ix: Instruction) {
    ix.CreateProposalIx? || ix.AddSignatoryIx? || ix.SignOffIx? || ix.InsertTransactionIx? || ix.RemoveTransactionIx? ||
    ix.CancelIx? || ix.CastVoteIx? || ix.RelinquishIx? || ix.FinalizeIx? || ix.ExecuteIx? || ix.CompleteIx?
  }

  predicate Framed(s: State, ix: Instruction, s': State) {
    && (!ix.SetRealmConfigIx? ==> s'.realm == s.realm)
    && s'.realm.communityMint == s.realm.communityMint
    && (s'.realm.councilMint == s.realm.councilMint || s'.realm.councilMint.None?)
    && (!WritesRecords(ix) ==> s'.records == s.records)
    && (!WritesHoldings(ix) ==> s'.holdings == s.holdings)
    && (!WritesGovernances(ix) ==> s'.governances == s.governances)
    && (!WritesProposals(ix) ==> s'.proposals == s.proposals)
    && (!(ix.AddRequiredIx? || ix.RemoveRequiredIx?) ==> s'.required == s.required)
    && (!(ix.AddSignatoryIx? || ix.SignOffIx?) ==> s'.signatories == s.signatories)
    && (!(ix.CastVoteIx? || ix.RelinquishIx?) ==> s'.votes == s.votes)
    && (!(ix.InsertTransactionIx? || ix.RemoveTransactionIx? || ix.ExecuteIx?) ==> s'.transactions == s.transactions)
    && (!(ix.CreateProposalIx? || ix.RefundIx?) ==> s'.deposits == s.deposits)
    && (!ix.ClockAdvances? ==> s'.now == s.now)
    && s.now <= s'.now
  }

  // ---- Signing off and voting in full ------------------------------------------------------

  predicate SignedOff(s: State, p: Pubkey, g: Pubkey, signatory: Pubkey, s': State) {
    && p in s.proposals && (s.proposals[p].state == Draft || s.proposals[p].state == SigningOff)
    && g in s.governances && s.proposals[p].governance == g
    && s.governances[g].requiredSignatoriesCount <= s.proposals[p].signatoriesCount
    && if s.proposals[p].signatoriesCount == 0
       then s'.proposals == s.proposals[p := OwnerSigned(s.proposals[p], s.now)] && s'.signatories == s.signatories
       else
         && SignatoryKey(p, signatory) in s.signatories && !s.signatories[SignatoryKey(p, signatory)].signedOff
         && s'.proposals == s.proposals[p := SignatorySigned(s.proposals[p], s.now)]
         && s'.signatories == s.signatories[SignatoryKey(p, signatory) := SignatoryRecord(true)]
  }

  lemma SignOffPasses(s: State, p: Pubkey, g: Pubkey, signatory: Pubkey, isSigner: bool, owner: TokenOwnerKey)
    requires SignOff(s, p, g, signatory, isSigner, owner).Ok?
    ensures p in s.proposals && (s.proposals[p].state == Draft || s.proposals[p].state == SigningOff)
    ensures g in s.governances && s.proposals[p].governance == g
    ensures s.governances[g].requiredSignatoriesCount <= s.proposals[p].signatoriesCount
    ensures SignOff(s, p, g, signatory, isSigner, owner)
         == if s.proposals[p].signatoriesCount == 0
            then SignOffByOwner(s, p, s.proposals[p], owner, if isSigner then Some(signatory) else None)
            else SignOffBySignatory(s, p, s.proposals[p], signatory, isSigner)
  {
    hide SignOffByOwner, SignOffBySignatory;
  }

  lemma SignOffEffect(s: State, p: Pubkey, g: Pubkey, signatory: Pubkey, isSigner: bool, owner: TokenOwnerKey,
      s': State)
    requires SignOff(s, p, g, signatory, isSigner, owner) == Ok(s')
    ensures SignedOff(s, p, g, signatory, s')
    ensures s' == s.(proposals := s'.proposals, signatories := s'.signatories)
  {
    hide SignOff, SignOffByOwner, SignOffBySignatory, OwnerSigned, SignatorySigned;
    SignOffPasses(s, p, g, signatory, isSigner, owner);
    var proposal := s.proposals[p];
    if proposal.signatoriesCount == 0 {
      SignOffByOwnerEffect(s, p, proposal, owner, if isSigner then Some(signatory) else None, s');
    } else {
      SignOffBySignatoryEffect(s, p, proposal, signatory, isSigner, s');
    }
  }

  lemma SignOffByOwnerEffect(s: State, p: Pubkey, proposal: Proposal, owner: TokenOwnerKey, signer: Option<Pubkey>,
      s': State)
    requires SignOffByOwner(s, p, proposal, owner, signer) == Ok(s')
    ensures s' == s.(proposals := s.proposals[p := OwnerSigned(proposal, s.now)])
  {
    hide AuthorizeOwner, OwnerSigned;
  }

  lemma SignOffBySignatoryEffect(s: State, p: Pubkey, proposal: Proposal, signatory: Pubkey, isSigner: bool, s': State)
    requires SignOffBySignatory(s, p, proposal, signatory, isSigner) == Ok(s')
    ensures SignatoryKey(p, signatory) in s.signatories && !s.signatories[SignatoryKey(p, signatory)].signedOff
    ensures s' == s.(proposals := s.proposals[p := SignatorySigned(proposal, s.now)],
                     signatories := s.signatories[SignatoryKey(p, signatory) := SignatoryRecord(true)])
  {
    hide SignatorySigned;
  }

  /** A cast vote writes its record, the voter's record and the counted proposal, and closes a tipped proposal. */
  predicate VoteCast(s: State, p: Pubkey, voter: TokenOwnerKey, vote: Vote, ballot: Ballot, s': State) {
    && s'.votes == s.votes[VoteKey(p, voter) := VoteRecord(ballot.weight, vote, false)]
    && var records := s.records[voter := ballot.record];
       match ballot.tipped
       case None => s'.records == records && s'.proposals == s.proposals[p := ballot.counted]
           && s'.governances == s.governances
       case Some(tipped) =>
         && tipped.owner in records
         && s'.records == records[tipped.owner := DecreaseOutstanding(records[tipped.owner])]
         && s'.proposals == s.proposals[p := tipped]
         && s'.governances == s.governances[tipped.governance := DecreaseActive(ballot.governance)]
  }

  lemma CastVoteCommits(s: State, p: Pubkey, g: Pubkey, voter: TokenOwnerKey, owner: TokenOwnerKey,
      signer: Option<Pubkey>, vote: Vote, addinWeight: Option<nat>, source: MaxWeightSource, s': State)
    requires CastVote(s, p, g, voter, owner, signer, vote, addinWeight, source) == Ok(s')
    ensures var r := Count(s, p, g, voter, signer, vote, addinWeight, source);
            && r.Ok?
            && var voted := Voted(s, p, voter, vote, r.value);
               match r.value.tipped
               case None => s' == voted
               case Some(tipped) =>
                 tipped.owner in voted.records
                 && s' == Close(voted, p, tipped, voted.records[tipped.owner], r.value.governance)
  {
    hide Count, Voted, Close;
  }

  lemma CastVoteEffect(s: State, p: Pubkey, g: Pubkey, voter: TokenOwnerKey, owner: TokenOwnerKey,
      signer: Option<Pubkey>, vote: Vote, addinWeight: Option<nat>, source: MaxWeightSource, s': State)
    requires CastVote(s, p, g, voter, owner, signer, vote, addinWeight, source) == Ok(s')
    ensures var ballot := Count(s, p, g, voter, signer, vote, addinWeight, source);
            ballot.Ok? && VoteCast(s, p, voter, vote, ballot.value, s')
    ensures s' == s.(votes := s'.votes, records := s'.records, proposals := s'.proposals, governances := s'.governances)
  {
    hide CastVote, Count, Voted, Close, VoteCast;
    CastVoteCommits(s, p, g, voter, owner, signer, vote, addinWeight, source, s');
    BallotWritten(s, p, voter, vote, Count(s, p, g, voter, signer, vote, addinWeight, source).value, s');
  }

  lemma BallotWritten(s: State, p: Pubkey, voter: TokenOwnerKey, vote: Vote, ballot: Ballot, s': State)
    requires var voted := Voted(s, p, voter, vote, ballot);
             match ballot.tipped
             case None => s' == voted
             case Some(tipped) =>
               tipped.owner in voted.records
               && s' == Close(voted, p, tipped, voted.records[tipped.owner], ballot.governance)
    ensures VoteCast(s, p, voter, vote, ballot, s')
    ensures s' == s.(votes := s'.votes, records := s'.records, proposals := s'.proposals, governances := s'.governances)
  {
    hide DecreaseOutstanding, DecreaseActive;
    if ballot.tipped.Some? {
      assert s.proposals[p := ballot.counted][p := ballot.tipped.value] == s.proposals[p := ballot.tipped.value];
    }
  }

  lemma BallotFacts(s: State, p: Pubkey, g: Pubkey, voter: TokenOwnerKey, signer: Option<Pubkey>, vote: Vote,
      addinWeight: Option<nat>, source: MaxWeightSource)
    requires Count(s, p, g, voter, signer, vote, addinWeight, source).Ok?
    ensures var ballot := Count(s, p, g, voter, signer, vote, addinWeight, source).value;
            && VoteKey(p, voter) !in s.votes && voter in s.records && p in s.proposals
            && g in s.governances && s.proposals[p].governance == g && ballot.governance == s.governances[g]
            && s.proposals[p].state == Voting && s.proposals[p].votingAt.Some?
            && s.now <= VotingMaxTimeEnd(s.proposals[p], s.governances[g].config)
            && IsRealmMint(s.realm, voter.mint) && AssertOwnerOrDelegateSigned(voter, s.records[voter], signer) == Pass
            && ProposalMintForVote(s.realm, voter.mint, KindOf(vote)) == Ok(s.proposals[p].governingTokenMint)
            && ballot.record
                == s.records[voter].(unrelinquishedVotesCount := s.records[voter].unrelinquishedVotesCount + 1)
            && ballot.weight == VoterWeight(s.records[voter], addinWeight)
            && AssertValidVote(s.proposals[p], vote) == Pass
            && AddVote(s.proposals[p], vote, ballot.weight) == Ok(ballot.counted)
  {
    hide AddVote, AssertValidVote, TryTipVote, ResolveMaxVoterWeight, ResolveVoteThreshold, VoteTippingFor,
         ProposalMintForVote, VotingBaseTimeEnd, VotingMaxTimeEnd, VoterWeight, IsRealmMint;
  }

  /** A relinquished vote is taken out of the tallies while voting, and only marked afterwards. */
  predicate VoteRelinquished(s: State, p: Pubkey, voter: TokenOwnerKey, s': State) {
    var key := VoteKey(p, voter);
    && p in s.proposals && voter in s.records && key in s.votes && !s.votes[key].isRelinquished
    && s.records[voter].unrelinquishedVotesCount > 0
    && s'.records == s.records[voter := VoteReturned(s.records[voter])]
    && if s.proposals[p].state == Voting
       then
         && SubtractVote(s.proposals[p], s.votes[key].vote, s.votes[key].voterWeight).Ok?
         && s'.proposals
             == s.proposals[p := SubtractVote(s.proposals[p], s.votes[key].vote, s.votes[key].voterWeight).value]
         && s'.votes == s.votes - {key}
       else
         && s'.proposals == s.proposals
         && s'.votes == s.votes[key := s.votes[key].(isRelinquished := true)]
  }

  lemma RelinquishVoteEffect(s: State, p: Pubkey, g: Pubkey, voter: TokenOwnerKey, signer: Option<Pubkey>, s': State)
    requires RelinquishVote(s, p, g, voter, signer) == Ok(s')
    ensures VoteRelinquished(s, p, voter, s')
    ensures s' == s.(votes := s'.votes, records := s'.records, proposals := s'.proposals)
  {
    hide ProposalMintForVote, RetractVote, MarkVote, SubtractVote, VoteReturned;
    var (key, proposal) := (VoteKey(p, voter), s.proposals[p]);
    assert key in s.votes && !s.votes[key].isRelinquished;
    if proposal.state == Voting && proposal.votingAt.Some?
        && !(VotingMaxTimeEnd(proposal, s.governances[g].config) < s.now) {
      RetractVoteEffect(s, key, proposal, s.records[voter], s.votes[key], signer, s');
    } else {
      MarkVoteEffect(s, key, proposal, s.records[voter], s.votes[key], s');
    }
  }

  lemma RetractVoteEffect(s: State, key: VoteKey, proposal: Proposal, record: TokenOwnerRecord, voteRecord: VoteRecord,
      signer: Option<Pubkey>, s': State)
    requires RetractVote(s, key, proposal, record, voteRecord, signer) == Ok(s')
    ensures SubtractVote(proposal, voteRecord.vote, voteRecord.voterWeight).Ok? && record.unrelinquishedVotesCount > 0
    ensures s'.votes == s.votes - {key} && s'.records == s.records[key.voter := VoteReturned(record)]
    ensures s'.proposals
        == s.proposals[key.proposal := SubtractVote(proposal, voteRecord.vote, voteRecord.voterWeight).value]
    ensures s' == s.(votes := s'.votes, records := s'.records, proposals := s'.proposals)
  {
    hide SubtractVote, VoteReturned;
  }

  lemma MarkVoteEffect(s: State, key: VoteKey, proposal: Proposal, record: TokenOwnerRecord, voteRecord: VoteRecord,
      s': State)
    requires MarkVote(s, key, proposal, record, voteRecord) == Ok(s')
    ensures proposal.state != Voting && record.unrelinquishedVotesCount > 0
    ensures s'.votes == s.votes[key := voteRecord.(isRelinquished := true)]
    ensures s'.records == s.records[key.voter := VoteReturned(record)]
    ensures s' == s.(votes := s'.votes, records := s'.records)
  {
    hide VoteReturned;
  }

  // ---- Frames -----------------------------------------------------------------------------------

  lemma CreateProposalFrame(s: State, p: Pubkey, g: Pubkey, mint: Pubkey, owner: TokenOwnerKey, signer: Option<Pubkey>,
      payer: Pubkey, addinWeight: Option<nat>, labels: seq<string>, voteType: VoteType, useDeny: bool, s': State)
    requires CreateProposal(s, p, g, mint, owner, signer, payer, addinWeight, labels, voteType, useDeny) == Ok(s')
    ensures Framed(s, CreateProposalIx(p, g, mint, owner, signer, payer, addinWeight, labels, voteType, useDeny), s')
  {
    hide NewProposal, AssertCanCreateProposal, AssertValidProposalOptions, ResolveVoteThreshold, ProposalDepositAmount;
  }

  lemma AddSignatoryFrame(s: State, p: Pubkey, g: Pubkey, signatory: Pubkey, owner: TokenOwnerKey,
      signer: Option<Pubkey>, s': State)
    requires AddSignatory(s, p, g, signatory, owner, signer) == Ok(s')
    ensures Framed(s, AddSignatoryIx(p, g, signatory, owner, signer), s')
  {
    hide LoadProposal, AuthorizeOwner, ShowRequired;
  }

  lemma SignOffFrame(s: State, p: Pubkey, g: Pubkey, signatory: Pubkey, isSigner: bool, owner: TokenOwnerKey, s': State)
    requires SignOff(s, p, g, signatory, isSigner, owner) == Ok(s')
    ensures Framed(s, SignOffIx(p, g, signatory, isSigner, owner), s')
  {
    hide SignOff, OwnerSigned, SignatorySigned;
    SignOffEffect(s, p, g, signatory, isSigner, owner, s');
  }

  lemma InsertTransactionFrame(s: State, p: Pubkey, g: Pubkey, owner: TokenOwnerKey, signer: Option<Pubkey>,
      option: nat, index: nat, s': State)
    requires InsertTransaction(s, p, g, owner, signer, option, index) == Ok(s')
    ensures Framed(s, InsertTransactionIx(p, g, owner, signer, option, index), s')
  {
    hide LoadProposal, AuthorizeOwner, CountInserted, WithOption;
  }

  lemma RemoveTransactionFrame(s: State, p: Pubkey, owner: TokenOwnerKey, signer: Option<Pubkey>, option: nat,
      index: nat, s': State)
    requires RemoveTransaction(s, p, owner, signer, option, index) == Ok(s')
    ensures Framed(s, RemoveTransactionIx(p, owner, signer, option, index), s')
  {
    hide AuthorizeOwner, WithOption;
  }

  lemma CancelProposalFrame(s: State, p: Pubkey, g: Pubkey, owner: TokenOwnerKey, signer: Option<Pubkey>, s': State)
    requires CancelProposal(s, p, g, owner, signer) == Ok(s')
    ensures Framed(s, CancelIx(p, g, owner, signer), s')
  {
    hide LoadProposal, LoadProposalOwner, AssertCanCancel;
  }

  lemma CastVoteFrame(s: State, p: Pubkey, g: Pubkey, voter: TokenOwnerKey, owner: TokenOwnerKey,
      signer: Option<Pubkey>, vote: Vote, addinWeight: Option<nat>, source: MaxWeightSource, s': State)
    requires CastVote(s, p, g, voter, owner, signer, vote, addinWeight, source) == Ok(s')
    ensures Framed(s, CastVoteIx(p, g, voter, owner, signer, vote, addinWeight, source), s')
  {
    hide CastVote, Count;
    CastVoteEffect(s, p, g, voter, owner, signer, vote, addinWeight, source, s');
  }

  lemma RelinquishVoteFrame(s: State, p: Pubkey, g: Pubkey, voter: TokenOwnerKey, signer: Option<Pubkey>, s': State)
    requires RelinquishVote(s, p, g, voter, signer) == Ok(s')
    ensures Framed(s, RelinquishIx(p, g, voter, signer), s')
  {
    hide RelinquishVote, SubtractVote, VoteReturned;
    RelinquishVoteEffect(s, p, g, voter, signer, s');
  }

  lemma FinalizeVoteFrame(s: State, p: Pubkey, g: Pubkey, owner: TokenOwnerKey, mint: Pubkey, source: MaxWeightSource,
      s': State)
    requires FinalizeVote(s, p, g, owner, mint, source) == Ok(s')
    ensures Framed(s, FinalizeIx(p, g, owner, mint, source), s')
  {
    hide LoadProposal, LoadProposalOwner, FinalizedVote, ResolveMaxVoterWeight, ResolveVoteThreshold;
  }

  lemma ExecuteTransactionFrame(s: State, p: Pubkey, g: Pubkey, option: nat, index: nat, invoked: bool, s': State)
    requires ExecuteTransaction(s, p, g, option, index, invoked) == Ok(s')
    ensures Framed(s, ExecuteIx(p, g, option, index, invoked), s')
  {
    hide LoadProposal, CountExecuted, AssertCanExecute;
  }

  lemma TokenFrame(s: State, ix: Instruction, s': State)
    requires Apply(s, ix) == Ok(s')
    requires ix.CreateTokenOwnerRecordIx? || ix.DepositIx? || ix.WithdrawIx? || ix.RevokeIx? || ix.SetDelegateIx?
    ensures Framed(s, ix, s')
  {
    hide CreateProposal, AddSignatory, SignOff, InsertTransaction, RemoveTransaction, CancelProposal, CastVote,
         RelinquishVote, FinalizeVote, ExecuteTransaction, CompleteProposal, RefundDeposit,
         CreateGovernance, SetGovernanceConfig, AddRequiredSignatory, RemoveRequiredSignatory;
  }

  lemma GovernanceFrame(s: State, ix: Instruction, s': State)
    requires Apply(s, ix) == Ok(s')
    requires ix.CreateGovernanceIx? || ix.SetConfigIx? || ix.AddRequiredIx? || ix.RemoveRequiredIx?
    ensures Framed(s, ix, s')
  {
    hide CreateProposal, AddSignatory, SignOff, InsertTransaction, RemoveTransaction, CancelProposal, CastVote,
         RelinquishVote, FinalizeVote, ExecuteTransaction, CompleteProposal, RefundDeposit, AssertValidConfig,
         CreateTokenOwnerRecord, DepositTokens, WithdrawTokens, RevokeTokens, SetDelegate;
  }

  /** Every account kind outside the ones an instruction writes is unchanged. */
  lemma Frames(s: State, ix: Instruction, s': State)
    requires Apply(s, ix) == Ok(s')
    ensures Framed(s, ix, s')
  {
    hide CreateProposal, AddSignatory, SignOff, InsertTransaction, RemoveTransaction, CancelProposal, CastVote,
         RelinquishVote, FinalizeVote, ExecuteTransaction,
         CreateTokenOwnerRecord, DepositTokens, WithdrawTokens, RevokeTokens, SetDelegate,
         CreateGovernance, SetGovernanceConfig, AddRequiredSignatory, RemoveRequiredSignatory;
    if ix.CreateTokenOwnerRecordIx? || ix.DepositIx? || ix.WithdrawIx? || ix.RevokeIx? || ix.SetDelegateIx? {
      TokenFrame(s, ix, s');
    } else if ix.CreateGovernanceIx? || ix.SetConfigIx? || ix.AddRequiredIx? || ix.RemoveRequiredIx? {
      GovernanceFrame(s, ix, s');
    } else {
      match ix
      case CreateProposalIx(p, g, mint, owner, signer, payer, addinWeight, labels, voteType, useDeny) =>
        CreateProposalFrame(s, p, g, mint, owner, signer, payer, addinWeight, labels, voteType, useDeny, s');
      case AddSignatoryIx(p, g, signatory, owner, signer) => AddSignatoryFrame(s, p, g, signatory, owner, signer, s');
      case SignOffIx(p, g, signatory, isSigner, owner) => SignOffFrame(s, p, g, signatory, isSigner, owner, s');
      case InsertTransactionIx(p, g, owner, signer, option, index) =>
        InsertTransactionFrame(s, p, g, owner, signer, option, index, s');
      case RemoveTransactionIx(p, owner, signer, option, index) =>
        RemoveTransactionFrame(s, p, owner, signer, option, index, s');
      case CancelIx(p, g, owner, signer) => CancelProposalFrame(s, p, g, owner, signer, s');
      case CastVoteIx(p, g, voter, owner, signer, vote, addinWeight, source) =>
        CastVoteFrame(s, p, g, voter, owner, signer, vote, addinWeight, source, s');
      case RelinquishIx(p, g, voter, signer) => RelinquishVoteFrame(s, p, g, voter, signer, s');
      case FinalizeIx(p, g, owner, mint, source) => FinalizeVoteFrame(s, p, g, owner, mint, source, s');
      case ExecuteIx(p, g, option, index, invoked) => ExecuteTransactionFrame(s, p, g, option, index, invoked, s');
      case _ =>
    }
  }

  // ---- Frames of the voter records' fields ----------------------------------------------------------

  function DepositAt(records: map<TokenOwnerKey, TokenOwnerRecord>, key: TokenOwnerKey): nat {
    if key in records then records[key].depositAmount else 0
  }

  function VotesHeldAt(records: map<TokenOwnerKey, TokenOwnerRecord>, key: TokenOwnerKey): nat {
    if key in records then records[key].unrelinquishedVotesCount else 0
  }

  function OutstandingAt(records: map<TokenOwnerKey, TokenOwnerRecord>, key: TokenOwnerKey): nat {
    if key in records then records[key].outstandingProposalCount else 0
  }

  predicate IsTokenInstruction(ix: Instruction) {
    ix.CreateTokenOwnerRecordIx? || ix.DepositIx? || ix.WithdrawIx? || ix.RevokeIx? || ix.SetDelegateIx?
  }

  predicate FieldsFramed(ix: Instruction, records: map<TokenOwnerKey, TokenOwnerRecord>,
      records': map<TokenOwnerKey, TokenOwnerRecord>) {
    && records.Keys <= records'.Keys
    && (!IsTokenInstruction(ix) ==>
          && records'.Keys == records.Keys
          && forall key :: key in records' ==> DepositAt(records', key) == DepositAt(records, key))
    && (!(ix.CastVoteIx? || ix.RelinquishIx?) ==>
          forall key :: key in records' ==> VotesHeldAt(records', key) == VotesHeldAt(records, key))
    && (!(ix.CreateProposalIx? || ix.CancelIx? || ix.CastVoteIx? || ix.FinalizeIx?) ==>
          forall key :: key in records' ==> OutstandingAt(records', key) == OutstandingAt(records, key))
  }

  lemma TokenFields(s: State, ix: Instruction, s': State)
    requires Apply(s, ix) == Ok(s') && IsTokenInstruction(ix)
    ensures FieldsFramed(ix, s.records, s'.records)
  {
    hide CastVote, RelinquishVote, SignOff, FinalizeVote, ExecuteTransaction, CompleteProposal, RefundDeposit,
         CreateProposal, AddSignatory, InsertTransaction, RemoveTransaction, CancelProposal,
         CreateGovernance, SetGovernanceConfig, AddRequiredSignatory, RemoveRequiredSignatory;
  }

  lemma ProposalFields(s: State, ix: Instruction, s': State)
    requires Apply(s, ix) == Ok(s')
    requires ix.CreateProposalIx? || ix.CancelIx? || ix.FinalizeIx?
    ensures FieldsFramed(ix, s.records, s'.records)
  {
    hide CastVote, RelinquishVote, SignOff, ExecuteTransaction, CompleteProposal, RefundDeposit,
         AddSignatory, InsertTransaction, RemoveTransaction,
         CreateTokenOwnerRecord, DepositTokens, WithdrawTokens, RevokeTokens, SetDelegate,
         CreateGovernance, SetGovernanceConfig, AddRequiredSignatory, RemoveRequiredSignatory,
         AssertCanCreateProposal, AssertValidProposalOptions, ResolveVoteThreshold, ProposalDepositAmount,
         AssertCanCancel, FinalizedVote, ResolveMaxVoterWeight;
  }

  lemma CastVoteFields(s: State, p: Pubkey, g: Pubkey, voter: TokenOwnerKey, owner: TokenOwnerKey,
      signer: Option<Pubkey>, vote: Vote, addinWeight: Option<nat>, source: MaxWeightSource, s': State)
    requires CastVote(s, p, g, voter, owner, signer, vote, addinWeight, source) == Ok(s')
    ensures FieldsFramed(CastVoteIx(p, g, voter, owner, signer, vote, addinWeight, source), s.records, s'.records)
  {
    hide CastVote, Count, AssertValidVote, AddVote, ProposalMintForVote, VoterWeight;
    CastVoteEffect(s, p, g, voter, owner, signer, vote, addinWeight, source, s');
    BallotFacts(s, p, g, voter, signer, vote, addinWeight, source);
  }

  lemma RelinquishVoteFields(s: State, p: Pubkey, g: Pubkey, voter: TokenOwnerKey, signer: Option<Pubkey>, s': State)
    requires RelinquishVote(s, p, g, voter, signer) == Ok(s')
    ensures FieldsFramed(RelinquishIx(p, g, voter, signer), s.records, s'.records)
  {
    hide RelinquishVote, SubtractVote;
    RelinquishVoteEffect(s, p, g, voter, signer, s');
  }

  /** Which fields of a voter's record an instruction may change. */
  lemma FieldFrames(s: State, ix: Instruction, s': State)
    requires Apply(s, ix) == Ok(s')
    ensures FieldsFramed(ix, s.records, s'.records)
  {
    hide CastVote, RelinquishVote, SignOff, FinalizeVote, ExecuteTransaction, CompleteProposal, RefundDeposit,
         CreateProposal, AddSignatory, InsertTransaction, RemoveTransaction, CancelProposal,
         CreateTokenOwnerRecord, DepositTokens, WithdrawTokens, RevokeTokens, SetDelegate,
         CreateGovernance, SetGovernanceConfig, AddRequiredSignatory, RemoveRequiredSignatory;
    if IsTokenInstruction(ix) {
      TokenFields(s, ix, s');
    } else if ix.CreateProposalIx? || ix.CancelIx? || ix.FinalizeIx? {
      ProposalFields(s, ix, s');
    } else {
      match ix
      case CastVoteIx(p, g, voter, owner, signer, vote, addinWeight, source) =>
        CastVoteFields(s, p, g, voter, owner, signer, vote, addinWeight, source, s');
      case RelinquishIx(p, g, voter, signer) => RelinquishVoteFields(s, p, g, voter, signer, s');
      case _ => Frames(s, ix, s');
    }
  }

  // ---- Frames of the governances' fields --------------------------------------------------------------

  function ActiveAt(governances: map<Pubkey, Governance>, g: Pubkey): nat {
    if g in governances then governances[g].activeProposalCount else 0
  }

  function RequiredAt(governances: map<Pubkey, Governance>, g: Pubkey): nat {
    if g in governances then governances[g].requiredSignatoriesCount else 0
  }

  predicate GovernanceFieldsFramed(ix: Instruction, governances: map<Pubkey, Governance>,
      governances': map<Pubkey, Governance>) {
    && governances.Keys <= governances'.Keys
    && (forall g :: g in governances && !(ix.SetConfigIx? && ix.g == g) ==>
          governances'[g].config == governances[g].config)
    && (!(ix.CreateProposalIx? || ix.CancelIx? || ix.CastVoteIx? || ix.FinalizeIx?) ==>
          forall g :: g in governances' ==> ActiveAt(governances', g) == ActiveAt(governances, g))
    && (!(ix.AddRequiredIx? || ix.RemoveRequiredIx?) ==>
          forall g :: g in governances' ==> RequiredAt(governances', g) == RequiredAt(governances, g))
  }

  lemma GovernanceInstructionFields(s: State, ix: Instruction, s': State)
    requires Apply(s, ix) == Ok(s')
    requires ix.CreateGovernanceIx? || ix.SetConfigIx? || ix.AddRequiredIx? || ix.RemoveRequiredIx?
    ensures GovernanceFieldsFramed(ix, s.governances, s'.governances)
  {
    hide CastVote, RelinquishVote, SignOff, FinalizeVote, ExecuteTransaction, CompleteProposal, RefundDeposit,
         CreateProposal, AddSignatory, InsertTransaction, RemoveTransaction, CancelProposal, AssertValidConfig,
         CreateTokenOwnerRecord, DepositTokens, WithdrawTokens, RevokeTokens, SetDelegate;
  }

  lemma CreateProposalGovernanceFields(s: State, p: Pubkey, g: Pubkey, mint: Pubkey, owner: TokenOwnerKey,
      signer: Option<Pubkey>, payer: Pubkey, addinWeight: Option<nat>, labels: seq<string>, voteType: VoteType,
      useDeny: bool, s': State)
    requires CreateProposal(s, p, g, mint, owner, signer, payer, addinWeight, labels, voteType, useDeny) == Ok(s')
    ensures GovernanceFieldsFramed(
              CreateProposalIx(p, g, mint, owner, signer, payer, addinWeight, labels, voteType, useDeny), s.governances,
              s'.governances)
  {
    hide AssertCanCreateProposal, AssertValidProposalOptions, ResolveVoteThreshold, ProposalDepositAmount, TakeDeposit;
  }

  lemma CancelGovernanceFields(s: State, p: Pubkey, g: Pubkey, owner: TokenOwnerKey, signer: Option<Pubkey>, s': State)
    requires CancelProposal(s, p, g, owner, signer) == Ok(s')
    ensures GovernanceFieldsFramed(CancelIx(p, g, owner, signer), s.governances, s'.governances)
  {
    hide AssertCanCancel, LoadProposalOwner;
  }

  lemma FinalizeGovernanceFields(s: State, p: Pubkey, g: Pubkey, owner: TokenOwnerKey, mint: Pubkey,
      source: MaxWeightSource, s': State)
    requires FinalizeVote(s, p, g, owner, mint, source) == Ok(s')
    ensures GovernanceFieldsFramed(FinalizeIx(p, g, owner, mint, source), s.governances, s'.governances)
  {
    hide ResolveMaxVoterWeight, ResolveVoteThreshold, LoadProposalOwner, MinVoteThresholdWeight, FinalVerdict,
         WithResults, VotingMaxTimeEnd;
  }

  lemma CountKeepsGovernance(s: State, p: Pubkey, g: Pubkey, voter: TokenOwnerKey, signer: Option<Pubkey>, vote: Vote,
      addinWeight: Option<nat>, source: MaxWeightSource)
    requires Count(s, p, g, voter, signer, vote, addinWeight, source).Ok?
    ensures var ballot := Count(s, p, g, voter, signer, vote, addinWeight, source).value;
            ballot.tipped.Some? ==>
              && ballot.tipped.value.governance == g && p in s.proposals
              && ballot.tipped.value.owner == s.proposals[p].owner
              && ballot.counted.governance == g && !IsActive(ballot.tipped.value.state)
    ensures Count(s, p, g, voter, signer, vote, addinWeight, source).value.counted.state == Voting
  {
    hide AddChoices, AssertValidVote, TippedVerdict, MinVoteThresholdWeight, ResolveMaxVoterWeight,
         ResolveVoteThreshold, VoteTippingFor, ProposalMintForVote,
         VotingBaseTimeEnd, VotingMaxTimeEnd, VoterWeight;
  }

  lemma CastVoteGovernanceFields(s: State, p: Pubkey, g: Pubkey, voter: TokenOwnerKey, owner: TokenOwnerKey,
      signer: Option<Pubkey>, vote: Vote, addinWeight: Option<nat>, source: MaxWeightSource, s': State)
    requires CastVote(s, p, g, voter, owner, signer, vote, addinWeight, source) == Ok(s')
    ensures GovernanceFieldsFramed(CastVoteIx(p, g, voter, owner, signer, vote, addinWeight, source), s.governances,
        s'.governances)
  {
    hide CastVote, Count, AssertValidVote, AddVote, ProposalMintForVote, VoterWeight;
    CastVoteEffect(s, p, g, voter, owner, signer, vote, addinWeight, source, s');
    BallotFacts(s, p, g, voter, signer, vote, addinWeight, source);
    CountKeepsGovernance(s, p, g, voter, signer, vote, addinWeight, source);
  }

  lemma OthersKeepGovernances(s: State, ix: Instruction, s': State)
    requires Apply(s, ix) == Ok(s') && !WritesGovernances(ix)
    ensures GovernanceFieldsFramed(ix, s.governances, s'.governances)
  {
    hide Apply;
    Frames(s, ix, s');
  }

  /** Which counters of a governance an instruction may change. */
  lemma GovernanceFieldFrames(s: State, ix: Instruction, s': State)
    requires Apply(s, ix) == Ok(s')
    ensures GovernanceFieldsFramed(ix, s.governances, s'.governances)
  {
    hide CastVote, RelinquishVote, SignOff, FinalizeVote, ExecuteTransaction, CompleteProposal, RefundDeposit,
         CreateProposal, AddSignatory, InsertTransaction, RemoveTransaction, CancelProposal,
         CreateTokenOwnerRecord, DepositTokens, WithdrawTokens, RevokeTokens, SetDelegate,
         CreateGovernance, SetGovernanceConfig, AddRequiredSignatory, RemoveRequiredSignatory,
         GovernanceFieldsFramed;
    if ix.CreateGovernanceIx? || ix.SetConfigIx? || ix.AddRequiredIx? || ix.RemoveRequiredIx? {
      GovernanceInstructionFields(s, ix, s');
    } else {
      match ix
      case CreateProposalIx(p, g, mint, owner, signer, payer, addinWeight, labels, voteType, useDeny) =>
        CreateProposalGovernanceFields(s, p, g, mint, owner, signer, payer, addinWeight, labels, voteType, useDeny, s');
      case CancelIx(p, g, owner, signer) => CancelGovernanceFields(s, p, g, owner, signer, s');
      case FinalizeIx(p, g, owner, mint, source) => FinalizeGovernanceFields(s, p, g, owner, mint, source, s');
      case CastVoteIx(p, g, voter, owner, signer, vote, addinWeight, source) =>
        CastVoteGovernanceFields(s, p, g, voter, owner, signer, vote, addinWeight, source, s');
      case _ => OthersKeepGovernances(s, ix, s');
    }
  }
}
