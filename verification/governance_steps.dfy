/**
 What each instruction does, as a function from the accounts before to the accounts after
 or the error that aborts it. Checks come in the order of the program.
 */
module GovernanceSteps {
  import opened Outcomes
  import opened GovernanceState
  import opened VoteResolution

  // ---- Governing tokens -----------------------------------------------------------------

  const EMPTY_RECORD: TokenOwnerRecord := TokenOwnerRecord(0, 0, 0, None)

  function CreateTokenOwnerRecord(s: State, key: TokenOwnerKey): Step {
    if !IsRealmMint(s.realm, key.mint) then Err(InvalidGoverningTokenMint) else
    :- Need(key !in s.records, TokenOwnerRecordAlreadyExists);
    Ok(s.(records := s.records[key := EMPTY_RECORD]))
  }

  /** `funded`: the source is a token account or mint that can supply the amount. */
  function DepositTokens(s: State, key: TokenOwnerKey, amount: nat, ownerSigned: bool, funded: bool): Step {
    if !IsRealmMint(s.realm, key.mint) then Err(InvalidGoverningTokenMint) else
    :- Need(TokenTypeOf(s.realm, key.mint) != Dormant, CannotDepositDormantTokens);
    :- Need(key in s.records || ownerSigned, GoverningTokenOwnerMustSign);
    var record := if key in s.records then s.records[key] else EMPTY_RECORD;
    :- Need(funded && HoldingOf(s, key.mint) + amount <= U64_MAX, InsufficientFunds);
    :- Need(record.depositAmount + amount <= U64_MAX, Panicked);
    Ok(s.(holdings := s.holdings[key.mint := HoldingOf(s, key.mint) + amount],
          records := s.records[key := record.(depositAmount := record.depositAmount + amount)]))
  }

  /** `toHolding`: the destination token account is the holding account itself. */
  function WithdrawTokens(s: State, key: TokenOwnerKey, ownerSigned: bool, locked: bool, toHolding: bool): Step {
    if !ownerSigned then Err(GoverningTokenOwnerMustSign) else
    :- Need(IsRealmMint(s.realm, key.mint), InvalidGoverningTokenMint);
    :- Need(TokenTypeOf(s.realm, key.mint) != Membership, CannotWithdrawMembershipTokens);
    var record :- Load(s.records, key);
    :- AssertCanWithdraw(record, locked);
    :- Need(record.depositAmount <= HoldingOf(s, key.mint), InsufficientFunds);
    Ok(s.(holdings := s.holdings[key.mint := HoldingOf(s, key.mint) - if toHolding then 0 else record.depositAmount],
          records := s.records[key := record.(depositAmount := 0)]))
  }

  /** `authorized`: the owner, or for a forced revocation the mint authority, signed. */
  function RevokeTokens(s: State, key: TokenOwnerKey, amount: nat, authorized: bool): Step {
    if !IsRealmMint(s.realm, key.mint) then Err(InvalidGoverningTokenMint) else
    :- Need(TokenTypeOf(s.realm, key.mint) == Membership, CannotRevokeGoverningTokens);
    var record :- Load(s.records, key);
    :- Need(authorized, GoverningTokenOwnerMustSign);
    :- Need(amount <= record.depositAmount, InvalidRevokeAmount);
    :- Need(amount <= HoldingOf(s, key.mint), InsufficientFunds);
    Ok(s.(holdings := s.holdings[key.mint := HoldingOf(s, key.mint) - amount],
          records := s.records[key := record.(depositAmount := record.depositAmount - amount)]))
  }

  function SetDelegate(s: State, key: TokenOwnerKey, signer: Option<Pubkey>, delegate: Option<Pubkey>): Step {
    var record :- Load(s.records, key);
    :- AssertOwnerOrDelegateSigned(key, record, signer);
    Ok(s.(records := s.records[key := record.(governanceDelegate := delegate)]))
  }

  // ---- The realm ------------------------------------------------------------------------------

  /**
   `authorized`: the realm has an authority and it signed. `council`: the council mint to
   keep, or None to remove the council.
   */
  function SetRealmConfig(s: State, authorized: bool, council: Option<Pubkey>, communityType: GoverningTokenType,
      councilType: GoverningTokenType): Step {
    if !authorized then Err(RealmAuthorityMustSign) else
    :- Need(council.Some? ==> council == s.realm.councilMint, RealmCouncilMintChangeIsNotSupported);
    :- Need(communityType == Membership ==> s.realm.communityTokenType == Membership,
            CannotChangeCommunityTokenTypeToMembership);
    var types := s.realm.(communityTokenType := communityType, councilTokenType := councilType);
    Ok(s.(realm := types.(councilMint := council)))
  }

  // ---- Governances ------------------------------------------------------------------------

  function CreateGovernance(s: State, g: Pubkey, config: GovernanceConfig): Step {
    var allowed := AssertValidConfig(config);
    :- allowed;
    :- Need(g !in s.governances, AccountAlreadyInitialized);
    Ok(s.(governances := s.governances[g := Governance(config, 0, 0)]))
  }

  function SetGovernanceConfig(s: State, g: Pubkey, config: GovernanceConfig, pdaSigned: bool): Step {
    if !pdaSigned then Err(GovernancePdaMustSign) else
    :- AssertValidConfig(config);
    var governance :- Load(s.governances, g);
    Ok(s.(governances := s.governances[g := governance.(config := config)]))
  }

  function AddRequiredSignatory(s: State, g: Pubkey, signatory: Pubkey, pdaSigned: bool): Step {
    if !pdaSigned then Err(GovernancePdaMustSign) else
    var governance :- Load(s.governances, g);
    :- Need(governance.requiredSignatoriesCount < U8_MAX, Panicked);
    :- Need(RequiredKey(g, signatory) !in s.required, AccountAlreadyInitialized);
    var governance' := governance.(requiredSignatoriesCount := governance.requiredSignatoriesCount + 1);
    Ok(s.(governances := s.governances[g := governance'],
          required := s.required[RequiredKey(g, signatory) := RequiredSignatory(signatory)]))
  }

  function RemoveRequiredSignatory(s: State, g: Pubkey, signatory: Pubkey, pdaSigned: bool): Step {
    if !pdaSigned then Err(GovernancePdaMustSign) else
    var governance :- Load(s.governances, g);
    var _ :- Load(s.required, RequiredKey(g, signatory));
    :- Need(governance.requiredSignatoriesCount > 0, Panicked);
    var governance' := governance.(requiredSignatoriesCount := governance.requiredSignatoriesCount - 1);
    Ok(s.(governances := s.governances[g := governance'],
          required := s.required - {RequiredKey(g, signatory)}))
  }

  // ---- Drafting a proposal ------------------------------------------------------------------

  /** The voter weight: the plugin's figure if one is configured, the deposit otherwise. */
  function VoterWeight(record: TokenOwnerRecord, addinWeight: Option<nat>): nat {
    if addinWeight.Some? then addinWeight.value else record.depositAmount
  }

  function NewProposal(g: Pubkey, mint: Pubkey, owner: TokenOwnerKey, labels: seq<string>, voteType: VoteType,
      useDeny: bool, now: int): Proposal {
    Proposal(g, mint, Draft, owner, 0, 0, voteType,
             seq(|labels|, i requires 0 <= i < |labels| => ProposalOption(labels[i], 0, NoResult, 0, 0, 0)),
             if useDeny then Some(0) else None, 0, now, None, None, None, None, None)
  }

  /** Everything that is checked about a new proposal and its owner. */
  function MayCreate(s: State, p: Pubkey, g: Pubkey, mint: Pubkey, owner: TokenOwnerKey, signer: Option<Pubkey>,
      addinWeight: Option<nat>, labels: seq<string>,
      voteType: VoteType): Result<(Governance, TokenOwnerRecord), GovernanceError> {
    if p in s.proposals then Err(ProposalAlreadyExists) else
    :- Need(IsRealmMint(s.realm, mint), InvalidGoverningTokenMint);
    var governance :- Load(s.governances, g);
    var _ :- ResolveVoteThreshold(governance, s.realm, mint, Electorate);
    var record :- Load(s.records, owner);
    :- AssertOwnerOrDelegateSigned(owner, record, signer);
    :- AssertCanCreateProposal(s.realm, governance.config, owner, record, VoterWeight(record, addinWeight));
    :- AssertValidProposalOptions(labels, voteType);
    Ok((governance, record))
  }

  /** The deposit account exists only for a positive deposit. */
  function TakeDeposit(deposits: map<DepositKey, ProposalDeposit>, key: DepositKey,
      amount: nat): Result<map<DepositKey, ProposalDeposit>, GovernanceError> {
    if amount == 0 then Ok(deposits)
    else if key in deposits then Err(AccountAlreadyInitialized)
    else Ok(deposits[key := ProposalDeposit(amount)])
  }

  /** The new proposal and both counters it raises, with the security deposit. */
  function OpenProposal(s: State, p: Pubkey, proposal: Proposal, payer: Pubkey, governance: Governance,
      record: TokenOwnerRecord): Step {
    if governance.activeProposalCount >= U64_MAX then Err(Panicked) else
    var governance' := governance.(activeProposalCount := governance.activeProposalCount + 1);
    var deposits :- TakeDeposit(s.deposits, DepositKey(p, payer), ProposalDepositAmount(governance'));
    var record' := record.(outstandingProposalCount := record.outstandingProposalCount + 1);
    Ok(s.(records := s.records[proposal.owner := record'],
          proposals := s.proposals[p := proposal],
          governances := s.governances[proposal.governance := governance'],
          deposits := deposits))
  }

  function CreateProposal(s: State, p: Pubkey, g: Pubkey, mint: Pubkey, owner: TokenOwnerKey, signer: Option<Pubkey>,
      payer: Pubkey, addinWeight: Option<nat>, labels: seq<string>, voteType: VoteType, useDeny: bool): Step {
    var (governance, record) :- MayCreate(s, p, g, mint, owner, signer, addinWeight, labels, voteType);
    OpenProposal(s, p, NewProposal(g, mint, owner, labels, voteType, useDeny, s.now), payer, governance, record)
  }

  /** Required signatories come first and anybody may add them; the owner adds the others. */
  function AddSignatory(s: State, p: Pubkey, g: Pubkey, signatory: Pubkey, owner: TokenOwnerKey,
      signer: Option<Pubkey>): Step {
    var governance :- Load(s.governances, g);
    var proposal :- LoadProposal(s, p, g);
    :- Need(proposal.state == Draft, InvalidStateCannotEditSignatories);
    :- Need(SignatoryKey(p, signatory) !in s.signatories, SignatoryRecordAlreadyExists);
    var _ :- if proposal.signatoriesCount < governance.requiredSignatoriesCount
             then ShowRequired(s, g, signatory) else AuthorizeOwner(s, proposal, owner, signer);
    :- Need(proposal.signatoriesCount < U8_MAX, Panicked);
    Ok(s.(signatories := s.signatories[SignatoryKey(p, signatory) := SignatoryRecord(false)],
          proposals := s.proposals[p := WithSignatory(proposal)]))
  }

  function WithSignatory(proposal: Proposal): Proposal {
    proposal.(signatoriesCount := proposal.signatoriesCount + 1)
  }

  function ShowRequired(s: State, g: Pubkey, signatory: Pubkey): Result<(), GovernanceError> {
    var account :- Load(s.required, RequiredKey(g, signatory));
    :- Need(account.signatory == signatory, InvalidSignatoryAddress);
    Ok(())
  }

  function AuthorizeOwner(s: State, proposal: Proposal, owner: TokenOwnerKey, signer: Option<Pubkey>): Result<(),
      GovernanceError> {
    var record :- LoadProposalOwner(s, owner, proposal);
    :- AssertOwnerOrDelegateSigned(owner, record, signer);
    Ok(())
  }

  /** With all signatures in, voting starts. */
  function StartVotingIfSigned(proposal: Proposal, now: int): Proposal {
    if proposal.signatoriesSignedOffCount == proposal.signatoriesCount
    then proposal.(votingAt := Some(now), state := Voting)
    else proposal
  }

  /** A proposal without signatories, signed off by its owner. */
  function OwnerSigned(proposal: Proposal, now: int): Proposal {
    StartVotingIfSigned(proposal.(signingOffAt := Some(now)), now)
  }

  /** One more signature; the first one opens the signing off. */
  function SignatorySigned(proposal: Proposal, now: int): Proposal {
    var signing := if proposal.signatoriesSignedOffCount == 0
                  then proposal.(signingOffAt := Some(now), state := SigningOff) else proposal;
    StartVotingIfSigned(signing.(signatoriesSignedOffCount := signing.signatoriesSignedOffCount + 1), now)
  }

  function SignOffByOwner(s: State, p: Pubkey, proposal: Proposal, owner: TokenOwnerKey, signer: Option<Pubkey>): Step {
    var _ :- AuthorizeOwner(s, proposal, owner, signer);
    Ok(s.(proposals := s.proposals[p := OwnerSigned(proposal, s.now)]))
  }

  function SignOffBySignatory(s: State, p: Pubkey, proposal: Proposal, signatory: Pubkey, isSigner: bool): Step {
    var record :- Load(s.signatories, SignatoryKey(p, signatory));
    :- Need(!record.signedOff, SignatoryAlreadySignedOff);
    :- Need(isSigner, SignatoryMustSign);
    :- Need(proposal.signatoriesSignedOffCount < U8_MAX, Panicked);
    Ok(s.(signatories := s.signatories[SignatoryKey(p, signatory) := SignatoryRecord(true)],
          proposals := s.proposals[p := SignatorySigned(proposal, s.now)]))
  }

  function SignOff(s: State, p: Pubkey, g: Pubkey, signatory: Pubkey, isSigner: bool, owner: TokenOwnerKey): Step {
    var governance :- Load(s.governances, g);
    var proposal :- LoadProposal(s, p, g);
    :- AssertCanSignOff(proposal);
    :- Need(proposal.signatoriesCount >= governance.requiredSignatoriesCount, MissingRequiredSignatories);
    if proposal.signatoriesCount == 0
    then SignOffByOwner(s, p, proposal, owner, if isSigner then Some(signatory) else None)
    else SignOffBySignatory(s, p, proposal, signatory, isSigner)
  }

  /** One more transaction of an option, appended or put into a gap. */
  function CountInserted(o: ProposalOption, index: nat): Result<ProposalOption, GovernanceError> {
    if index > o.transactionsNextIndex then Err(InvalidTransactionIndex) else
    :- Need(index == o.transactionsNextIndex ==> o.transactionsNextIndex < U16_MAX, Panicked);
    :- Need(o.transactionsCount < U16_MAX, Panicked);
    Ok(o.(transactionsNextIndex := if index == o.transactionsNextIndex then index + 1 else o.transactionsNextIndex,
          transactionsCount := o.transactionsCount + 1))
  }

  function WithOption(proposal: Proposal, i: nat, option: ProposalOption): Proposal
    requires i < |proposal.options|
  {
    proposal.(options := proposal.options[i := option])
  }

  function InsertTransaction(s: State, p: Pubkey, g: Pubkey, owner: TokenOwnerKey, signer: Option<Pubkey>, option: nat,
      index: nat): Step {
    var key := TransactionKey(p, option, index);
    :- Need(key !in s.transactions, TransactionAlreadyExists);
    var _ :- Load(s.governances, g);
    var proposal :- LoadProposal(s, p, g);
    :- AssertCanEditInstructions(proposal);
    var _ :- AuthorizeOwner(s, proposal, owner, signer);
    :- Need(option < |proposal.options|, Panicked);
    var counted :- CountInserted(proposal.options[option], index);
    Ok(s.(proposals := s.proposals[p := WithOption(proposal, option, counted)],
          transactions := s.transactions[key := ProposalTransaction(None, NotExecuted)]))
  }

  function RemoveTransaction(s: State, p: Pubkey, owner: TokenOwnerKey, signer: Option<Pubkey>, option: nat,
      index: nat): Step {
    var key := TransactionKey(p, option, index);
    var proposal :- Load(s.proposals, p);
    :- AssertCanEditInstructions(proposal);
    var _ :- AuthorizeOwner(s, proposal, owner, signer);
    var _ :- Load(s.transactions, key);
    :- Need(option < |proposal.options| && proposal.options[option].transactionsCount > 0, Panicked);
    var o := proposal.options[option];
    Ok(s.(proposals := s.proposals[p := WithOption(proposal, option, o.(transactionsCount := o.transactionsCount - 1))],
          transactions := s.transactions - {key}))
  }

  // ---- Deciding a proposal --------------------------------------------------------------------

  /** The proposal leaves the active states: its owner's and its governance's counters go down. */
  function Close(s: State, p: Pubkey, closed: Proposal, owner: TokenOwnerRecord, governance: Governance): State {
    s.(records := s.records[closed.owner := DecreaseOutstanding(owner)],
       proposals := s.proposals[p := closed],
       governances := s.governances[closed.governance := DecreaseActive(governance)])
  }

  function Closed(proposal: Proposal, state: ProposalState, now: int): Proposal {
    proposal.(state := state, closedAt := Some(now))
  }

  function CancelProposal(s: State, p: Pubkey, g: Pubkey, owner: TokenOwnerKey, signer: Option<Pubkey>): Step {
    var governance :- Load(s.governances, g);
    var proposal :- LoadProposal(s, p, g);
    :- AssertCanCancel(proposal, governance.config, s.now);
    var record :- LoadProposalOwner(s, owner, proposal);
    :- AssertOwnerOrDelegateSigned(owner, record, signer);
    Ok(Close(s, p, Closed(proposal, Cancelled, s.now), record, governance))
  }

  /** The zipped loop over options and choices, from index i on. */
  function AddChoices(options: seq<ProposalOption>, choices: seq<VoteChoice>, weight: nat,
      i: nat): Result<seq<ProposalOption>, GovernanceError>
    decreases |options| - i
  {
    if i >= |options| || i >= |choices| then Ok(options)
    else
      var share :- ChoiceWeight(choices[i], weight);
      :- Need(options[i].voteWeight + share <= U64_MAX, Panicked);
      AddChoices(options[i := options[i].(voteWeight := options[i].voteWeight + share)], choices, weight, i + 1)
  }

  function SubtractChoices(options: seq<ProposalOption>, choices: seq<VoteChoice>, weight: nat,
      i: nat): Result<seq<ProposalOption>, GovernanceError>
    decreases |options| - i
  {
    if i >= |options| || i >= |choices| then Ok(options)
    else
      var share :- ChoiceWeight(choices[i], weight);
      :- Need(share <= options[i].voteWeight, Panicked);
      SubtractChoices(options[i := options[i].(voteWeight := options[i].voteWeight - share)], choices, weight, i + 1)
  }

  function ShareOf(choice: VoteChoice, weight: nat): nat {
    if ChoiceWeight(choice, weight).Ok? then ChoiceWeight(choice, weight).value else 0
  }

  /** Adding fails only on a weight above 100 percent or an overflow, and adds each choice's share to its own option. */
  lemma {:induction false} AddChoicesAdds(options: seq<ProposalOption>, choices: seq<VoteChoice>, weight: nat, i: nat)
    ensures var r := AddChoices(options, choices, weight, i);
            && (r.Ok? <==> forall j :: i <= j < |choices| && j < |options| ==>
                  choices[j].weightPercentage <= 100 && options[j].voteWeight + ShareOf(choices[j], weight) <= U64_MAX)
            && (r.Ok? ==>
                  && |r.value| == |options|
                  && forall j :: 0 <= j < |options| ==>
                       var share := if i <= j < |choices| then ShareOf(choices[j], weight) else 0;
                       r.value[j] == options[j].(voteWeight := options[j].voteWeight + share))
    decreases |options| - i
  {
    if i < |options| && i < |choices| {
      var share := ChoiceWeight(choices[i], weight);
      if share.Ok? {
        var o := options[i].(voteWeight := options[i].voteWeight + share.value);
        AddChoicesAdds(options[i := o], choices, weight, i + 1);
      }
    }
  }

  lemma {:induction false} SubtractChoicesSubtracts(options: seq<ProposalOption>, choices: seq<VoteChoice>, weight: nat,
      i: nat)
    ensures var r := SubtractChoices(options, choices, weight, i);
            && (r.Ok? <==> forall j :: i <= j < |choices| && j < |options| ==>
                  choices[j].weightPercentage <= 100 && ShareOf(choices[j], weight) <= options[j].voteWeight)
            && (r.Ok? ==>
                  && |r.value| == |options|
                  && forall j :: 0 <= j < |options| ==>
                       var share := if i <= j < |choices| then ShareOf(choices[j], weight) else 0;
                       r.value[j] == options[j].(voteWeight := options[j].voteWeight - share))
    decreases |options| - i
  {
    if i < |options| && i < |choices| {
      var share := ChoiceWeight(choices[i], weight);
      if share.Ok? && share.value <= options[i].voteWeight {
        var o := options[i].(voteWeight := options[i].voteWeight - share.value);
        SubtractChoicesSubtracts(options[i := o], choices, weight, i + 1);
      }
    }
  }

  function AddVote(p: Proposal, vote: Vote, weight: nat): Result<Proposal, GovernanceError> {
    match vote
    case Approve(choices) =>
      var options :- AddChoices(p.options, choices, weight, 0);
      Ok(p.(options := options))
    case Deny =>
      :- Need(p.denyVoteWeight.Some? && p.denyVoteWeight.value + weight <= U64_MAX, Panicked);
      Ok(p.(denyVoteWeight := Some(p.denyVoteWeight.value + weight)))
    case Veto =>
      :- Need(p.vetoVoteWeight + weight <= U64_MAX, Panicked);
      Ok(p.(vetoVoteWeight := p.vetoVoteWeight + weight))
    case Abstain => Err(NotSupportedVoteType)
  }

  function SubtractVote(p: Proposal, vote: Vote, weight: nat): Result<Proposal, GovernanceError> {
    match vote
    case Approve(choices) =>
      var options :- SubtractChoices(p.options, choices, weight, 0);
      Ok(p.(options := options))
    case Deny =>
      :- Need(p.denyVoteWeight.Some? && weight <= p.denyVoteWeight.value, Panicked);
      Ok(p.(denyVoteWeight := Some(p.denyVoteWeight.value - weight)))
    case Veto =>
      :- Need(weight <= p.vetoVoteWeight, Panicked);
      Ok(p.(vetoVoteWeight := p.vetoVoteWeight - weight))
    case Abstain => Err(NotSupportedVoteType)
  }

  /** Who votes on what, once all guards have passed. */
  datatype Eligibility = Eligibility(governance: Governance, proposal: Proposal, record: TokenOwnerRecord)

  function Eligible(s: State, p: Pubkey, g: Pubkey, voter: TokenOwnerKey, signer: Option<Pubkey>,
      vote: Vote): Result<Eligibility, GovernanceError> {
    if VoteKey(p, voter) in s.votes then Err(VoteAlreadyExists) else
    :- Need(IsRealmMint(s.realm, voter.mint), InvalidGoverningTokenMint);
    var governance :- Load(s.governances, g);
    var mint :- ProposalMintForVote(s.realm, voter.mint, KindOf(vote));
    var proposal :- LoadProposal(s, p, g);
    :- Need(proposal.governingTokenMint == mint, InvalidGoverningMintForProposal);
    :- AssertCanCastVote(proposal, governance.config, vote, s.now);
    var record :- Load(s.records, voter);
    :- AssertOwnerOrDelegateSigned(voter, record, signer);
    Ok(Eligibility(governance, proposal, record))
  }

  /**
   Everything a cast vote computes before it writes: the voter's record, the vote's weight
   and the tipped proposal, if any.
   */
  datatype Ballot = Ballot(
    governance: Governance,
    record: TokenOwnerRecord,
    weight: nat,
    counted: Proposal,
    tipped: Option<Proposal>)

  function Count(s: State, p: Pubkey, g: Pubkey, voter: TokenOwnerKey, signer: Option<Pubkey>, vote: Vote,
      addinWeight: Option<nat>, source: MaxWeightSource): Result<Ballot, GovernanceError> {
    var Eligibility(governance, proposal, record) :- Eligible(s, p, g, voter, signer, vote);
    :- Need(record.unrelinquishedVotesCount < U64_MAX, Panicked);
    var weight := VoterWeight(record, addinWeight);
    :- AssertValidVote(proposal, vote);
    var counted :- AddVote(proposal, vote, weight);
    var max :- ResolveMaxVoterWeight(counted, source, KindOf(vote));
    var threshold :- ResolveVoteThreshold(governance, s.realm, voter.mint, KindOf(vote));
    var tipping :- VoteTippingFor(governance, s.realm, voter.mint);
    var tipped :- TryTipVote(counted, max, tipping, s.now, threshold, KindOf(vote));
    var record' := record.(unrelinquishedVotesCount := record.unrelinquishedVotesCount + 1);
    Ok(Ballot(governance, record', weight, counted, tipped))
  }

  /** The vote is recorded and counted. */
  function Voted(s: State, p: Pubkey, voter: TokenOwnerKey, vote: Vote, ballot: Ballot): State {
    s.(records := s.records[voter := ballot.record],
       proposals := s.proposals[p := ballot.counted],
       votes := s.votes[VoteKey(p, voter) := VoteRecord(ballot.weight, vote, false)])
  }

  /** The owner is read after the voter's record is written, so a voter who owns the proposal keeps both changes. */
  function CloseTipped(voted: State, p: Pubkey, tipped: Proposal, owner: TokenOwnerKey, governance: Governance): Step {
    var record :- LoadProposalOwner(voted, owner, tipped);
    Ok(Close(voted, p, tipped, record, governance))
  }

  function CastVote(s: State, p: Pubkey, g: Pubkey, voter: TokenOwnerKey, owner: TokenOwnerKey, signer: Option<Pubkey>,
      vote: Vote, addinWeight: Option<nat>, source: MaxWeightSource): Step {
    var ballot :- Count(s, p, g, voter, signer, vote, addinWeight, source);
    var voted := Voted(s, p, voter, vote, ballot);
    if ballot.tipped.None? then Ok(voted) else CloseTipped(voted, p, ballot.tipped.value, owner, ballot.governance)
  }

  function VoteReturned(record: TokenOwnerRecord): TokenOwnerRecord
    requires record.unrelinquishedVotesCount > 0
  {
    record.(unrelinquishedVotesCount := record.unrelinquishedVotesCount - 1)
  }

  /** While voting is open the vote is taken back and its account disposed of. */
  function RetractVote(s: State, key: VoteKey, proposal: Proposal, record: TokenOwnerRecord, voteRecord: VoteRecord,
      signer: Option<Pubkey>): Step {
    var allowed := AssertOwnerOrDelegateSigned(key.voter, record, signer);
    :- allowed;
    var proposal' :- SubtractVote(proposal, voteRecord.vote, voteRecord.voterWeight);
    :- Need(record.unrelinquishedVotesCount > 0, Panicked);
    Ok(s.(proposals := s.proposals[key.proposal := proposal'],
          votes := s.votes - {key},
          records := s.records[key.voter := VoteReturned(record)]))
  }

  /** After the decision the vote is only marked. */
  function MarkVote(s: State, key: VoteKey, proposal: Proposal, record: TokenOwnerRecord,
      voteRecord: VoteRecord): Step {
    if proposal.state == Voting then Err(CannotRelinquishInFinalizingState) else
    :- Need(record.unrelinquishedVotesCount > 0, Panicked);
    Ok(s.(votes := s.votes[key := voteRecord.(isRelinquished := true)],
          records := s.records[key.voter := VoteReturned(record)]))
  }

  function RelinquishVote(s: State, p: Pubkey, g: Pubkey, voter: TokenOwnerKey, signer: Option<Pubkey>): Step {
    if !IsRealmMint(s.realm, voter.mint) then Err(InvalidGoverningTokenMint) else
    var governance :- Load(s.governances, g);
    var proposal :- LoadProposal(s, p, g);
    var record :- Load(s.records, voter);
    var key := VoteKey(p, voter);
    var voteRecord :- Load(s.votes, key);
    var mint :- ProposalMintForVote(s.realm, voter.mint, KindOf(voteRecord.vote));
    :- Need(proposal.governingTokenMint == mint, InvalidGoverningMintForProposal);
    :- Need(!voteRecord.isRelinquished, VoteAlreadyRelinquished);
    :- Need(proposal.state == Voting ==> proposal.votingAt.Some?, Panicked);
    if proposal.state == Voting && !(VotingMaxTimeEnd(proposal, governance.config) < s.now)
    then RetractVote(s, key, proposal, record, voteRecord, signer)
    else MarkVote(s, key, proposal, record, voteRecord)
  }

  function FinalizeVote(s: State, p: Pubkey, g: Pubkey, owner: TokenOwnerKey, mint: Pubkey,
      source: MaxWeightSource): Step {
    if !IsRealmMint(s.realm, mint) then Err(InvalidGoverningTokenMint) else
    var governance :- Load(s.governances, g);
    var proposal :- LoadProposal(s, p, g);
    :- Need(proposal.governingTokenMint == mint, InvalidGoverningMintForProposal);
    var max :- ResolveMaxVoterWeight(proposal, source, Electorate);
    var threshold :- ResolveVoteThreshold(governance, s.realm, mint, Electorate);
    var finalized :- FinalizedVote(proposal, max, governance.config, s.now, threshold);
    var record :- LoadProposalOwner(s, owner, finalized);
    Ok(Close(s, p, finalized, record, governance))
  }

  // ---- After the decision -----------------------------------------------------------------------

  /** Every winning option has run all its transactions. */
  predicate AllExecuted(p: Proposal) {
    forall o :: o in p.options && o.voteResult == OptionSucceeded ==> o.transactionsExecutedCount == o.transactionsCount
  }

  function CountExecuted(proposal: Proposal, option: nat, now: int): Result<Proposal, GovernanceError>
    requires option < |proposal.options|
  {
    var started :=
      if proposal.state == Succeeded then proposal.(executingAt := Some(now), state := Executing) else proposal;
    var o := started.options[option];
    :- Need(o.transactionsExecutedCount < U16_MAX, Panicked);
    var counted := WithOption(started, option, o.(transactionsExecutedCount := o.transactionsExecutedCount + 1));
    Ok(if (counted.state == Executing || counted.state == ExecutingWithErrors) && AllExecuted(counted)
       then counted.(closedAt := Some(now), state := Completed) else counted)
  }

  /** `invoked`: every inner instruction was invoked successfully. */
  function ExecuteTransaction(s: State, p: Pubkey, g: Pubkey, option: nat, index: nat, invoked: bool): Step {
    var governance :- Load(s.governances, g);
    var proposal :- LoadProposal(s, p, g);
    var key := TransactionKey(p, option, index);
    var transaction :- Load(s.transactions, key);
    :- AssertCanExecute(proposal, option, transaction, governance.config, s.now);
    :- Need(invoked, Panicked);
    var proposal' :- CountExecuted(proposal, option, s.now);
    Ok(s.(proposals := s.proposals[p := proposal'],
          transactions := s.transactions[key := ProposalTransaction(Some(s.now), Success)]))
  }

  function CompleteProposal(s: State, p: Pubkey, owner: TokenOwnerKey, signer: Option<Pubkey>): Step {
    var proposal :- Load(s.proposals, p);
    :- AssertCanComplete(proposal);
    var _ :- AuthorizeOwner(s, proposal, owner, signer);
    Ok(s.(proposals := s.proposals[p := Closed(proposal, Completed, s.now)]))
  }

  function RefundDeposit(s: State, p: Pubkey, payer: Pubkey): Step {
    var proposal :- Load(s.proposals, p);
    :- Need(!IsActive(proposal.state), CannotRefundProposalDeposit);
    var _ :- Load(s.deposits, DepositKey(p, payer));
    Ok(s.(deposits := s.deposits - {DepositKey(p, payer)}))
  }

  // ---- Instructions and runs ----------------------------------------------------------------------

  datatype Instruction =
    | CreateTokenOwnerRecordIx(key: TokenOwnerKey)
    | DepositIx(key: TokenOwnerKey, amount: nat, ownerSigned: bool, funded: bool)
    | WithdrawIx(key: TokenOwnerKey, ownerSigned: bool, locked: bool, toHolding: bool)
    | RevokeIx(key: TokenOwnerKey, amount: nat, authorized: bool)
    | SetDelegateIx(key: TokenOwnerKey, signer: Option<Pubkey>, delegate: Option<Pubkey>)
    | SetRealmConfigIx(authorized: bool, council: Option<Pubkey>, communityType: GoverningTokenType,
                       councilType: GoverningTokenType)
    | CreateGovernanceIx(g: Pubkey, config: GovernanceConfig)
    | SetConfigIx(g: Pubkey, config: GovernanceConfig, pdaSigned: bool)
    | AddRequiredIx(g: Pubkey, signatory: Pubkey, pdaSigned: bool)
    | RemoveRequiredIx(g: Pubkey, signatory: Pubkey, pdaSigned: bool)
    | CreateProposalIx(p: Pubkey, g: Pubkey, mint: Pubkey, owner: TokenOwnerKey, signer: Option<Pubkey>, payer: Pubkey,
                       addinWeight: Option<nat>, labels: seq<string>, voteType: VoteType, useDeny: bool)
    | AddSignatoryIx(p: Pubkey, g: Pubkey, signatory: Pubkey, owner: TokenOwnerKey, signer: Option<Pubkey>)
    | SignOffIx(p: Pubkey, g: Pubkey, signatory: Pubkey, isSigner: bool, owner: TokenOwnerKey)
    | InsertTransactionIx(p: Pubkey, g: Pubkey, owner: TokenOwnerKey, signer: Option<Pubkey>, option: nat, index: nat)
    | RemoveTransactionIx(p: Pubkey, owner: TokenOwnerKey, signer: Option<Pubkey>, option: nat, index: nat)
    | CancelIx(p: Pubkey, g: Pubkey, owner: TokenOwnerKey, signer: Option<Pubkey>)
    | CastVoteIx(p: Pubkey, g: Pubkey, voter: TokenOwnerKey, owner: TokenOwnerKey, signer: Option<Pubkey>, vote: Vote,
                 addinWeight: Option<nat>, source: MaxWeightSource)
    | RelinquishIx(p: Pubkey, g: Pubkey, voter: TokenOwnerKey, signer: Option<Pubkey>)
    | FinalizeIx(p: Pubkey, g: Pubkey, owner: TokenOwnerKey, mint: Pubkey, source: MaxWeightSource)
    | ExecuteIx(p: Pubkey, g: Pubkey, option: nat, index: nat, invoked: bool)
    | CompleteIx(p: Pubkey, owner: TokenOwnerKey, signer: Option<Pubkey>)
    | RefundIx(p: Pubkey, payer: Pubkey)
    // not instructions of the program: time passes, and anybody may send tokens to a holding account
    | ClockAdvances(to: int)
    | OutsideTransfer(mint: Pubkey, amount: nat)

  function Apply(s: State, ix: Instruction): Step {
    match ix
    case CreateTokenOwnerRecordIx(key) => CreateTokenOwnerRecord(s, key)
    case DepositIx(key, amount, ownerSigned, funded) => DepositTokens(s, key, amount, ownerSigned, funded)
    case WithdrawIx(key, ownerSigned, locked, toHolding) => WithdrawTokens(s, key, ownerSigned, locked, toHolding)
    case RevokeIx(key, amount, authorized) => RevokeTokens(s, key, amount, authorized)
    case SetDelegateIx(key, signer, delegate) => SetDelegate(s, key, signer, delegate)
    case SetRealmConfigIx(authorized, council, communityType, councilType) =>
      SetRealmConfig(s, authorized, council, communityType, councilType)
    case CreateGovernanceIx(g, config) => CreateGovernance(s, g, config)
    case SetConfigIx(g, config, pdaSigned) => SetGovernanceConfig(s, g, config, pdaSigned)
    case AddRequiredIx(g, signatory, pdaSigned) => AddRequiredSignatory(s, g, signatory, pdaSigned)
    case RemoveRequiredIx(g, signatory, pdaSigned) => RemoveRequiredSignatory(s, g, signatory, pdaSigned)
    case CreateProposalIx(p, g, mint, owner, signer, payer, addinWeight, labels, voteType, useDeny) =>
      CreateProposal(s, p, g, mint, owner, signer, payer, addinWeight, labels, voteType, useDeny)
    case AddSignatoryIx(p, g, signatory, owner, signer) => AddSignatory(s, p, g, signatory, owner, signer)
    case SignOffIx(p, g, signatory, isSigner, owner) => SignOff(s, p, g, signatory, isSigner, owner)
    case InsertTransactionIx(p, g, owner, signer, option, index) =>
      InsertTransaction(s, p, g, owner, signer, option, index)
    case RemoveTransactionIx(p, owner, signer, option, index) => RemoveTransaction(s, p, owner, signer, option, index)
    case CancelIx(p, g, owner, signer) => CancelProposal(s, p, g, owner, signer)
    case CastVoteIx(p, g, voter, owner, signer, vote, addinWeight, source) =>
      CastVote(s, p, g, voter, owner, signer, vote, addinWeight, source)
    case RelinquishIx(p, g, voter, signer) => RelinquishVote(s, p, g, voter, signer)
    case FinalizeIx(p, g, owner, mint, source) => FinalizeVote(s, p, g, owner, mint, source)
    case ExecuteIx(p, g, option, index, invoked) => ExecuteTransaction(s, p, g, option, index, invoked)
    case CompleteIx(p, owner, signer) => CompleteProposal(s, p, owner, signer)
    case RefundIx(p, payer) => RefundDeposit(s, p, payer)
    case ClockAdvances(to) => Ok(s.(now := if to < s.now then s.now else to))
    case OutsideTransfer(mint, amount) => Ok(s.(holdings := s.holdings[mint := HoldingOf(s, mint) + amount]))
  }

  /** An instruction that errs leaves every account as it was. */
  function Next(s: State, ix: Instruction): State {
    var step := Apply(s, ix);
    if step.Ok? then step.value else s
  }

  function Run(s: State, instructions: seq<Instruction>): State {
    if instructions == [] then s
    else Next(Run(s, instructions[..|instructions| - 1]), instructions[|instructions| - 1])
  }

  function EmptyState(realm: Realm, now: int): State {
    State(realm, now, map[], map[], map[], map[], map[], map[], map[], map[], map[])
  }
}
