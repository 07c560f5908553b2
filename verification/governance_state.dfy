/**
 The accounts of one realm. Program-derived addresses are map keys built from their seeds,
 so an address holds at most one account.
 */
module GovernanceState {
  import opened Outcomes

  type Pubkey = nat

  const U8_MAX: nat := 0xFF
  const U16_MAX: nat := 0xFFFF
  const U64_MAX: nat := 0xFFFF_FFFF_FFFF_FFFF

  datatype GovernanceError =
    | Panicked  // a failed unwrap or index aborts the transaction like an error
    | AccountDoesNotExist
    | AccountAlreadyInitialized
    | GovernancePdaMustSign
    | GoverningTokenOwnerMustSign
    | GoverningTokenOwnerOrDelegateMustSign
    | InvalidGoverningTokenMint
    | InvalidGovernanceForProposal
    | InvalidGoverningMintForProposal
    | InvalidProposalOwnerAccount
    | InvalidGovernanceConfig
    | TokenOwnerRecordAlreadyExists
    | CannotDepositDormantTokens
    | CannotWithdrawMembershipTokens
    | CannotRevokeGoverningTokens
    | InvalidRevokeAmount
    | InsufficientFunds
    | AllVotesMustBeRelinquishedToWithdrawGoverningTokens
    | AllProposalsMustBeFinalisedToWithdrawGoverningTokens
    | TokenOwnerRecordLocked
    | ProposalAlreadyExists
    | GoverningTokenMintNotAllowedToVote
    | VoterWeightThresholdDisabled
    | NotEnoughTokensToCreateProposal
    | TooManyOutstandingProposals
    | InvalidProposalOptions
    | InvalidMultiChoiceProposalParameters
    | InvalidStateCannotEditSignatories
    | SignatoryRecordAlreadyExists
    | InvalidSignatoryAddress
    | InvalidStateCannotSignOff
    | MissingRequiredSignatories
    | SignatoryAlreadySignedOff
    | SignatoryMustSign
    | InvalidStateCannotVote
    | ProposalVotingTimeExpired
    | VoteNotAllowedInCoolOffTime
    | VoteAlreadyExists
    | InvalidNumberOfVoteChoices
    | RankedVoteIsNotSupported
    | ChoiceWeightMustBe100Percent
    | SingleChoiceOnlyIsAllowed
    | AtLeastSingleChoiceIsRequired
    | TotalVoteWeightMustBe100Percent
    | DenyVoteIsNotAllowed
    | NotSupportedVoteType
    | InvalidVoteChoiceWeightPercentage
    | VoteThresholdTypeNotSupported
    | VoteAlreadyRelinquished
    | CannotRelinquishInFinalizingState
    | InvalidStateCannotFinalize
    | CannotFinalizeVotingInProgress
    | InvalidStateCannotCancelProposal
    | InvalidStateCannotEditTransactions
    | ProposalIsNotExecutable
    | TransactionAlreadyExists
    | InvalidTransactionIndex
    | InvalidProposalForProposalTransaction
    | InvalidStateCannotExecuteTransaction
    | CannotExecuteDefeatedOption
    | CannotExecuteTransactionWithinHoldUpTime
    | TransactionAlreadyExecuted
    | InvalidStateToCompleteProposal
    | CannotRefundProposalDeposit
    | RealmAuthorityMustSign
    | RealmCouncilMintChangeIsNotSupported
    | CannotChangeCommunityTokenTypeToMembership

  datatype GoverningTokenType = Liquid | Membership | Dormant

  /** The realm's two voting populations. The council can be removed, never replaced or brought back. */
  datatype Realm = Realm(
    communityMint: Pubkey,
    councilMint: Option<Pubkey>,
    communityTokenType: GoverningTokenType,
    councilTokenType: GoverningTokenType)

  datatype VoteThreshold = YesVotePercentage(percentage: nat) | QuorumPercentage(quorum: nat) | Disabled

  datatype VoteTipping = Strict | Early | NeverTip

  datatype GovernanceConfig = GovernanceConfig(
    communityVoteThreshold: VoteThreshold,
    minCommunityWeightToCreateProposal: nat,
    transactionsHoldUpTime: nat,
    votingBaseTime: nat,
    communityVoteTipping: VoteTipping,
    councilVoteThreshold: VoteThreshold,
    councilVetoVoteThreshold: VoteThreshold,
    minCouncilWeightToCreateProposal: nat,
    councilVoteTipping: VoteTipping,
    communityVetoVoteThreshold: VoteThreshold,
    votingCoolOffTime: nat,
    depositExemptProposalCount: nat)

  datatype Governance = Governance(
    config: GovernanceConfig,
    requiredSignatoriesCount: nat,
    activeProposalCount: nat)

  datatype TokenOwnerKey = TokenOwnerKey(mint: Pubkey, owner: Pubkey)

  datatype TokenOwnerRecord = TokenOwnerRecord(
    depositAmount: nat,
    unrelinquishedVotesCount: nat,
    outstandingProposalCount: nat,
    governanceDelegate: Option<Pubkey>)

  datatype ProposalState =
    | Draft | SigningOff | Voting | Succeeded | Executing | Completed | Cancelled | Defeated
    | ExecutingWithErrors | Vetoed

  datatype OptionVoteResult = NoResult | OptionSucceeded | OptionDefeated

  datatype MultiChoiceType = FullWeight | Weighted

  datatype VoteType =
    | SingleChoice
    | MultiChoice(choiceType: MultiChoiceType, minVoterOptions: nat, maxVoterOptions: nat, maxWinningOptions: nat)

  datatype ProposalOption = ProposalOption(
    optionLabel: string,
    voteWeight: nat,
    voteResult: OptionVoteResult,
    transactionsExecutedCount: nat,
    transactionsCount: nat,
    transactionsNextIndex: nat)

  datatype Proposal = Proposal(
    governance: Pubkey,
    governingTokenMint: Pubkey,
    state: ProposalState,
    owner: TokenOwnerKey,
    signatoriesCount: nat,
    signatoriesSignedOffCount: nat,
    voteType: VoteType,
    options: seq<ProposalOption>,
    denyVoteWeight: Option<nat>,
    vetoVoteWeight: nat,
    draftAt: int,
    signingOffAt: Option<int>,
    votingAt: Option<int>,
    votingCompletedAt: Option<int>,
    executingAt: Option<int>,
    closedAt: Option<int>)

  datatype VoteChoice = VoteChoice(rank: nat, weightPercentage: nat)

  datatype Vote = Approve(choices: seq<VoteChoice>) | Deny | Abstain | Veto

  datatype VoteKind = Electorate | VetoKind

  datatype VoteKey = VoteKey(proposal: Pubkey, voter: TokenOwnerKey)

  datatype VoteRecord = VoteRecord(voterWeight: nat, vote: Vote, isRelinquished: bool)

  datatype SignatoryKey = SignatoryKey(proposal: Pubkey, signatory: Pubkey)

  datatype SignatoryRecord = SignatoryRecord(signedOff: bool)

  datatype RequiredKey = RequiredKey(governance: Pubkey, signatory: Pubkey)

  datatype RequiredSignatory = RequiredSignatory(signatory: Pubkey)

  datatype TransactionKey = TransactionKey(proposal: Pubkey, option: nat, index: nat)

  datatype ExecutionStatus = NotExecuted | Success | ExecutionError

  datatype ProposalTransaction = ProposalTransaction(executedAt: Option<int>, executionStatus: ExecutionStatus)

  datatype DepositKey = DepositKey(proposal: Pubkey, payer: Pubkey)

  /** The lamports a proposal deposit account holds beyond its rent. */
  datatype ProposalDeposit = ProposalDeposit(lamports: nat)

  /** Everything the instructions of one realm read and write. */
  datatype State = State(
    realm: Realm,
    now: int,
    holdings: map<Pubkey, nat>,
    records: map<TokenOwnerKey, TokenOwnerRecord>,
    governances: map<Pubkey, Governance>,
    required: map<RequiredKey, RequiredSignatory>,
    proposals: map<Pubkey, Proposal>,
    signatories: map<SignatoryKey, SignatoryRecord>,
    votes: map<VoteKey, VoteRecord>,
    transactions: map<TransactionKey, ProposalTransaction>,
    deposits: map<DepositKey, ProposalDeposit>)

  type Step = Result<State, GovernanceError>

  // ---- Reading accounts ---------------------------------------------------------------

  function Load<K, V>(accounts: map<K, V>, key: K): Result<V, GovernanceError> {
    if key in accounts then Ok(accounts[key]) else Err(AccountDoesNotExist)
  }

  function LoadProposal(s: State, p: Pubkey, governance: Pubkey): Result<Proposal, GovernanceError> {
    var proposal :- Load(s.proposals, p);
    :- Need(proposal.governance == governance, InvalidGovernanceForProposal);
    Ok(proposal)
  }

  function LoadProposalOwner(s: State, record: TokenOwnerKey, proposal: Proposal): Result<TokenOwnerRecord,
      GovernanceError> {
    if record != proposal.owner then Err(InvalidProposalOwnerAccount) else
    Load(s.records, record)
  }

  function HoldingOf(s: State, mint: Pubkey): nat {
    if mint in s.holdings then s.holdings[mint] else 0
  }

  // ---- Guards ---------------------------------------------------------------------------

  predicate IsRealmMint(realm: Realm, mint: Pubkey) {
    mint == realm.communityMint || realm.councilMint == Some(mint)
  }

  function TokenTypeOf(realm: Realm, mint: Pubkey): GoverningTokenType {
    if mint == realm.communityMint then realm.communityTokenType else realm.councilTokenType
  }

  /** The owner or its delegate signed the transaction. */
  function AssertOwnerOrDelegateSigned(key: TokenOwnerKey, record: TokenOwnerRecord,
      signer: Option<Pubkey>): Outcome<GovernanceError> {
    Need(signer.Some? && (signer.value == key.owner || record.governanceDelegate == signer),
         GoverningTokenOwnerOrDelegateMustSign)
  }

  /** Draft, SigningOff and Voting are the active states the two proposal counters count. */
  predicate IsActive(state: ProposalState) {
    state == Draft || state == SigningOff || state == Voting
  }

  function AssertCanSignOff(p: Proposal): Outcome<GovernanceError> {
    Need(p.state == Draft || p.state == SigningOff, InvalidStateCannotSignOff)
  }

  function AssertCanEditInstructions(p: Proposal): Outcome<GovernanceError> {
    if p.state != Draft then Fail(InvalidStateCannotEditTransactions)
    else Need(p.denyVoteWeight.Some?, ProposalIsNotExecutable)
  }

  function VotingBaseTimeEnd(p: Proposal, config: GovernanceConfig): int
    requires p.votingAt.Some?
  {
    p.votingAt.value + config.votingBaseTime
  }

  function VotingMaxTimeEnd(p: Proposal, config: GovernanceConfig): int
    requires p.votingAt.Some?
  {
    VotingBaseTimeEnd(p, config) + config.votingCoolOffTime
  }

  function AssertCanCastVote(p: Proposal, config: GovernanceConfig, vote: Vote, now: int): Outcome<GovernanceError> {
    if p.state != Voting then Fail(InvalidStateCannotVote)
    else if p.votingAt.None? then Fail(Panicked)
    else if VotingMaxTimeEnd(p, config) < now then Fail(ProposalVotingTimeExpired)
    else if (vote.Approve? || vote.Abstain?) && VotingBaseTimeEnd(p, config) < now
        then Fail(VoteNotAllowedInCoolOffTime)
    else Pass
  }

  function AssertCanFinalizeVote(p: Proposal, config: GovernanceConfig, now: int): Outcome<GovernanceError> {
    if p.state != Voting then Fail(InvalidStateCannotFinalize)
    else if p.votingAt.None? then Fail(Panicked)
    else Need(VotingMaxTimeEnd(p, config) < now, CannotFinalizeVotingInProgress)
  }

  function AssertCanCancel(p: Proposal, config: GovernanceConfig, now: int): Outcome<GovernanceError> {
    if p.state == Draft || p.state == SigningOff then Pass
    else if p.state != Voting then Fail(InvalidStateCannotCancelProposal)
    else if p.votingAt.None? then Fail(Panicked)
    else Need(!(VotingMaxTimeEnd(p, config) < now), ProposalVotingTimeExpired)
  }

  function AssertCanExecute(p: Proposal, option: nat, transaction: ProposalTransaction, config: GovernanceConfig,
      now: int): Outcome<GovernanceError> {
    if !(p.state == Succeeded || p.state
        == Executing || p.state == ExecutingWithErrors) then Fail(InvalidStateCannotExecuteTransaction)
    else if option >= |p.options| then Fail(Panicked)
    else if p.options[option].voteResult != OptionSucceeded then Fail(CannotExecuteDefeatedOption)
    else if p.votingCompletedAt.None? then Fail(Panicked)
    else if p.votingCompletedAt.value + config.transactionsHoldUpTime >= now
        then Fail(CannotExecuteTransactionWithinHoldUpTime)
    else Need(transaction.executedAt.None?, TransactionAlreadyExecuted)
  }

  function AssertCanComplete(p: Proposal): Outcome<GovernanceError> {
    Need(p.state == Succeeded && forall o :: o in p.options ==> o.transactionsCount == 0,
         InvalidStateToCompleteProposal)
  }

  function AssertValidProposalOptions(labels: seq<string>, voteType: VoteType): Outcome<GovernanceError> {
    if |labels| == 0 || |labels| > 10 then Fail(InvalidProposalOptions)
    else if voteType.MultiChoice? &&
            (|labels| == 1 || voteType.maxVoterOptions != |labels| || voteType.maxWinningOptions != |labels|
                || voteType.minVoterOptions != 1)
    then Fail(InvalidMultiChoiceProposalParameters)
    else Need(forall l :: l in labels ==> l != "", InvalidProposalOptions)
  }

  function AssertCanWithdraw(record: TokenOwnerRecord, locked: bool): Outcome<GovernanceError> {
    if record.unrelinquishedVotesCount > 0 then Fail(AllVotesMustBeRelinquishedToWithdrawGoverningTokens)
    else if record.outstandingProposalCount > 0 then Fail(AllProposalsMustBeFinalisedToWithdrawGoverningTokens)
    else Need(!locked, TokenOwnerRecordLocked)
  }

  function AssertCanCreateProposal(realm: Realm, config: GovernanceConfig, key: TokenOwnerKey, record: TokenOwnerRecord,
      voterWeight: nat): Outcome<GovernanceError> {
    if !IsRealmMint(realm, key.mint) then Fail(InvalidGoverningTokenMint)
    else
      var minimum := if key.mint == realm.communityMint then config.minCommunityWeightToCreateProposal
                     else config.minCouncilWeightToCreateProposal;
      if minimum == U64_MAX then Fail(VoterWeightThresholdDisabled)
      else if voterWeight < minimum then Fail(NotEnoughTokensToCreateProposal)
      else Need(record.outstandingProposalCount < 10, TooManyOutstandingProposals)
  }

  function AssertValidConfig(config: GovernanceConfig): Outcome<GovernanceError> {
    Need(&& IsValidThreshold(config.communityVoteThreshold)
         && IsValidThreshold(config.communityVetoVoteThreshold)
         && IsValidThreshold(config.councilVoteThreshold)
         && IsValidThreshold(config.councilVetoVoteThreshold)
         && !(config.communityVoteThreshold.Disabled? && config.councilVoteThreshold.Disabled?)
         && config.depositExemptProposalCount < U8_MAX,
         InvalidGovernanceConfig)
  }

  predicate IsValidThreshold(threshold: VoteThreshold) {
    match threshold
    case YesVotePercentage(percentage) => 1 <= percentage <= 100
    case QuorumPercentage(_) => false
    case Disabled => true
  }

  function KindOf(vote: Vote): VoteKind {
    if vote.Veto? then VetoKind else Electorate
  }

  /** The mint a proposal must be configured with for the given vote; for a veto, the opposite population's. */
  function ProposalMintForVote(realm: Realm, voteMint: Pubkey, kind: VoteKind): Result<Pubkey, GovernanceError> {
    if kind == Electorate then Ok(voteMint)
    else if realm.communityMint == voteMint then
      if realm.councilMint.Some? then Ok(realm.councilMint.value) else Err(Panicked)
    else if realm.councilMint == Some(voteMint) then Ok(realm.communityMint)
    else Err(InvalidGoverningTokenMint)
  }

  function ResolveVoteThreshold(g: Governance, realm: Realm, voteMint: Pubkey, kind: VoteKind): Result<VoteThreshold,
      GovernanceError> {
    if !IsRealmMint(realm, voteMint) then Err(InvalidGoverningTokenMint) else
    var threshold :=
      if realm.communityMint == voteMint then
        if kind == Electorate then g.config.communityVoteThreshold else g.config.communityVetoVoteThreshold
      else
        if kind == Electorate then g.config.councilVoteThreshold else g.config.councilVetoVoteThreshold;
    :- Need(!threshold.Disabled?, GoverningTokenMintNotAllowedToVote);
    Ok(threshold)
  }

  function VoteTippingFor(g: Governance, realm: Realm, voteMint: Pubkey): Result<VoteTipping, GovernanceError> {
    if voteMint == realm.communityMint then Ok(g.config.communityVoteTipping)
    else if realm.councilMint == Some(voteMint) then Ok(g.config.councilVoteTipping)
    else Err(InvalidGoverningTokenMint)
  }

  const SECURITY_DEPOSIT_BASE_LAMPORTS: nat := 100_000_000

  /** `saturating_sub` then `saturating_mul` on u64. */
  function ProposalDepositAmount(g: Governance): nat {
    var above := if g.activeProposalCount <= g.config.depositExemptProposalCount then 0
                 else g.activeProposalCount - g.config.depositExemptProposalCount;
    if above * SECURITY_DEPOSIT_BASE_LAMPORTS > U64_MAX then U64_MAX else above * SECURITY_DEPOSIT_BASE_LAMPORTS
  }

  /** `decrease_outstanding_proposal_count`. */
  function DecreaseOutstanding(record: TokenOwnerRecord): TokenOwnerRecord {
    if record.outstandingProposalCount != 0
    then record.(outstandingProposalCount := record.outstandingProposalCount - 1)
    else record
  }

  /** `active_proposal_count.saturating_sub(1)`. */
  function DecreaseActive(g: Governance): Governance {
    g.(activeProposalCount := if g.activeProposalCount == 0 then 0 else g.activeProposalCount - 1)
  }
}
