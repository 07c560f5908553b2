/**
 The instruction handlers as they run: each loads the accounts it is given, checks them,
 updates them in place and writes them back. An error leaves every account as it was.
 */
module GovernanceProgram {
  import opened Outcomes
  import opened GovernanceState
  import opened GovernanceSteps
  import opened GovernanceRuns
  import opened GovernanceGuarantees
  import opened VoteResolution

  /** A handler does what the step says: the new accounts and success, or the error and the old accounts. */
  predicate Does(before: State, step: Step, r: Result<(), GovernanceError>, after: State) {
    match step
    case Ok(s) => r == Ok(()) && after == s
    case Err(e) => r == Err(e) && after == before
  }

  /** A handler that does what its step says takes reachable accounts to reachable accounts. */
  lemma HandlersKeepInvariant(before: State, ix: Instruction, r: Result<(), GovernanceError>, after: State)
    requires Invariant(before) && Does(before, Apply(before, ix), r, after)
    ensures after == Next(before, ix) && Invariant(after)
  {
    hide Apply, Invariant;
    InvariantStep(before, ix);
  }

  lemma ReturnPanics(s: State, ix: Instruction)
    requires Invariant(s) && ix.RelinquishIx?
    ensures Apply(s, ix) == Err(Panicked) <==> CouncilUnwrapFails(s, ix.p, ix.g, ix.voter)
  {
    hide CreateTokenOwnerRecord, DepositTokens, WithdrawTokens, RevokeTokens, SetDelegate, CreateGovernance,
         SetGovernanceConfig, AddRequiredSignatory, RemoveRequiredSignatory, CreateProposal, AddSignatory, SignOff,
         InsertTransaction, RemoveTransaction, CancelProposal, CastVote, RelinquishVote,
           FinalizeVote,
         ExecuteTransaction, CompleteProposal, RefundDeposit, Invariant, CouncilUnwrapFails;
    RelinquishPanicsExactly(s, ix.p, ix.g, ix.voter, ix.signer);
  }

  // ---- Tallies ------------------------------------------------------------------------------------------

  /** The loop that adds a vote's choices to the options. */
  method AddToOptions(options: seq<ProposalOption>, choices: seq<VoteChoice>, weight: nat)
    returns (r: Result<seq<ProposalOption>, GovernanceError>)
    ensures r == AddChoices(options, choices, weight, 0)
  {
    var updated := options;
    var i := 0;
    while i < |updated| && i < |choices|
      invariant i <= |updated| == |options|
      invariant AddChoices(options, choices, weight, 0) == AddChoices(updated, choices, weight, i)
    {
      var share :- ChoiceWeight(choices[i], weight);
      if updated[i].voteWeight + share > U64_MAX {
        return Err(Panicked);
      }
      updated := updated[i := updated[i].(voteWeight := updated[i].voteWeight + share)];
      i := i + 1;
    }
    return Ok(updated);
  }

  /** The loop that takes a vote's choices out of the options. */
  method TakeFromOptions(options: seq<ProposalOption>, choices: seq<VoteChoice>, weight: nat)
    returns (r: Result<seq<ProposalOption>, GovernanceError>)
    ensures r == SubtractChoices(options, choices, weight, 0)
  {
    var updated := options;
    var i := 0;
    while i < |updated| && i < |choices|
      invariant i <= |updated| == |options|
      invariant SubtractChoices(options, choices, weight, 0) == SubtractChoices(updated, choices, weight, i)
    {
      var share :- ChoiceWeight(choices[i], weight);
      if updated[i].voteWeight < share {
        return Err(Panicked);
      }
      updated := updated[i := updated[i].(voteWeight := updated[i].voteWeight - share)];
      i := i + 1;
    }
    return Ok(updated);
  }

  method CountInto(p: Proposal, vote: Vote, weight: nat) returns (r: Result<Proposal, GovernanceError>)
    ensures r == AddVote(p, vote, weight)
  {
    match vote
    case Approve(choices) =>
      var added := AddToOptions(p.options, choices, weight);
      var options :- added;
      return Ok(p.(options := options));
    case Deny =>
      :- Need(p.denyVoteWeight.Some? && p.denyVoteWeight.value + weight <= U64_MAX, Panicked);
      return Ok(p.(denyVoteWeight := Some(p.denyVoteWeight.value + weight)));
    case Veto =>
      :- Need(p.vetoVoteWeight + weight <= U64_MAX, Panicked);
      return Ok(p.(vetoVoteWeight := p.vetoVoteWeight + weight));
    case Abstain => return Err(NotSupportedVoteType);
  }

  method TakeOut(p: Proposal, vote: Vote, weight: nat) returns (r: Result<Proposal, GovernanceError>)
    ensures r == SubtractVote(p, vote, weight)
  {
    match vote
    case Approve(choices) =>
      var taken := TakeFromOptions(p.options, choices, weight);
      var options :- taken;
      return Ok(p.(options := options));
    case Deny =>
      :- Need(p.denyVoteWeight.Some? && weight <= p.denyVoteWeight.value, Panicked);
      return Ok(p.(denyVoteWeight := Some(p.denyVoteWeight.value - weight)));
    case Veto =>
      :- Need(weight <= p.vetoVoteWeight, Panicked);
      return Ok(p.(vetoVoteWeight := p.vetoVoteWeight - weight));
    case Abstain => return Err(NotSupportedVoteType);
  }

  /** `finalize_vote`. */
  method Finalize(p: Proposal, max: nat, config: GovernanceConfig, now: int, threshold: VoteThreshold)
    returns (r: Result<Proposal, GovernanceError>)
    ensures r == FinalizedVote(p, max, config, now, threshold)
  {
    hide Best, CountAt;
    :- AssertCanFinalizeVote(p, config, now);
    var min := MinVoteThresholdWeight(threshold, max);
    if min.Err? {
      return Err(Panicked);
    }
    var results, state := ResolveFinalVoteState(p.voteType, p.options, p.denyVoteWeight, min.value);
    return Ok(p.(state := state, options := WithResults(p.options, results),
        votingCompletedAt := Some(VotingMaxTimeEnd(p, config))));
  }

  method CountOne(option: ProposalOption, index: nat) returns (r: Result<ProposalOption, GovernanceError>)
    ensures r == CountInserted(option, index)
  {
    var o := option;
    if index > o.transactionsNextIndex {
      return Err(InvalidTransactionIndex);
    } else if index == o.transactionsNextIndex {
      if o.transactionsNextIndex >= U16_MAX {
        return Err(Panicked);
      }
      o := o.(transactionsNextIndex := o.transactionsNextIndex + 1);
    }
    :- Need(o.transactionsCount < U16_MAX, Panicked);
    o := o.(transactionsCount := o.transactionsCount + 1);
    return Ok(o);
  }

  /** One more executed transaction; the last one completes the proposal. */
  method CountExecution(p: Proposal, option: nat, now: int) returns (r: Result<Proposal, GovernanceError>)
    requires option < |p.options|
    ensures r == CountExecuted(p, option, now)
  {
    var proposal := p;
    if proposal.state == Succeeded {
      proposal := proposal.(executingAt := Some(now), state := Executing);
    }
    var o := proposal.options[option];
    :- Need(o.transactionsExecutedCount < U16_MAX, Panicked);
    o := o.(transactionsExecutedCount := o.transactionsExecutedCount + 1);
    proposal := proposal.(options := proposal.options[option := o]);
    if (proposal.state == Executing || proposal.state == ExecutingWithErrors) && AllExecuted(proposal) {
      proposal := proposal.(closedAt := Some(now), state := Completed);
    }
    return Ok(proposal);
  }

  lemma LastWriteWins<K, V>(accounts: map<K, V>, key: K, first: V, last: V)
    ensures accounts[key := first][key := last] == accounts[key := last]
  {
  }

  lemma WritesCommute<K, V>(accounts: map<K, V>, key: K, v: V, key': K, v': V)
    requires key != key'
    ensures accounts[key := v][key' := v'] == accounts[key' := v'][key := v]
  {
  }

  class Program {
    var realm: Realm
    var now: int
    var holdings: map<Pubkey, nat>
    var records: map<TokenOwnerKey, TokenOwnerRecord>
    var governances: map<Pubkey, Governance>
    var required: map<RequiredKey, RequiredSignatory>
    var proposals: map<Pubkey, Proposal>
    var signatories: map<SignatoryKey, SignatoryRecord>
    var votes: map<VoteKey, VoteRecord>
    var transactions: map<TransactionKey, ProposalTransaction>
    var deposits: map<DepositKey, ProposalDeposit>

    function Accounts(): State
      reads this
    {
      State(realm, now, holdings, records, governances, required, proposals, signatories, votes, transactions, deposits)
    }

    /** The accounts satisfy the invariant of every reachable state. */
    ghost predicate Valid()
      reads this
    {
      Invariant(Accounts())
    }

    constructor (realm: Realm, now: int)
      ensures Valid() && Accounts() == EmptyState(realm, now)
    {
      this.realm, this.now := realm, now;
      holdings, records, governances, required := map[], map[], map[], map[];
      proposals, signatories, votes, transactions, deposits := map[], map[], map[], map[], map[];
      new;
      EmptyStateInvariant(realm, now);
    }

    // ---- Governing tokens ---------------------------------------------------------------------------------

    method CreateRecord(key: TokenOwnerKey) returns (r: Result<(), GovernanceError>)
      modifies this
      ensures Does(old(Accounts()), CreateTokenOwnerRecord(old(Accounts()), key), r, Accounts())
    {
      if !IsRealmMint(realm, key.mint) {
        return Err(InvalidGoverningTokenMint);
      }
      :- Need(key !in records, TokenOwnerRecordAlreadyExists);
      records := records[key := EMPTY_RECORD];
      return Ok(());
    }

    method Deposit(key: TokenOwnerKey, amount: nat, ownerSigned: bool, funded: bool)
      returns (r: Result<(), GovernanceError>)
      modifies this
      ensures Does(old(Accounts()), DepositTokens(old(Accounts()), key, amount, ownerSigned, funded), r, Accounts())
    {
      if !IsRealmMint(realm, key.mint) {
        return Err(InvalidGoverningTokenMint);
      }
      :- Need(TokenTypeOf(realm, key.mint) != Dormant, CannotDepositDormantTokens);
      var record := EMPTY_RECORD;
      if key in records {
        record := records[key];
      } else if !ownerSigned {
        return Err(GoverningTokenOwnerMustSign);
      }
      var held := HoldingOf(Accounts(), key.mint) + amount;
      :- Need(funded && held <= U64_MAX, InsufficientFunds);
      :- Need(record.depositAmount + amount <= U64_MAX, Panicked);
      record := record.(depositAmount := record.depositAmount + amount);
      holdings := holdings[key.mint := held];
      records := records[key := record];
      return Ok(());
    }

    method Withdraw(key: TokenOwnerKey, ownerSigned: bool, locked: bool, toHolding: bool)
      returns (r: Result<(), GovernanceError>)
      modifies this
      ensures Does(old(Accounts()), WithdrawTokens(old(Accounts()), key, ownerSigned, locked, toHolding), r, Accounts())
    {
      if !ownerSigned {
        return Err(GoverningTokenOwnerMustSign);
      }
      :- Need(IsRealmMint(realm, key.mint), InvalidGoverningTokenMint);
      :- Need(TokenTypeOf(realm, key.mint) != Membership, CannotWithdrawMembershipTokens);
      var record :- Load(records, key);
      :- AssertCanWithdraw(record, locked);
      var held := HoldingOf(Accounts(), key.mint);
      :- Need(record.depositAmount <= held, InsufficientFunds);
      if !toHolding {
        held := held - record.depositAmount;
      }
      record := record.(depositAmount := 0);
      holdings := holdings[key.mint := held];
      records := records[key := record];
      return Ok(());
    }

    method Revoke(key: TokenOwnerKey, amount: nat, authorized: bool) returns (r: Result<(), GovernanceError>)
      modifies this
      ensures Does(old(Accounts()), RevokeTokens(old(Accounts()), key, amount, authorized), r, Accounts())
    {
      if !IsRealmMint(realm, key.mint) {
        return Err(InvalidGoverningTokenMint);
      }
      :- Need(TokenTypeOf(realm, key.mint) == Membership, CannotRevokeGoverningTokens);
      var record :- Load(records, key);
      :- Need(authorized, GoverningTokenOwnerMustSign);
      :- Need(amount <= record.depositAmount, InvalidRevokeAmount);
      record := record.(depositAmount := record.depositAmount - amount);
      var held := HoldingOf(Accounts(), key.mint);
      :- Need(amount <= held, InsufficientFunds);
      holdings := holdings[key.mint := held - amount];
      records := records[key := record];
      return Ok(());
    }

    method Delegate(key: TokenOwnerKey, signer: Option<Pubkey>, delegate: Option<Pubkey>)
      returns (r: Result<(), GovernanceError>)
      modifies this
      ensures Does(old(Accounts()), SetDelegate(old(Accounts()), key, signer, delegate), r, Accounts())
    {
      if key !in records {
        return Err(AccountDoesNotExist);
      }
      :- AssertOwnerOrDelegateSigned(key, records[key], signer);
      records := records[key := records[key].(governanceDelegate := delegate)];
      return Ok(());
    }

    /** Removes the council when its mint is not passed; the token types are set in either case. */
    method ConfigureRealm(authorized: bool, council: Option<Pubkey>, communityType: GoverningTokenType,
        councilType: GoverningTokenType)
      returns (r: Result<(), GovernanceError>)
      modifies this
      ensures Does(old(Accounts()), SetRealmConfig(old(Accounts()), authorized, council, communityType, councilType), r,
          Accounts())
    {
      if !authorized {
        return Err(RealmAuthorityMustSign);
      }
      var configured := realm;
      if council.Some? {
        if configured.councilMint != council {
          return Err(RealmCouncilMintChangeIsNotSupported);
        }
      } else {
        configured := configured.(councilMint := None);
      }
      if realm.communityTokenType != Membership && communityType == Membership {
        return Err(CannotChangeCommunityTokenTypeToMembership);
      }
      realm := configured.(communityTokenType := communityType, councilTokenType := councilType);
      return Ok(());
    }

    // ---- Governances ------------------------------------------------------------------------------------------

    method Govern(g: Pubkey, config: GovernanceConfig) returns (r: Result<(), GovernanceError>)
      modifies this
      ensures Does(old(Accounts()), CreateGovernance(old(Accounts()), g, config), r, Accounts())
    {
      hide AssertValidConfig;
      var allowed := AssertValidConfig(config);
      :- allowed;
      :- Need(g !in governances, AccountAlreadyInitialized);
      governances := governances[g := Governance(config, 0, 0)];
      return Ok(());
    }

    method Configure(g: Pubkey, config: GovernanceConfig, pdaSigned: bool) returns (r: Result<(), GovernanceError>)
      modifies this
      ensures Does(old(Accounts()), SetGovernanceConfig(old(Accounts()), g, config, pdaSigned), r, Accounts())
    {
      hide AssertValidConfig;
      if !pdaSigned {
        return Err(GovernancePdaMustSign);
      }
      :- AssertValidConfig(config);
      var governance :- Load(governances, g);
      governances := governances[g := governance.(config := config)];
      return Ok(());
    }

    // ---- Required signatories -------------------------------------------------------------------------------

    method AddRequired(g: Pubkey, signatory: Pubkey, pdaSigned: bool) returns (r: Result<(), GovernanceError>)
      modifies this
      ensures Does(old(Accounts()), AddRequiredSignatory(old(Accounts()), g, signatory, pdaSigned), r, Accounts())
    {
      if !pdaSigned {
        return Err(GovernancePdaMustSign);
      }
      var governance :- Load(governances, g);
      :- Need(governance.requiredSignatoriesCount < U8_MAX, Panicked);
      governance := governance.(requiredSignatoriesCount := governance.requiredSignatoriesCount + 1);
      :- Need(RequiredKey(g, signatory) !in required, AccountAlreadyInitialized);
      required := required[RequiredKey(g, signatory) := RequiredSignatory(signatory)];
      governances := governances[g := governance];
      return Ok(());
    }

    method RemoveRequired(g: Pubkey, signatory: Pubkey, pdaSigned: bool) returns (r: Result<(), GovernanceError>)
      modifies this
      ensures Does(old(Accounts()), RemoveRequiredSignatory(old(Accounts()), g, signatory, pdaSigned), r, Accounts())
    {
      if !pdaSigned {
        return Err(GovernancePdaMustSign);
      }
      var governance :- Load(governances, g);
      var _ :- Load(required, RequiredKey(g, signatory));
      :- Need(governance.requiredSignatoriesCount > 0, Panicked);
      governance := governance.(requiredSignatoriesCount := governance.requiredSignatoriesCount - 1);
      governances := governances[g := governance];
      required := required - {RequiredKey(g, signatory)};
      return Ok(());
    }

    // ---- Drafting a proposal ----------------------------------------------------------------------------------

    method CheckCreation(p: Pubkey, g: Pubkey, mint: Pubkey, owner: TokenOwnerKey, signer: Option<Pubkey>,
        addinWeight: Option<nat>, labels: seq<string>, voteType: VoteType)
      returns (r: Result<(Governance, TokenOwnerRecord), GovernanceError>)
      ensures r == MayCreate(Accounts(), p, g, mint, owner, signer, addinWeight, labels, voteType)
    {
      hide AssertCanCreateProposal, AssertValidProposalOptions, ResolveVoteThreshold, VoterWeight;
      :- Need(p !in proposals, ProposalAlreadyExists);
      :- Need(IsRealmMint(realm, mint), InvalidGoverningTokenMint);
      var governance :- Load(governances, g);
      var _ :- ResolveVoteThreshold(governance, realm, mint, Electorate);
      var record :- Load(records, owner);
      :- AssertOwnerOrDelegateSigned(owner, record, signer);
      :- AssertCanCreateProposal(realm, governance.config, owner, record, VoterWeight(record, addinWeight));
      :- AssertValidProposalOptions(labels, voteType);
      return Ok((governance, record));
    }

    method Create(p: Pubkey, g: Pubkey, mint: Pubkey, owner: TokenOwnerKey, signer: Option<Pubkey>, payer: Pubkey,
        addinWeight: Option<nat>, labels: seq<string>, voteType: VoteType, useDeny: bool)
      returns (r: Result<(), GovernanceError>)
      modifies this
      ensures Does(old(Accounts()),
          CreateProposal(old(Accounts()), p, g, mint, owner, signer, payer, addinWeight, labels, voteType, useDeny),
          r, Accounts())
    {
      hide MayCreate, OpenProposal, NewProposal;
      var checked := CheckCreation(p, g, mint, owner, signer, addinWeight, labels, voteType);
      var loaded :- checked;
      r := Open(p, NewProposal(g, mint, owner, labels, voteType, useDeny, now), payer, loaded.0, loaded.1);
    }

    method Open(p: Pubkey, proposal: Proposal, payer: Pubkey, loadedGovernance: Governance,
        loadedRecord: TokenOwnerRecord)
      returns (r: Result<(), GovernanceError>)
      modifies this
      ensures Does(old(Accounts()),
          OpenProposal(old(Accounts()), p, proposal, payer, loadedGovernance, loadedRecord), r, Accounts())
    {
      hide ProposalDepositAmount, TakeDeposit;
      var (governance, record) := (loadedGovernance, loadedRecord);
      record := record.(outstandingProposalCount := record.outstandingProposalCount + 1);
      :- Need(governance.activeProposalCount < U64_MAX, Panicked);
      governance := governance.(activeProposalCount := governance.activeProposalCount + 1);
      var taken :- TakeDeposit(deposits, DepositKey(p, payer), ProposalDepositAmount(governance));
      records := records[proposal.owner := record];
      proposals := proposals[p := proposal];
      governances := governances[proposal.governance := governance];
      deposits := taken;
      return Ok(());
    }

    method AddOneSignatory(p: Pubkey, g: Pubkey, signatory: Pubkey, owner: TokenOwnerKey, signer: Option<Pubkey>)
      returns (r: Result<(), GovernanceError>)
      modifies this
      ensures Does(old(Accounts()), AddSignatory(old(Accounts()), p, g, signatory, owner, signer), r, Accounts())
    {
      var governance :- Load(governances, g);
      var proposal :- LoadProposal(Accounts(), p, g);
      :- Need(proposal.state == Draft, InvalidStateCannotEditSignatories);
      :- Need(SignatoryKey(p, signatory) !in signatories, SignatoryRecordAlreadyExists);
      if proposal.signatoriesCount < governance.requiredSignatoriesCount {
        var account :- Load(required, RequiredKey(g, signatory));
        :- Need(account.signatory == signatory, InvalidSignatoryAddress);
      } else {
        var record :- LoadProposalOwner(Accounts(), owner, proposal);
        :- AssertOwnerOrDelegateSigned(owner, record, signer);
      }
      :- Need(proposal.signatoriesCount < U8_MAX, Panicked);
      proposal := proposal.(signatoriesCount := proposal.signatoriesCount + 1);
      signatories := signatories[SignatoryKey(p, signatory) := SignatoryRecord(false)];
      proposals := proposals[p := proposal];
      return Ok(());
    }

    method SignOffProposal(p: Pubkey, g: Pubkey, signatory: Pubkey, isSigner: bool, owner: TokenOwnerKey)
      returns (r: Result<(), GovernanceError>)
      modifies this
      ensures Does(old(Accounts()), SignOff(old(Accounts()), p, g, signatory, isSigner, owner), r, Accounts())
    {
      var governance :- Load(governances, g);
      var proposal :- LoadProposal(Accounts(), p, g);
      :- AssertCanSignOff(proposal);
      if governance.requiredSignatoriesCount > 0 && proposal.signatoriesCount < governance.requiredSignatoriesCount {
        return Err(MissingRequiredSignatories);
      }
      var signed := signatories;
      if proposal.signatoriesCount == 0 {
        var record :- LoadProposalOwner(Accounts(), owner, proposal);
        :- AssertOwnerOrDelegateSigned(owner, record, if isSigner then Some(signatory) else None);
        proposal := proposal.(signingOffAt := Some(now));
      } else {
        var record :- Load(signatories, SignatoryKey(p, signatory));
        :- Need(!record.signedOff, SignatoryAlreadySignedOff);
        :- Need(isSigner, SignatoryMustSign);
        signed := signatories[SignatoryKey(p, signatory) := record.(signedOff := true)];
        if proposal.signatoriesSignedOffCount == 0 {
          proposal := proposal.(signingOffAt := Some(now), state := SigningOff);
        }
        :- Need(proposal.signatoriesSignedOffCount < U8_MAX, Panicked);
        proposal := proposal.(signatoriesSignedOffCount := proposal.signatoriesSignedOffCount + 1);
      }
      if proposal.signatoriesSignedOffCount == proposal.signatoriesCount {
        proposal := proposal.(votingAt := Some(now), state := Voting);
      }
      signatories := signed;
      proposals := proposals[p := proposal];
      return Ok(());
    }

    method Insert(p: Pubkey, g: Pubkey, owner: TokenOwnerKey, signer: Option<Pubkey>, option: nat, index: nat)
      returns (r: Result<(), GovernanceError>)
      modifies this
      ensures Does(old(Accounts()), InsertTransaction(old(Accounts()), p, g, owner, signer, option, index), r,
          Accounts())
    {
      hide CountInserted, AuthorizeOwner, WithOption;
      var key := TransactionKey(p, option, index);
      :- Need(key !in transactions, TransactionAlreadyExists);
      var _ :- Load(governances, g);
      var proposal :- LoadProposal(Accounts(), p, g);
      :- AssertCanEditInstructions(proposal);
      var _ :- AuthorizeOwner(Accounts(), proposal, owner, signer);
      :- Need(option < |proposal.options|, Panicked);
      var counted := CountOne(proposal.options[option], index);
      var o :- counted;
      proposals := proposals[p := WithOption(proposal, option, o)];
      transactions := transactions[key := ProposalTransaction(None, NotExecuted)];
      return Ok(());
    }

    method Remove(p: Pubkey, owner: TokenOwnerKey, signer: Option<Pubkey>, option: nat, index: nat)
      returns (r: Result<(), GovernanceError>)
      modifies this
      ensures Does(old(Accounts()), RemoveTransaction(old(Accounts()), p, owner, signer, option, index), r, Accounts())
    {
      var key := TransactionKey(p, option, index);
      var proposal :- Load(proposals, p);
      :- AssertCanEditInstructions(proposal);
      var _ :- AuthorizeOwner(Accounts(), proposal, owner, signer);
      var _ :- Load(transactions, key);
      :- Need(option < |proposal.options|, Panicked);
      var o := proposal.options[option];
      :- Need(o.transactionsCount > 0, Panicked);
      o := o.(transactionsCount := o.transactionsCount - 1);
      transactions := transactions - {key};
      proposals := proposals[p := WithOption(proposal, option, o)];
      return Ok(());
    }

    method Cancel(p: Pubkey, g: Pubkey, owner: TokenOwnerKey, signer: Option<Pubkey>)
      returns (r: Result<(), GovernanceError>)
      modifies this
      ensures Does(old(Accounts()), CancelProposal(old(Accounts()), p, g, owner, signer), r, Accounts())
    {
      hide AssertCanCancel, DecreaseActive, DecreaseOutstanding;
      var governance :- Load(governances, g);
      var proposal :- LoadProposal(Accounts(), p, g);
      :- AssertCanCancel(proposal, governance.config, now);
      var record :- LoadProposalOwner(Accounts(), owner, proposal);
      :- AssertOwnerOrDelegateSigned(owner, record, signer);
      records := records[owner := DecreaseOutstanding(record)];
      proposal := proposal.(state := Cancelled, closedAt := Some(now));
      proposals := proposals[p := proposal];
      governances := governances[g := DecreaseActive(governance)];
      return Ok(());
    }

    // ---- Voting -----------------------------------------------------------------------------------------------

    method CheckVoter(p: Pubkey, g: Pubkey, voter: TokenOwnerKey, signer: Option<Pubkey>, vote: Vote)
      returns (r: Result<Eligibility, GovernanceError>)
      ensures r == Eligible(Accounts(), p, g, voter, signer, vote)
    {
      hide ProposalMintForVote, AssertCanCastVote;
      :- Need(VoteKey(p, voter) !in votes, VoteAlreadyExists);
      :- Need(IsRealmMint(realm, voter.mint), InvalidGoverningTokenMint);
      var governance :- Load(governances, g);
      var mint :- ProposalMintForVote(realm, voter.mint, KindOf(vote));
      var proposal :- LoadProposal(Accounts(), p, g);
      :- Need(proposal.governingTokenMint == mint, InvalidGoverningMintForProposal);
      :- AssertCanCastVote(proposal, governance.config, vote, now);
      var record :- Load(records, voter);
      :- AssertOwnerOrDelegateSigned(voter, record, signer);
      return Ok(Eligibility(governance, proposal, record));
    }

    /** The checks and the count of a cast vote; no account is written yet. */
    method CountVote(p: Pubkey, g: Pubkey, voter: TokenOwnerKey, signer: Option<Pubkey>, vote: Vote,
        addinWeight: Option<nat>, source: MaxWeightSource)
      returns (r: Result<Ballot, GovernanceError>)
      ensures r == Count(Accounts(), p, g, voter, signer, vote, addinWeight, source)
    {
      hide Eligible, AddVote, TryTipVote, AssertValidVote, ResolveMaxVoterWeight, ResolveVoteThreshold, VoteTippingFor;
      var checked := CheckVoter(p, g, voter, signer, vote);
      var eligible :- checked;
      var Eligibility(governance, proposal, record) := eligible;
      :- Need(record.unrelinquishedVotesCount < U64_MAX, Panicked);
      record := record.(unrelinquishedVotesCount := record.unrelinquishedVotesCount + 1);
      var weight := VoterWeight(record, addinWeight);
      var valid := CheckVote(proposal, vote);
      :- valid;
      var counted := CountInto(proposal, vote, weight);
      proposal :- counted;
      var kind := KindOf(vote);
      var max :- ResolveMaxVoterWeight(proposal, source, kind);
      var threshold :- ResolveVoteThreshold(governance, realm, voter.mint, kind);
      var tipping :- VoteTippingFor(governance, realm, voter.mint);
      var tipped :- TryTipVote(proposal, max, tipping, now, threshold, kind);
      return Ok(Ballot(governance, record, weight, proposal, tipped));
    }

    method Cast(p: Pubkey, g: Pubkey, voter: TokenOwnerKey, owner: TokenOwnerKey, signer: Option<Pubkey>, vote: Vote,
        addinWeight: Option<nat>, source: MaxWeightSource)
      returns (r: Result<(), GovernanceError>)
      modifies this
      ensures Does(old(Accounts()), CastVote(old(Accounts()), p, g, voter, owner, signer, vote, addinWeight, source),
          r, Accounts())
    {
      hide Count, CloseTipped;
      var counted := CountVote(p, g, voter, signer, vote, addinWeight, source);
      var ballot :- counted;
      if ballot.tipped.Some? {
        r := WriteTipped(p, voter, owner, vote, ballot);
        return;
      }
      records := records[voter := ballot.record];
      proposals := proposals[p := ballot.counted];
      votes := votes[VoteKey(p, voter) := VoteRecord(ballot.weight, vote, false)];
      return Ok(());
    }

    /** The vote decided the proposal: the owner's and the governance's counters go down with it. */
    method WriteTipped(p: Pubkey, voter: TokenOwnerKey, owner: TokenOwnerKey, vote: Vote, ballot: Ballot)
      returns (r: Result<(), GovernanceError>)
      requires ballot.tipped.Some?
      modifies this
      ensures var voted := Voted(old(Accounts()), p, voter, vote, ballot);
              match CloseTipped(voted, p, ballot.tipped.value, owner, ballot.governance)
              case Ok(s) => r == Ok(()) && Accounts() == s
              case Err(e) => r == Err(e) && Accounts() == old(Accounts())
    {
      hide DecreaseActive, DecreaseOutstanding;
      var tipped := ballot.tipped.value;
      :- Need(owner == tipped.owner, InvalidProposalOwnerAccount);
      LastWriteWins(proposals, p, ballot.counted, tipped);
      var (voterRecord, written) := (ballot.record, records);
      if owner == voter {
        // the voter's own copy is the one written back
        voterRecord := DecreaseOutstanding(voterRecord);
        LastWriteWins(records, voter, ballot.record, voterRecord);
      } else {
        var ownerRecord :- Load(records, owner);
        written := written[owner := DecreaseOutstanding(ownerRecord)];
        WritesCommute(records, voter, ballot.record, owner, DecreaseOutstanding(ownerRecord));
      }
      governances := governances[tipped.governance := DecreaseActive(ballot.governance)];
      records := written[voter := voterRecord];
      proposals := proposals[p := tipped];
      votes := votes[VoteKey(p, voter) := VoteRecord(ballot.weight, vote, false)];
      return Ok(());
    }

    method Relinquish(p: Pubkey, g: Pubkey, voter: TokenOwnerKey, signer: Option<Pubkey>)
      returns (r: Result<(), GovernanceError>)
      modifies this
      ensures Does(old(Accounts()), RelinquishVote(old(Accounts()), p, g, voter, signer), r, Accounts())
    {
      hide ProposalMintForVote, RetractVote, MarkVote;
      :- Need(IsRealmMint(realm, voter.mint), InvalidGoverningTokenMint);
      var governance :- Load(governances, g);
      var proposal :- LoadProposal(Accounts(), p, g);
      var record :- Load(records, voter);
      var key := VoteKey(p, voter);
      var voteRecord :- Load(votes, key);
      var mint :- ProposalMintForVote(realm, voter.mint, KindOf(voteRecord.vote));
      :- Need(proposal.governingTokenMint == mint, InvalidGoverningMintForProposal);
      :- Need(!voteRecord.isRelinquished, VoteAlreadyRelinquished);
      :- Need(proposal.state == Voting ==> proposal.votingAt.Some?, Panicked);
      if proposal.state == Voting && !(VotingMaxTimeEnd(proposal, governance.config) < now) {
        r := Retract(key, proposal, record, voteRecord, signer);
      } else {
        r := Mark(key, proposal, record, voteRecord);
      }
    }

    method Retract(key: VoteKey, proposal: Proposal, record: TokenOwnerRecord, voteRecord: VoteRecord,
        signer: Option<Pubkey>)
      returns (r: Result<(), GovernanceError>)
      modifies this
      ensures Does(old(Accounts()), RetractVote(old(Accounts()), key, proposal, record, voteRecord, signer), r,
          Accounts())
    {
      hide SubtractVote;
      :- AssertOwnerOrDelegateSigned(key.voter, record, signer);
      var taken := TakeOut(proposal, voteRecord.vote, voteRecord.voterWeight);
      var updated :- taken;
      :- Need(record.unrelinquishedVotesCount > 0, Panicked);
      proposals := proposals[key.proposal := updated];
      votes := votes - {key};
      records := records[key.voter := record.(unrelinquishedVotesCount := record.unrelinquishedVotesCount - 1)];
      return Ok(());
    }

    method Mark(key: VoteKey, proposal: Proposal, record: TokenOwnerRecord, voteRecord: VoteRecord)
      returns (r: Result<(), GovernanceError>)
      modifies this
      ensures Does(old(Accounts()), MarkVote(old(Accounts()), key, proposal, record, voteRecord), r, Accounts())
    {
      if proposal.state == Voting {
        return Err(CannotRelinquishInFinalizingState);
      }
      :- Need(record.unrelinquishedVotesCount > 0, Panicked);
      votes := votes[key := voteRecord.(isRelinquished := true)];
      records := records[key.voter := record.(unrelinquishedVotesCount := record.unrelinquishedVotesCount - 1)];
      return Ok(());
    }

    method FinalizeProposal(p: Pubkey, g: Pubkey, owner: TokenOwnerKey, mint: Pubkey, source: MaxWeightSource)
      returns (r: Result<(), GovernanceError>)
      modifies this
      ensures Does(old(Accounts()), FinalizeVote(old(Accounts()), p, g, owner, mint, source), r, Accounts())
    {
      hide FinalizedVote, ResolveMaxVoterWeight, ResolveVoteThreshold, DecreaseActive, DecreaseOutstanding;
      :- Need(IsRealmMint(realm, mint), InvalidGoverningTokenMint);
      var governance :- Load(governances, g);
      var proposal :- LoadProposal(Accounts(), p, g);
      :- Need(proposal.governingTokenMint == mint, InvalidGoverningMintForProposal);
      var max :- ResolveMaxVoterWeight(proposal, source, Electorate);
      var threshold :- ResolveVoteThreshold(governance, realm, mint, Electorate);
      var finalized := Finalize(proposal, max, governance.config, now, threshold);
      proposal :- finalized;
      var record :- LoadProposalOwner(Accounts(), owner, proposal);
      records := records[proposal.owner := DecreaseOutstanding(record)];
      proposals := proposals[p := proposal];
      governances := governances[proposal.governance := DecreaseActive(governance)];
      return Ok(());
    }

    // ---- After the decision ---------------------------------------------------------------------------------

    method Execute(p: Pubkey, g: Pubkey, option: nat, index: nat, invoked: bool)
      returns (r: Result<(), GovernanceError>)
      modifies this
      ensures Does(old(Accounts()), ExecuteTransaction(old(Accounts()), p, g, option, index, invoked), r, Accounts())
    {
      hide CountExecuted;
      var governance :- Load(governances, g);
      var proposal :- LoadProposal(Accounts(), p, g);
      var key := TransactionKey(p, option, index);
      var transaction :- Load(transactions, key);
      :- AssertCanExecute(proposal, option, transaction, governance.config, now);
      :- Need(invoked, Panicked);
      var counted := CountExecution(proposal, option, now);
      proposal :- counted;
      transaction := transaction.(executedAt := Some(now), executionStatus := Success);
      proposals := proposals[p := proposal];
      transactions := transactions[key := transaction];
      return Ok(());
    }

    method Complete(p: Pubkey, owner: TokenOwnerKey, signer: Option<Pubkey>) returns (r: Result<(), GovernanceError>)
      modifies this
      ensures Does(old(Accounts()), CompleteProposal(old(Accounts()), p, owner, signer), r, Accounts())
    {
      var proposal :- Load(proposals, p);
      :- AssertCanComplete(proposal);
      var record :- LoadProposalOwner(Accounts(), owner, proposal);
      :- AssertOwnerOrDelegateSigned(owner, record, signer);
      proposal := proposal.(closedAt := Some(now), state := Completed);
      proposals := proposals[p := proposal];
      return Ok(());
    }

    method Refund(p: Pubkey, payer: Pubkey) returns (r: Result<(), GovernanceError>)
      modifies this
      ensures Does(old(Accounts()), RefundDeposit(old(Accounts()), p, payer), r, Accounts())
    {
      if p !in proposals {
        return Err(AccountDoesNotExist);
      }
      :- Need(!IsActive(proposals[p].state), CannotRefundProposalDeposit);
      var _ :- Load(deposits, DepositKey(p, payer));
      deposits := deposits - {DepositKey(p, payer)};
      return Ok(());
    }

    // ---- Any instruction ------------------------------------------------------------------------------------

    /** The dispatch to the handlers. */
    method Dispatch(ix: Instruction) returns (r: Result<(), GovernanceError>)
      modifies this
      ensures Does(old(Accounts()), Apply(old(Accounts()), ix), r, Accounts())
    {
      hide CreateTokenOwnerRecord, DepositTokens, WithdrawTokens, RevokeTokens, SetDelegate, SetRealmConfig,
           CreateGovernance, SetGovernanceConfig, AddRequiredSignatory, RemoveRequiredSignatory, CreateProposal,
           AddSignatory, SignOff, InsertTransaction, RemoveTransaction, CancelProposal, CastVote, RelinquishVote,
           FinalizeVote, ExecuteTransaction, CompleteProposal, RefundDeposit, Accounts, Invariant;
      match ix
      case CreateTokenOwnerRecordIx(key) => r := CreateRecord(key);
      case DepositIx(key, amount, ownerSigned, funded) => r := Deposit(key, amount, ownerSigned, funded);
      case WithdrawIx(key, ownerSigned, locked, toHolding) => r := Withdraw(key, ownerSigned, locked, toHolding);
      case RevokeIx(key, amount, authorized) => r := Revoke(key, amount, authorized);
      case SetDelegateIx(key, signer, delegate) => r := Delegate(key, signer, delegate);
      case SetRealmConfigIx(authorized, council, communityType, councilType) =>
        r := ConfigureRealm(authorized, council, communityType, councilType);
      case CreateGovernanceIx(g, config) => r := Govern(g, config);
      case SetConfigIx(g, config, pdaSigned) => r := Configure(g, config, pdaSigned);
      case AddRequiredIx(g, signatory, pdaSigned) => r := AddRequired(g, signatory, pdaSigned);
      case RemoveRequiredIx(g, signatory, pdaSigned) => r := RemoveRequired(g, signatory, pdaSigned);
      case ClockAdvances(to) => r := PassTime(to);
      case OutsideTransfer(mint, amount) => r := Receive(mint, amount);
      case _ => r := DispatchToProposal(ix);
    }

    method DispatchToProposal(ix: Instruction) returns (r: Result<(), GovernanceError>)
      requires || ix.CreateProposalIx? || ix.AddSignatoryIx? || ix.SignOffIx? || ix.InsertTransactionIx?
               || ix.RemoveTransactionIx? || ix.CancelIx? || ix.CastVoteIx? || ix.RelinquishIx? || ix.FinalizeIx?
               || ix.ExecuteIx? || ix.CompleteIx? || ix.RefundIx?
      modifies this
      ensures Does(old(Accounts()), Apply(old(Accounts()), ix), r, Accounts())
    {
      hide CreateTokenOwnerRecord, DepositTokens, WithdrawTokens, RevokeTokens, SetDelegate, SetRealmConfig,
           CreateGovernance, SetGovernanceConfig, AddRequiredSignatory, RemoveRequiredSignatory, CreateProposal,
           AddSignatory, SignOff, InsertTransaction, RemoveTransaction, CancelProposal, CastVote, RelinquishVote,
           FinalizeVote, ExecuteTransaction, CompleteProposal, RefundDeposit, Does, Accounts, Invariant;
      match ix
      case CreateProposalIx(p, g, mint, owner, signer, payer, addinWeight, labels, voteType, useDeny) =>
        r := Create(p, g, mint, owner, signer, payer, addinWeight, labels, voteType, useDeny);
      case AddSignatoryIx(p, g, signatory, owner, signer) => r := AddOneSignatory(p, g, signatory, owner, signer);
      case SignOffIx(p, g, signatory, isSigner, owner) => r := SignOffProposal(p, g, signatory, isSigner, owner);
      case InsertTransactionIx(p, g, owner, signer, option, index) => r := Insert(p, g, owner, signer, option, index);
      case RemoveTransactionIx(p, owner, signer, option, index) => r := Remove(p, owner, signer, option, index);
      case CancelIx(p, g, owner, signer) => r := Cancel(p, g, owner, signer);
      case CastVoteIx(p, g, voter, owner, signer, vote, addinWeight, source) =>
        r := Cast(p, g, voter, owner, signer, vote, addinWeight, source);
      case RelinquishIx(p, g, voter, signer) => r := Relinquish(p, g, voter, signer);
      case FinalizeIx(p, g, owner, mint, source) => r := FinalizeProposal(p, g, owner, mint, source);
      case ExecuteIx(p, g, option, index, invoked) => r := Execute(p, g, option, index, invoked);
      case CompleteIx(p, owner, signer) => r := Complete(p, owner, signer);
      case RefundIx(p, payer) => r := Refund(p, payer);
    }

    // What happens to the accounts from outside.

    method PassTime(to: int) returns (r: Result<(), GovernanceError>)
      modifies `now
      ensures r == Ok(())
      ensures Accounts() == old(Accounts()).(now := if to < old(Accounts()).now then old(Accounts()).now else to)
    {
      now := if to < now then now else to;
      return Ok(());
    }

    method Receive(mint: Pubkey, amount: nat) returns (r: Result<(), GovernanceError>)
      modifies `holdings
      ensures r == Ok(())
      ensures var held := HoldingOf(old(Accounts()), mint) + amount;
              Accounts() == old(Accounts()).(holdings := old(Accounts()).holdings[mint := held])
    {
      holdings := holdings[mint := HoldingOf(Accounts(), mint) + amount];
      return Ok(());
    }

    /**
     One instruction on accounts that satisfy the invariant: they satisfy it afterwards, and
     giving a vote back panics exactly when it needs a council that was removed.
     */
    method Process(ix: Instruction) returns (r: Result<(), GovernanceError>)
      requires Valid()
      modifies this
      ensures Valid()
      ensures Does(old(Accounts()), Apply(old(Accounts()), ix), r, Accounts())
      ensures ix.RelinquishIx? ==>
                (r == Err(Panicked) <==> CouncilUnwrapFails(old(Accounts()), ix.p, ix.g, ix.voter))
    {
      hide Apply, Invariant, RelinquishVote, CouncilUnwrapFails;
      r := Dispatch(ix);
      HandlersKeepInvariant(old(Accounts()), ix, r, Accounts());
      if ix.RelinquishIx? {
        ReturnPanics(old(Accounts()), ix);
      }
    }

    /** Any list of instructions: those that err are skipped, and the accounts end where the run of the steps ends. */
    method ProcessAll(instructions: seq<Instruction>)
      requires Valid()
      modifies this
      ensures Valid() && Accounts() == Run(old(Accounts()), instructions)
    {
      for i := 0 to |instructions|
        invariant Valid() && Accounts() == Run(old(Accounts()), instructions[..i])
      {
        assert instructions[..i + 1][..i] == instructions[..i];
        var _ := Process(instructions[i]);
      }
      assert instructions[..|instructions|] == instructions;
    }
  }
}
