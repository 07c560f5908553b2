/** Executing, completing and paying for proposals over whole runs. */
module GovernanceOutcomes {
  import opened Outcomes
  import opened Aggregates
  import opened GovernanceState
  import opened GovernanceSteps
  import opened GovernanceFrames
  import opened GovernanceLifecycle
  import opened GovernanceTokens
  import opened GovernanceBallots
  import opened GovernanceActivity
  import opened GovernanceTallies
  import opened GovernanceTransactions
  import opened GovernanceSignatories
  import opened GovernanceCoverage
  import opened GovernanceRuns
  import opened VoteResolution

  // ---- Execution ----------------------------------------------------------------------------------------

  /** A completed proposal has run every transaction of every winning option. */
  lemma CompletionRanEverything(s: State, key: TransactionKey)
    requires Invariant(s) && key in s.transactions && key.proposal in s.proposals
    requires s.proposals[key.proposal].state == Completed
    requires key.option < |s.proposals[key.proposal].options|
    requires s.proposals[key.proposal].options[key.option].voteResult == OptionSucceeded
    ensures s.transactions[key].executionStatus == Success
  {
    hide AllWellKept, VotesCounted, MarksMatch, ActivityCounted, AllTallied, AllSignaturesCounted, AllRequiredCounted,
         VoteMints, NeverShort, OptionAccounted;
    var proposal := s.proposals[key.proposal];
    assert OptionsAccounted(s.transactions, key.proposal, proposal.options);
    ExecutedAreLive(s.transactions, key.proposal, key.option, proposal.options[key.option]);
    assert CompletionEarned(proposal) && proposal.options[key.option] in proposal.options;
  }

  function HasRun(s: State, key: TransactionKey): nat {
    if key in s.transactions && s.transactions[key].executionStatus == Success then 1 else 0
  }

  /** How often a run executes a transaction. */
  function Executions(s: State, instructions: seq<Instruction>, key: TransactionKey): nat {
    if instructions == [] then 0
    else
      var before := Run(s, instructions[..|instructions| - 1]);
      var ix := instructions[|instructions| - 1];
      Executions(s, instructions[..|instructions| - 1], key)
      + if Apply(before, ix).Ok? && Executes(ix, key) then 1 else 0
  }

  predicate Executes(ix: Instruction, key: TransactionKey) {
    ix.ExecuteIx? && key == TransactionKey(ix.p, ix.option, ix.index)
  }

  predicate WritesTransaction(s: State, ix: Instruction, s': State)
    requires ix.InsertTransactionIx? || ix.RemoveTransactionIx? || ix.ExecuteIx?
  {
    var key := TransactionKey(ix.p, ix.option, ix.index);
    && (ix.InsertTransactionIx? ==>
        key !in s.transactions && s'.transactions == s.transactions[key := ProposalTransaction(None, NotExecuted)])
    && (ix.RemoveTransactionIx? ==>
          key in s.transactions && s'.transactions == s.transactions - {key} && ix.p in s.proposals
              && s.proposals[ix.p].state == Draft)
    && (ix.ExecuteIx? ==>
          && key in s.transactions && s.transactions[key].executedAt.None?
          && s'.transactions == s.transactions[key := ProposalTransaction(Some(s.now), Success)])
  }

  lemma TransactionWrites(s: State, ix: Instruction, s': State)
    requires Apply(s, ix) == Ok(s')
    requires ix.InsertTransactionIx? || ix.RemoveTransactionIx? || ix.ExecuteIx?
    ensures WritesTransaction(s, ix, s')
  {
    hide CastVote, RelinquishVote, SignOff, FinalizeVote, ExecuteTransaction, CompleteProposal, RefundDeposit,
         CreateProposal, AddSignatory, InsertTransaction, RemoveTransaction, CancelProposal,
         CreateTokenOwnerRecord, DepositTokens, WithdrawTokens, RevokeTokens, SetDelegate,
         CreateGovernance, SetGovernanceConfig, AddRequiredSignatory, RemoveRequiredSignatory, CountExecuted,
         WithOption, CountInserted;
    match ix
    case InsertTransactionIx(p, g, owner, signer, option, index) =>
      InsertTransactionEffect(s, p, g, owner, signer, option, index, s');
    case RemoveTransactionIx(p, owner, signer, option, index) =>
      RemoveTransactionEffect(s, p, owner, signer, option, index, s');
    case ExecuteIx(p, g, option, index, invoked) => ExecuteTransactionEffect(s, p, g, option, index, invoked, s');
  }

  lemma WrittenRuns(s: State, ix: Instruction, s': State, key: TransactionKey)
    requires AllPlaced(s.transactions, s.proposals)
    requires ix.InsertTransactionIx? || ix.RemoveTransactionIx? || ix.ExecuteIx?
    requires WritesTransaction(s, ix, s')
    ensures HasRun(s', key) == HasRun(s, key) + if Executes(ix, key) then 1 else 0
  {
    if key in s.transactions {
      assert Placed(key, s.transactions[key], s.proposals[key.proposal]);
    }
  }

  lemma ExecutionStep(s: State, ix: Instruction, s': State, key: TransactionKey)
    requires AllAccounted(s) && Apply(s, ix) == Ok(s')
    ensures HasRun(s', key) == HasRun(s, key) + if Executes(ix, key) then 1 else 0
  {
    hide Apply, CountersMatch, CompletionEarned, AllPlaced, WritesTransaction;
    if ix.InsertTransactionIx? || ix.RemoveTransactionIx? || ix.ExecuteIx? {
      TransactionWrites(s, ix, s');
      WrittenRuns(s, ix, s', key);
    } else {
      Frames(s, ix, s');
    }
  }

  /** Over a whole run a transaction is executed at most once, and exactly then it ends up marked as executed. */
  lemma {:induction false} ExecutedAtMostOnce(s: State, instructions: seq<Instruction>, key: TransactionKey)
    requires Invariant(s)
    ensures HasRun(Run(s, instructions), key) == HasRun(s, key) + Executions(s, instructions, key)
    ensures HasRun(s, key) + Executions(s, instructions, key) <= 1
    decreases |instructions|
  {
    hide Apply, Invariant;
    if instructions != [] {
      var prefix := instructions[..|instructions| - 1];
      var before := Run(s, prefix);
      ExecutedAtMostOnce(s, prefix, key);
      RunInvariant(s, prefix);
      InvariantParts(before);
      var step := Apply(before, instructions[|instructions| - 1]);
      if step.Ok? {
        ExecutionStep(before, instructions[|instructions| - 1], step.value, key);
      }
    }
  }

  // ---- Decided proposals -----------------------------------------------------------------

  lemma CancelNeedsActive(s: State, p: Pubkey, g: Pubkey, owner: TokenOwnerKey, signer: Option<Pubkey>)
    requires CancelProposal(s, p, g, owner, signer).Ok?
    ensures p in s.proposals && IsActive(s.proposals[p].state)
  {
    hide LoadProposalOwner, Closed, Close;
  }

  lemma FinalizeNeedsVoting(s: State, p: Pubkey, g: Pubkey, owner: TokenOwnerKey, mint: Pubkey, source: MaxWeightSource)
    requires FinalizeVote(s, p, g, owner, mint, source).Ok?
    ensures p in s.proposals && s.proposals[p].state == Voting
  {
    hide LoadProposalOwner, Close, ResolveMaxVoterWeight, ResolveVoteThreshold, MinVoteThresholdWeight, FinalVerdict,
         WithResults;
  }

  lemma CastNeedsVoting(s: State, p: Pubkey, g: Pubkey, voter: TokenOwnerKey, owner: TokenOwnerKey,
      signer: Option<Pubkey>, vote: Vote, addinWeight: Option<nat>, source: MaxWeightSource, s': State)
    requires CastVote(s, p, g, voter, owner, signer, vote, addinWeight, source) == Ok(s')
    ensures p in s.proposals && s.proposals[p].state == Voting
  {
    hide CastVote, Count, AssertValidVote, AddVote, ProposalMintForVote, VoterWeight;
    CastVoteEffect(s, p, g, voter, owner, signer, vote, addinWeight, source, s');
    BallotFacts(s, p, g, voter, signer, vote, addinWeight, source);
  }

  lemma RelinquishLeavesDecided(s: State, p: Pubkey, g: Pubkey, voter: TokenOwnerKey, signer: Option<Pubkey>, s': State)
    requires RelinquishVote(s, p, g, voter, signer) == Ok(s')
    ensures p in s.proposals && (s.proposals[p].state != Voting ==> s'.proposals == s.proposals)
  {
  }

  /** Only executing and completing touch a decided proposal. */
  lemma DecidedIsFrozen(s: State, ix: Instruction, s': State, p: Pubkey)
    requires AllWellKept(s.proposals, s.now) && Apply(s, ix) == Ok(s')
    requires p in s.proposals && !IsActive(s.proposals[p].state) && !ix.ExecuteIx? && !ix.CompleteIx?
    ensures p in s'.proposals && s'.proposals[p] == s.proposals[p]
  {
    hide Apply, Advances, WellKept, IsFresh;
    ProposalMoves(s, ix, s');
    if MovedBy(ix) == Some(p) {
      if ix.RelinquishIx? {
        RelinquishKeepsDecided(s, ix, s');
      } else {
        MovesNeedActive(s, ix, s', p);
      }
    }
  }

  lemma RelinquishKeepsDecided(s: State, ix: Instruction, s': State)
    requires Apply(s, ix) == Ok(s') && ix.RelinquishIx?
    ensures ix.p in s.proposals && (s.proposals[ix.p].state != Voting ==> s'.proposals == s.proposals)
  {
    hide CastVote, RelinquishVote, SignOff, FinalizeVote, ExecuteTransaction, CompleteProposal, RefundDeposit,
         CreateProposal, AddSignatory, InsertTransaction, RemoveTransaction, CancelProposal,
         CreateTokenOwnerRecord, DepositTokens, WithdrawTokens, RevokeTokens, SetDelegate,
         CreateGovernance, SetGovernanceConfig, AddRequiredSignatory, RemoveRequiredSignatory;
    RelinquishLeavesDecided(s, ix.p, ix.g, ix.voter, ix.signer, s');
  }

  lemma MovesNeedActive(s: State, ix: Instruction, s': State, p: Pubkey)
    requires Apply(s, ix) == Ok(s') && MovedBy(ix) == Some(p)
    requires !ix.ExecuteIx? && !ix.CompleteIx? && !ix.RelinquishIx?
    ensures p in s.proposals && IsActive(s.proposals[p].state)
  {
    hide CastVote, RelinquishVote, SignOff, FinalizeVote, ExecuteTransaction, CompleteProposal, RefundDeposit,
         CreateProposal, AddSignatory, InsertTransaction, RemoveTransaction, CancelProposal,
         CreateTokenOwnerRecord, DepositTokens, WithdrawTokens, RevokeTokens, SetDelegate,
         CreateGovernance, SetGovernanceConfig, AddRequiredSignatory, RemoveRequiredSignatory;
    match ix
    case AddSignatoryIx(_, g, signatory, owner, signer) => AddSignatoryEffect(s, p, g, signatory, owner, signer, s');
    case SignOffIx(_, g, signatory, isSigner, owner) => SignOffEffect(s, p, g, signatory, isSigner, owner, s');
    case InsertTransactionIx(_, g, owner, signer, option, index) =>
      InsertTransactionEffect(s, p, g, owner, signer, option, index, s');
    case RemoveTransactionIx(_, owner, signer, option, index) =>
      RemoveTransactionEffect(s, p, owner, signer, option, index, s');
    case CancelIx(_, g, owner, signer) => CancelNeedsActive(s, p, g, owner, signer);
    case CastVoteIx(_, g, voter, owner, signer, vote, addinWeight, source) =>
      CastNeedsVoting(s, p, g, voter, owner, signer, vote, addinWeight, source, s');
    case FinalizeIx(_, g, owner, mint, source) => FinalizeNeedsVoting(s, p, g, owner, mint, source);
  }

  // ---- Security deposits ------------------------------------------------------------------------------------

  function Lamports(): (DepositKey, ProposalDeposit) -> nat {
    (_: DepositKey, deposit: ProposalDeposit) => deposit.lamports
  }

  ghost function DepositsHeld(s: State): nat {
    Sum(s.deposits, Lamports())
  }

  lemma CreateProposalDeposits(s: State, p: Pubkey, g: Pubkey, mint: Pubkey, owner: TokenOwnerKey,
      signer: Option<Pubkey>, payer: Pubkey, addinWeight: Option<nat>, labels: seq<string>, voteType: VoteType,
      useDeny: bool, s': State)
    requires CreateProposal(s, p, g, mint, owner, signer, payer, addinWeight, labels, voteType, useDeny) == Ok(s')
    ensures g in s.governances && g in s'.governances
    ensures s'.governances[g] == s.governances[g].(activeProposalCount := s.governances[g].activeProposalCount + 1)
    ensures DepositsHeld(s') == DepositsHeld(s) + ProposalDepositAmount(s'.governances[g])
  {
    hide AssertCanCreateProposal, AssertValidProposalOptions, ResolveVoteThreshold, ProposalDepositAmount;
    SumWrite(s.deposits, DepositKey(p, payer), ProposalDeposit(ProposalDepositAmount(s'.governances[g])), Lamports());
  }

  /** A run that does nothing but create proposals of one governance. */
  predicate OnlyCreates(s: State, instructions: seq<Instruction>, g: Pubkey)
    decreases |instructions|
  {
    instructions == []
    || (var (prefix, ix) := (instructions[..|instructions| - 1], instructions[|instructions| - 1]);
        OnlyCreates(s, prefix, g) && ix.CreateProposalIx? && ix.g == g && Apply(Run(s, prefix), ix).Ok?)
  }

  function Triangle(n: int): int {
    if n <= 0 then 0 else n * (n + 1) / 2
  }

  lemma TriangleStep(n: int)
    ensures Triangle(n + 1) == Triangle(n) + if n + 1 <= 0 then 0 else n + 1
  {
  }

  /**
   From no active proposals, each proposal beyond the exempt ones deposits one base amount
   more than the one before it, so N of them deposit N(N+1)/2 base amounts.
   */
  lemma {:induction false} DepositsGrowTriangular(s: State, instructions: seq<Instruction>, g: Pubkey)
    requires g in s.governances && s.governances[g].activeProposalCount == 0 && OnlyCreates(s, instructions, g)
    requires (|instructions| - s.governances[g].config.depositExemptProposalCount) * SECURITY_DEPOSIT_BASE_LAMPORTS
        <= U64_MAX
    ensures var s' := Run(s, instructions);
            && g in s'.governances && s'.governances[g] == s.governances[g].(activeProposalCount := |instructions|)
            && DepositsHeld(s') == DepositsHeld(s)
               + SECURITY_DEPOSIT_BASE_LAMPORTS
               * Triangle(|instructions| - s.governances[g].config.depositExemptProposalCount)
    decreases |instructions|
  {
    hide Apply, DepositsHeld, Triangle;
    var exempt: int := s.governances[g].config.depositExemptProposalCount;
    if instructions == [] {
      NoTriangle(-exempt);
    } else {
      var (prefix, ix) := (instructions[..|instructions| - 1], instructions[|instructions| - 1]);
      DepositsGrowTriangular(s, prefix, g);
      var (before, after) := (Run(s, prefix), Run(s, instructions));
      CreationDeposits(before, ix, after);
      TriangleStep(|prefix| - exempt);
    }
  }

  lemma NoTriangle(n: int)
    requires n <= 0
    ensures Triangle(n) == 0
  {
  }

  lemma CreationDeposits(s: State, ix: Instruction, s': State)
    requires ix.CreateProposalIx? && Apply(s, ix) == Ok(s')
    ensures ix.g in s.governances && ix.g in s'.governances
    ensures s'.governances[ix.g]
        == s.governances[ix.g].(activeProposalCount := s.governances[ix.g].activeProposalCount + 1)
    ensures DepositsHeld(s') == DepositsHeld(s) + ProposalDepositAmount(s'.governances[ix.g])
  {
    hide CastVote, RelinquishVote, SignOff, FinalizeVote, ExecuteTransaction, CompleteProposal, RefundDeposit,
         CreateProposal, AddSignatory, InsertTransaction, RemoveTransaction, CancelProposal,
         CreateTokenOwnerRecord, DepositTokens, WithdrawTokens, RevokeTokens, SetDelegate,
         CreateGovernance, SetGovernanceConfig, AddRequiredSignatory, RemoveRequiredSignatory, ProposalDepositAmount,
         DepositsHeld;
    CreateProposalDeposits(s, ix.p, ix.g, ix.mint, ix.owner, ix.signer, ix.payer, ix.addinWeight, ix.labels,
        ix.voteType, ix.useDeny, s');
  }
}
