/** The transaction counters of an option against its transaction accounts, and execution. */
module GovernanceTransactions {
  import opened Outcomes
  import opened Aggregates
  import opened GovernanceState
  import opened GovernanceSteps
  import opened GovernanceFrames
  import opened GovernanceLifecycle
  import opened VoteResolution

  function LiveIn(p: Pubkey, i: nat, key: TransactionKey): nat {
    if key.proposal == p && key.option == i then 1 else 0
  }

  function LiveOf(p: Pubkey, i: nat): (TransactionKey, ProposalTransaction) -> nat {
    (key, _) => LiveIn(p, i, key)
  }

  function ExecutedIn(p: Pubkey, i: nat, key: TransactionKey, t: ProposalTransaction): nat {
    if t.executionStatus == Success then LiveIn(p, i, key) else 0
  }

  function ExecutedOf(p: Pubkey, i: nat): (TransactionKey, ProposalTransaction) -> nat {
    (key, t) => ExecutedIn(p, i, key, t)
  }

  /** An option's two counters are the numbers of its live and of its executed transactions. */
  ghost predicate OptionAccounted(transactions: map<TransactionKey, ProposalTransaction>, p: Pubkey, i: nat,
      o: ProposalOption) {
    && o.transactionsCount == Sum(transactions, LiveOf(p, i)) <= U16_MAX
    && o.transactionsExecutedCount == Sum(transactions, ExecutedOf(p, i))
  }

  ghost predicate OptionsAccounted(transactions: map<TransactionKey, ProposalTransaction>, p: Pubkey,
      options: seq<ProposalOption>) {
    forall i :: 0 <= i < |options| ==> OptionAccounted(transactions, p, i, options[i])
  }

  ghost predicate CountersMatch(transactions: map<TransactionKey, ProposalTransaction>,
      proposals: map<Pubkey, Proposal>) {
    forall p :: p in proposals ==> OptionsAccounted(transactions, p, proposals[p].options)
  }

  /**
   A transaction belongs to an existing option of an executable proposal, below its next
   index, and ran only for a winner.
   */
  predicate Placed(key: TransactionKey, t: ProposalTransaction, proposal: Proposal) {
    && proposal.denyVoteWeight.Some?
    && key.option < |proposal.options|
    && key.index < proposal.options[key.option].transactionsNextIndex
    && (t.executionStatus == Success <==> t.executedAt.Some?)
    && (t.executionStatus == Success ==>
        Rank(proposal.state) >= 4 && proposal.options[key.option].voteResult == OptionSucceeded)
  }

  predicate AllPlaced(transactions: map<TransactionKey, ProposalTransaction>, proposals: map<Pubkey, Proposal>) {
    forall key :: key in transactions ==>
        key.proposal in proposals && Placed(key, transactions[key], proposals[key.proposal])
  }

  /** A completed proposal has nothing left to execute, an executing one has. */
  predicate CompletionEarned(proposal: Proposal) {
    && (proposal.state == Completed ==> AllExecuted(proposal))
    && (proposal.state == Executing ==> !AllExecuted(proposal))
  }

  ghost predicate AllAccounted(s: State) {
    && CountersMatch(s.transactions, s.proposals)
    && AllPlaced(s.transactions, s.proposals)
    && forall p :: p in s.proposals ==> CompletionEarned(s.proposals[p])
  }

  // ---- The three transaction instructions in full ---------------------------------------------------

  lemma InsertTransactionEffect(s: State, p: Pubkey, g: Pubkey, owner: TokenOwnerKey, signer: Option<Pubkey>,
      option: nat, index: nat, s': State)
    requires InsertTransaction(s, p, g, owner, signer, option, index) == Ok(s')
    ensures p in s.proposals && s.proposals[p].state == Draft && s.proposals[p].denyVoteWeight.Some?
    ensures option < |s.proposals[p].options|
    ensures TransactionKey(p, option, index) !in s.transactions
    ensures var counted := CountInserted(s.proposals[p].options[option], index);
            counted.Ok? && s'.proposals == s.proposals[p := WithOption(s.proposals[p], option, counted.value)]
    ensures s'.transactions
        == s.transactions[TransactionKey(p, option, index) := ProposalTransaction(None, NotExecuted)]
  {
    hide AuthorizeOwner, CountInserted, WithOption;
  }

  lemma RemoveTransactionEffect(s: State, p: Pubkey, owner: TokenOwnerKey, signer: Option<Pubkey>, option: nat,
      index: nat, s': State)
    requires RemoveTransaction(s, p, owner, signer, option, index) == Ok(s')
    ensures p in s.proposals && s.proposals[p].state == Draft && option < |s.proposals[p].options|
    ensures s.proposals[p].options[option].transactionsCount > 0
    ensures TransactionKey(p, option, index) in s.transactions
    ensures var o := s.proposals[p].options[option];
            s'.proposals
                == s.proposals[p := WithOption(s.proposals[p], option,
                o.(transactionsCount := o.transactionsCount - 1))]
    ensures s'.transactions == s.transactions - {TransactionKey(p, option, index)}
  {
    hide AuthorizeOwner, WithOption;
  }

  lemma ExecuteTransactionEffect(s: State, p: Pubkey, g: Pubkey, option: nat, index: nat, invoked: bool, s': State)
    requires ExecuteTransaction(s, p, g, option, index, invoked) == Ok(s')
    ensures p in s.proposals && option < |s.proposals[p].options| && TransactionKey(p, option, index) in s.transactions
    ensures s.transactions[TransactionKey(p, option, index)].executedAt.None?
    ensures s.proposals[p].options[option].voteResult == OptionSucceeded
    ensures s.proposals[p].state == Succeeded || s.proposals[p].state == Executing
        || s.proposals[p].state == ExecutingWithErrors
    ensures CountExecuted(s.proposals[p], option, s.now).Ok?
    ensures s'.proposals == s.proposals[p := CountExecuted(s.proposals[p], option, s.now).value]
    ensures s'.transactions
        == s.transactions[TransactionKey(p, option, index) := ProposalTransaction(Some(s.now), Success)]
  {
    hide CountExecuted;
  }

  /** Executing counts one more transaction of one option and completes the proposal only with the last one. */
  lemma CountExecutedCounts(p: Proposal, option: nat, now: int)
    requires option < |p.options| && CountExecuted(p, option, now).Ok?
    requires p.state == Succeeded || p.state == Executing
    ensures var q := CountExecuted(p, option, now).value;
            var o := p.options[option];
            && q.options == p.options[option := o.(transactionsExecutedCount := o.transactionsExecutedCount + 1)]
            && q.denyVoteWeight == p.denyVoteWeight && (q.state == Executing || q.state == Completed)
            && CompletionEarned(q)
  {
  }

  // ---- Accounting -------------------------------------------------------------------------------------

  /** Writing or disposing of one account changes the counters of its own option only. */
  lemma AccountedWrite(transactions: map<TransactionKey, ProposalTransaction>, key: TransactionKey,
      t: ProposalTransaction, p: Pubkey, i: nat, o: ProposalOption, o': ProposalOption)
    requires OptionAccounted(transactions, p, i, o)
    requires o'.transactionsCount <= o.transactionsCount || o'.transactionsCount <= U16_MAX
    requires o'.transactionsCount
        == o.transactionsCount + LiveIn(p, i, key) - (if key in transactions then LiveIn(p, i, key) else 0)
    requires o'.transactionsExecutedCount
        == o.transactionsExecutedCount
        + ExecutedIn(p, i, key, t) - (if key in transactions then ExecutedIn(p, i, key, transactions[key]) else 0)
    ensures OptionAccounted(transactions[key := t], p, i, o')
  {
    SumWrite(transactions, key, t, LiveOf(p, i));
    SumWrite(transactions, key, t, ExecutedOf(p, i));
  }

  lemma AccountedDispose(transactions: map<TransactionKey, ProposalTransaction>, key: TransactionKey, p: Pubkey, i: nat,
      o: ProposalOption, o': ProposalOption)
    requires key in transactions && OptionAccounted(transactions, p, i, o)
    requires o'.transactionsCount == o.transactionsCount - LiveIn(p, i, key)
    requires o'.transactionsExecutedCount == o.transactionsExecutedCount - ExecutedIn(p, i, key, transactions[key])
    ensures OptionAccounted(transactions - {key}, p, i, o')
  {
    SumDispose(transactions, key, LiveOf(p, i));
    SumDispose(transactions, key, ExecutedOf(p, i));
  }

  lemma ExecutedAreLive(transactions: map<TransactionKey, ProposalTransaction>, p: Pubkey, i: nat, o: ProposalOption)
    requires OptionAccounted(transactions, p, i, o)
    ensures o.transactionsExecutedCount <= o.transactionsCount
    ensures o.transactionsExecutedCount == o.transactionsCount ==>
              forall key :: key in transactions && key.proposal == p && key.option == i ==>
                  transactions[key].executionStatus == Success
  {
    SumMonotone(transactions, ExecutedOf(p, i), LiveOf(p, i));
    if o.transactionsExecutedCount == o.transactionsCount {
      forall key | key in transactions && key.proposal == p && key.option == i
        ensures transactions[key].executionStatus == Success
      {
        assert ExecutedOf(p, i)(key, transactions[key]) == LiveOf(p, i)(key, transactions[key]);
      }
    }
  }

  /** One transaction is written and one option counts it. */
  lemma WriteKeepsCounters(s: State, key: TransactionKey, t: ProposalTransaction, o': ProposalOption, s': State)
    requires CountersMatch(s.transactions, s.proposals) && key.proposal in s.proposals
    requires key.option < |s.proposals[key.proposal].options|
    requires s'.transactions == s.transactions[key := t] && key.proposal in s'.proposals
    requires s'.proposals == s.proposals[key.proposal := s'.proposals[key.proposal]]
    requires s'.proposals[key.proposal].options == s.proposals[key.proposal].options[key.option := o']
    requires var o := s.proposals[key.proposal].options[key.option];
             && o'.transactionsCount == o.transactionsCount + (if key in s.transactions then 0 else 1)
             && (o'.transactionsCount <= o.transactionsCount || o'.transactionsCount <= U16_MAX)
             && o'.transactionsExecutedCount == o.transactionsExecutedCount
                  + (if t.executionStatus == Success then 1 else 0)
                  - (if key in s.transactions && s.transactions[key].executionStatus == Success then 1 else 0)
    ensures CountersMatch(s'.transactions, s'.proposals)
  {
    hide OptionAccounted;
    forall q, i | q in s'.proposals && 0 <= i < |s'.proposals[q].options|
      ensures OptionAccounted(s'.transactions, q, i, s'.proposals[q].options[i])
    {
      assert OptionsAccounted(s.transactions, q, s.proposals[q].options);
      AccountedWrite(s.transactions, key, t, q, i, s.proposals[q].options[i], s'.proposals[q].options[i]);
    }
  }

  lemma DisposeKeepsCounters(s: State, key: TransactionKey, o': ProposalOption, s': State)
    requires CountersMatch(s.transactions, s.proposals) && key.proposal in s.proposals
    requires key.option < |s.proposals[key.proposal].options|
    requires key in s.transactions && s.transactions[key].executionStatus != Success
    requires s'.transactions == s.transactions - {key} && key.proposal in s'.proposals
    requires s'.proposals == s.proposals[key.proposal := s'.proposals[key.proposal]]
    requires s'.proposals[key.proposal].options == s.proposals[key.proposal].options[key.option := o']
    requires var o := s.proposals[key.proposal].options[key.option];
             o'.transactionsCount == o.transactionsCount - 1
                 && o'.transactionsExecutedCount == o.transactionsExecutedCount
    ensures CountersMatch(s'.transactions, s'.proposals)
  {
    hide OptionAccounted;
    forall q, i | q in s'.proposals && 0 <= i < |s'.proposals[q].options|
      ensures OptionAccounted(s'.transactions, q, i, s'.proposals[q].options[i])
    {
      assert OptionsAccounted(s.transactions, q, s.proposals[q].options);
      AccountedDispose(s.transactions, key, q, i, s.proposals[q].options[i], s'.proposals[q].options[i]);
    }
  }

  lemma NeverWithErrors(p: Proposal, now: int)
    requires WellKept(p, now)
    ensures p.state != ExecutingWithErrors
  {
  }

  lemma InsertAccounted(s: State, p: Pubkey, g: Pubkey, owner: TokenOwnerKey, signer: Option<Pubkey>, option: nat,
      index: nat, s': State)
    requires CountersMatch(s.transactions, s.proposals)
    requires InsertTransaction(s, p, g, owner, signer, option, index) == Ok(s')
    ensures CountersMatch(s'.transactions, s'.proposals)
    ensures AllPlaced(s.transactions, s.proposals) ==> AllPlaced(s'.transactions, s'.proposals)
    ensures p in s'.proposals && s'.proposals == s.proposals[p := s'.proposals[p]] && CompletionEarned(s'.proposals[p])
  {
    hide InsertTransaction, CountersMatch;
    InsertTransactionEffect(s, p, g, owner, signer, option, index, s');
    WriteKeepsCounters(s, TransactionKey(p, option, index), ProposalTransaction(None, NotExecuted),
                       CountInserted(s.proposals[p].options[option], index).value, s');
  }

  lemma RemoveAccounted(s: State, p: Pubkey, owner: TokenOwnerKey, signer: Option<Pubkey>, option: nat, index: nat,
      s': State)
    requires CountersMatch(s.transactions, s.proposals) && AllPlaced(s.transactions, s.proposals)
    requires RemoveTransaction(s, p, owner, signer, option, index) == Ok(s')
    ensures CountersMatch(s'.transactions, s'.proposals) && AllPlaced(s'.transactions, s'.proposals)
    ensures p in s'.proposals && s'.proposals == s.proposals[p := s'.proposals[p]] && CompletionEarned(s'.proposals[p])
  {
    hide RemoveTransaction, CountersMatch;
    RemoveTransactionEffect(s, p, owner, signer, option, index, s');
    var o := s.proposals[p].options[option];
    DisposeKeepsCounters(s, TransactionKey(p, option, index), o.(transactionsCount := o.transactionsCount - 1), s');
  }

  lemma ExecuteAccounted(s: State, p: Pubkey, g: Pubkey, option: nat, index: nat, invoked: bool, s': State)
    requires CountersMatch(s.transactions, s.proposals) && AllPlaced(s.transactions, s.proposals)
    requires AllWellKept(s.proposals, s.now)
    requires ExecuteTransaction(s, p, g, option, index, invoked) == Ok(s')
    ensures CountersMatch(s'.transactions, s'.proposals) && AllPlaced(s'.transactions, s'.proposals)
    ensures p in s'.proposals && s'.proposals == s.proposals[p := s'.proposals[p]] && CompletionEarned(s'.proposals[p])
  {
    hide ExecuteTransaction, CountExecuted, AllExecuted, CountersMatch, WellKept;
    ExecuteTransactionEffect(s, p, g, option, index, invoked, s');
    NeverWithErrors(s.proposals[p], s.now);
    CountExecutedCounts(s.proposals[p], option, s.now);
    var o := s.proposals[p].options[option];
    WriteKeepsCounters(s, TransactionKey(p, option, index), ProposalTransaction(Some(s.now), Success),
                       o.(transactionsExecutedCount := o.transactionsExecutedCount + 1), s');
  }

  // ---- The other instructions -----------------------------------------------------------------------------

  lemma KeptAccounts(transactions: map<TransactionKey, ProposalTransaction>, p: Pubkey, proposal: Proposal,
      proposal': Proposal, parts: set<Part>)
    requires OptionsAccounted(transactions, p, proposal.options)
    requires Keeps(parts, proposal, proposal') && TransactionPart !in parts
    ensures OptionsAccounted(transactions, p, proposal'.options)
  {
  }

  lemma KeptPlace(key: TransactionKey, t: ProposalTransaction, proposal: Proposal, proposal': Proposal)
    requires Placed(key, t, proposal) && Evolves(proposal, proposal')
    ensures Placed(key, t, proposal')
  {
  }

  lemma KeptExecuted(proposal: Proposal, proposal': Proposal, parts: set<Part>)
    requires Evolves(proposal, proposal') && Keeps(parts, proposal, proposal')
    requires TransactionPart !in parts && Rank(proposal.state) >= 3
    ensures AllExecuted(proposal') <==> AllExecuted(proposal)
  {
    forall i | 0 <= i < |proposal.options|
      ensures SameTransactions(proposal.options[i], proposal'.options[i])
      ensures proposal'.options[i].voteResult == proposal.options[i].voteResult
      ensures proposal.options[i] in proposal.options && proposal'.options[i] in proposal'.options
    {
      assert OptionEvolves(proposal.options[i], proposal'.options[i], proposal.state);
    }
  }

  lemma KeptCompletion(proposal: Proposal, proposal': Proposal, parts: set<Part>)
    requires CompletionEarned(proposal) && Evolves(proposal, proposal') && Keeps(parts, proposal, proposal')
    requires TransactionPart !in parts && (CompletionPart in parts ==> proposal'.state != Completed)
    ensures CompletionEarned(proposal')
  {
    hide AllExecuted, SameTransactions, OptionsEvolve;
    if Rank(proposal.state) >= 3 {
      KeptExecuted(proposal, proposal', parts);
    }
  }

  /** A survey has no transactions. */
  lemma SurveysHaveNoTransactions(s: State, p: Pubkey)
    requires AllAccounted(s) && p in s.proposals && s.proposals[p].denyVoteWeight.None?
    ensures forall o :: o in s.proposals[p].options ==> o.transactionsCount == 0 && o.transactionsExecutedCount == 0
  {
    forall i | 0 <= i < |s.proposals[p].options|
      ensures s.proposals[p].options[i].transactionsCount == 0
      ensures s.proposals[p].options[i].transactionsExecutedCount == 0
    {
      assert OptionsAccounted(s.transactions, p, s.proposals[p].options);
      assert OptionAccounted(s.transactions, p, i, s.proposals[p].options[i]);
      SumZero(s.transactions, LiveOf(p, i));
      SumZero(s.transactions, ExecutedOf(p, i));
    }
  }

  lemma FinalizeVoteCompletes(s: State, p: Pubkey, g: Pubkey, owner: TokenOwnerKey, mint: Pubkey,
      source: MaxWeightSource, s': State)
    requires FinalizeVote(s, p, g, owner, mint, source) == Ok(s')
    ensures p in s.proposals && p in s'.proposals
    ensures s'.proposals[p].state == Completed ==> s.proposals[p].denyVoteWeight.None?
  {
    hide LoadProposalOwner, ResolveMaxVoterWeight, ResolveVoteThreshold, MinVoteThresholdWeight, Best, CountAt,
         Passes, AssertCanFinalizeVote;
  }

  lemma CompleteProposalCompletes(s: State, p: Pubkey, owner: TokenOwnerKey, signer: Option<Pubkey>, s': State)
    requires CompleteProposal(s, p, owner, signer) == Ok(s')
    ensures p in s.proposals && p in s'.proposals
    ensures forall o :: o in s.proposals[p].options ==> o.transactionsCount == 0
  {
    hide AuthorizeOwner;
  }

  lemma EmptyCompletion(proposal: Proposal, proposal': Proposal, parts: set<Part>)
    requires forall o :: o in proposal.options ==> o.transactionsCount == 0 && o.transactionsExecutedCount == 0
    requires Keeps(parts, proposal, proposal') && TransactionPart !in parts && proposal'.state == Completed
    ensures CompletionEarned(proposal')
  {
  }

  /** A proposal completed other than by executing its last transaction has no transactions at all. */
  lemma CompletionWithoutExecution(s: State, ix: Instruction, s': State, p: Pubkey)
    requires AllAccounted(s) && Apply(s, ix) == Ok(s')
    requires MovedBy(ix) == Some(p) && (ix.FinalizeIx? || ix.CompleteIx?)
    ensures p in s.proposals && p in s'.proposals
    ensures s'.proposals[p].state == Completed ==>
              forall o :: o in s.proposals[p].options ==> o.transactionsCount == 0 && o.transactionsExecutedCount == 0
  {
    hide CastVote, RelinquishVote, SignOff, FinalizeVote, ExecuteTransaction, CompleteProposal, RefundDeposit,
         CreateProposal, AddSignatory, InsertTransaction, RemoveTransaction, CancelProposal,
         CreateTokenOwnerRecord, DepositTokens, WithdrawTokens, RevokeTokens, SetDelegate,
         CreateGovernance, SetGovernanceConfig, AddRequiredSignatory, RemoveRequiredSignatory, AllAccounted;
    if ix.FinalizeIx? {
      FinalizeVoteCompletes(s, p, ix.g, ix.owner, ix.mint, ix.source, s');
      if s'.proposals[p].state == Completed {
        SurveysHaveNoTransactions(s, p);
      }
    } else {
      CompleteProposalCompletes(s, p, ix.owner, ix.signer, s');
      NoneExecuted(s, p);
    }
  }

  lemma NoneExecuted(s: State, p: Pubkey)
    requires AllAccounted(s) && p in s.proposals
    ensures forall o :: o in s.proposals[p].options ==> o.transactionsExecutedCount <= o.transactionsCount
  {
    forall i | 0 <= i < |s.proposals[p].options|
      ensures s.proposals[p].options[i].transactionsExecutedCount <= s.proposals[p].options[i].transactionsCount
    {
      assert OptionsAccounted(s.transactions, p, s.proposals[p].options);
      ExecutedAreLive(s.transactions, p, i, s.proposals[p].options[i]);
    }
  }

  lemma PartsTell(ix: Instruction)
    ensures TransactionPart in PartsOf(ix) <==> ix.InsertTransactionIx? || ix.RemoveTransactionIx? || ix.ExecuteIx?
    ensures CompletionPart in PartsOf(ix) <==> ix.FinalizeIx? || ix.CompleteIx? || ix.ExecuteIx?
  {
  }

  lemma MovedAccounted(s: State, ix: Instruction, s': State, p: Pubkey)
    requires AllAccounted(s) && AllWellKept(s.proposals, s.now) && Apply(s, ix) == Ok(s')
    requires MovedBy(ix) == Some(p) && TransactionPart !in PartsOf(ix)
    ensures AllAccounted(s')
  {
    hide Apply, OptionsAccounted, Placed, AllExecuted, WellKept, Keeps, Evolves, PartsOf;
    Frames(s, ix, s');
    PartsTell(ix);
    ProposalMoves(s, ix, s');
    KeptAccounts(s.transactions, p, s.proposals[p], s'.proposals[p], PartsOf(ix));
    forall key | key in s.transactions && key.proposal == p
      ensures Placed(key, s.transactions[key], s'.proposals[p])
    {
      KeptPlace(key, s.transactions[key], s.proposals[p], s'.proposals[p]);
    }
    if CompletionPart in PartsOf(ix) && s'.proposals[p].state == Completed {
      CompletionWithoutExecution(s, ix, s', p);
      EmptyCompletion(s.proposals[p], s'.proposals[p], PartsOf(ix));
    } else {
      KeptCompletion(s.proposals[p], s'.proposals[p], PartsOf(ix));
    }
  }

  lemma FreshAccounts(s: State, p: Pubkey, proposal: Proposal)
    requires AllAccounted(s) && p !in s.proposals && IsFresh(proposal)
    ensures OptionsAccounted(s.transactions, p, proposal.options)
  {
    forall i | 0 <= i < |proposal.options|
      ensures OptionAccounted(s.transactions, p, i, proposal.options[i])
    {
      assert proposal.options[i] in proposal.options;
      SumZero(s.transactions, LiveOf(p, i));
      SumZero(s.transactions, ExecutedOf(p, i));
    }
  }

  lemma OthersAccounted(s: State, ix: Instruction, s': State)
    requires AllAccounted(s) && AllWellKept(s.proposals, s.now) && Apply(s, ix) == Ok(s')
    requires MovedBy(ix).None?
    ensures AllAccounted(s')
  {
    hide Apply, OptionsAccounted, Placed, AllExecuted, WellKept;
    Frames(s, ix, s');
    ProposalMoves(s, ix, s');
    if ix.CreateProposalIx? {
      FreshAccounts(s, ix.p, s'.proposals[ix.p]);
    }
  }

  lemma TransactionStepAccounted(s: State, ix: Instruction, s': State)
    requires AllAccounted(s) && AllWellKept(s.proposals, s.now) && Apply(s, ix) == Ok(s')
    requires ix.InsertTransactionIx? || ix.RemoveTransactionIx? || ix.ExecuteIx?
    ensures AllAccounted(s')
  {
    hide CastVote, RelinquishVote, SignOff, FinalizeVote, ExecuteTransaction, CompleteProposal, RefundDeposit,
         CreateProposal, AddSignatory, InsertTransaction, RemoveTransaction, CancelProposal,
         CreateTokenOwnerRecord, DepositTokens, WithdrawTokens, RevokeTokens, SetDelegate,
         CreateGovernance, SetGovernanceConfig, AddRequiredSignatory, RemoveRequiredSignatory, CountersMatch,
         AllPlaced, CompletionEarned, AllWellKept;
    match ix
    case InsertTransactionIx(p, g, owner, signer, option, index) =>
      InsertAccounted(s, p, g, owner, signer, option, index, s');
    case RemoveTransactionIx(p, owner, signer, option, index) =>
      RemoveAccounted(s, p, owner, signer, option, index, s');
    case ExecuteIx(p, g, option, index, invoked) => ExecuteAccounted(s, p, g, option, index, invoked, s');
  }

  /** Every step keeps the accounts of all transactions. */
  lemma AllAccountedStep(s: State, ix: Instruction, s': State)
    requires AllAccounted(s) && AllWellKept(s.proposals, s.now) && Apply(s, ix) == Ok(s')
    ensures AllAccounted(s')
  {
    hide Apply, AllAccounted, AllWellKept, PartsOf, MovedBy;
    PartsTell(ix);
    if TransactionPart in PartsOf(ix) {
      TransactionStepAccounted(s, ix, s');
    } else {
      match MovedBy(ix)
      case Some(p) => MovedAccounted(s, ix, s', p);
      case None => OthersAccounted(s, ix, s');
    }
  }
}
