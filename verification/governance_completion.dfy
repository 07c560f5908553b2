/** Which approved proposals can be completed, and which never. */
module GovernanceCompletion {
  import opened Outcomes
  import opened Aggregates
  import opened GovernanceState
  import opened GovernanceSteps
  import opened GovernanceFrames
  import opened GovernanceLifecycle
  import opened GovernanceActivity
  import opened GovernanceTransactions
  import opened GovernanceRuns
  import opened GovernanceOutcomes
  import opened VoteResolution

  // ---- Proposals that can never complete ------------------------------------------------------------------

  /** Some option has transactions, but no winning one has. */
  predicate Stuck(p: Proposal) {
    && p.state == Succeeded
    && (forall o :: o in p.options && o.voteResult == OptionSucceeded ==> o.transactionsCount == 0)
    && (exists o :: o in p.options && o.transactionsCount > 0)
  }

  lemma StuckStep(s: State, ix: Instruction, s': State, p: Pubkey)
    requires AllWellKept(s.proposals, s.now) && AllAccounted(s) && Apply(s, ix) == Ok(s')
    requires p in s.proposals && Stuck(s.proposals[p])
    ensures p in s'.proposals && s'.proposals[p] == s.proposals[p]
  {
    hide Apply, AllWellKept, AllAccounted, MovedBy;
    if ix.ExecuteIx? || ix.CompleteIx? {
      ExecutionRefused(s, ix, s', p);
    } else {
      DecidedIsFrozen(s, ix, s', p);
    }
  }

  lemma ExecutionRefused(s: State, ix: Instruction, s': State, p: Pubkey)
    requires AllAccounted(s) && AllWellKept(s.proposals, s.now) && Apply(s, ix) == Ok(s')
    requires ix.ExecuteIx? || ix.CompleteIx?
    requires p in s.proposals && Stuck(s.proposals[p])
    ensures ix.p != p
    ensures p in s'.proposals && s'.proposals[p] == s.proposals[p]
  {
    hide CastVote, RelinquishVote, SignOff, FinalizeVote, ExecuteTransaction, CompleteProposal, RefundDeposit,
         CreateProposal, AddSignatory, InsertTransaction, RemoveTransaction, CancelProposal,
         CreateTokenOwnerRecord, DepositTokens, WithdrawTokens, RevokeTokens, SetDelegate,
         CreateGovernance, SetGovernanceConfig, AddRequiredSignatory, RemoveRequiredSignatory, AllPlaced, WellKept,
         Advances, CountExecuted;
    ProposalMoves(s, ix, s');
    if ix.ExecuteIx? {
      ExecuteTransactionEffect(s, ix.p, ix.g, ix.option, ix.index, ix.invoked, s');
      if ix.p == p {
        var (key, o) := (TransactionKey(p, ix.option, ix.index), s.proposals[p].options[ix.option]);
        assert OptionsAccounted(s.transactions, p, s.proposals[p].options) && o in s.proposals[p].options;
        SumSplit(s.transactions, key, LiveOf(p, ix.option));
        assert false;
      }
    } else {
      CompleteProposalCompletes(s, ix.p, ix.owner, ix.signer, s');
    }
  }

  /**
   A multiple-choice proposal whose winners have no transactions while another option has
   some can neither execute nor complete: it stays in Succeeded whatever happens.
   */
  lemma {:induction false} StuckForever(s: State, instructions: seq<Instruction>, p: Pubkey)
    requires Invariant(s) && p in s.proposals && Stuck(s.proposals[p])
    ensures p in Run(s, instructions).proposals && Run(s, instructions).proposals[p] == s.proposals[p]
    decreases |instructions|
  {
    hide Apply, Invariant, Stuck;
    if instructions != [] {
      var (prefix, ix) := (instructions[..|instructions| - 1], instructions[|instructions| - 1]);
      StuckForever(s, prefix, p);
      RunInvariant(s, prefix);
      InvariantParts(Run(s, prefix));
      if Apply(Run(s, prefix), ix).Ok? {
        StuckStep(Run(s, prefix), ix, Apply(Run(s, prefix), ix).value, p);
      }
    }
  }

  // ---- Proposals that can -----------------------------------------------------------------------------------

  predicate IsPending(o: ProposalOption) {
    o.voteResult == OptionSucceeded && o.transactionsExecutedCount < o.transactionsCount
  }

  /** How many transactions of winning options are still to be executed. */
  function PendingIn(options: seq<ProposalOption>): nat {
    if options == [] then 0
    else
      var o := options[|options| - 1];
      PendingIn(options[..|options| - 1])
      + if IsPending(o) then o.transactionsCount - o.transactionsExecutedCount else 0
  }

  function OneMoreExecuted(o: ProposalOption): ProposalOption {
    o.(transactionsExecutedCount := o.transactionsExecutedCount + 1)
  }

  lemma {:induction false} PendingDrops(options: seq<ProposalOption>, i: nat)
    requires i < |options| && IsPending(options[i])
    ensures PendingIn(options[i := OneMoreExecuted(options[i])]) + 1 == PendingIn(options)
  {
    var (n, updated) := (|options| - 1, options[i := OneMoreExecuted(options[i])]);
    if i < n {
      PendingDrops(options[..n], i);
      assert updated[..n] == options[..n][i := OneMoreExecuted(options[i])];
    } else {
      assert updated[..n] == options[..n];
    }
  }

  /** An option with something pending has a transaction that has not run. */
  lemma PendingTransaction(s: State, p: Pubkey, i: nat) returns (key: TransactionKey)
    requires AllAccounted(s) && p in s.proposals && i < |s.proposals[p].options| && IsPending(s.proposals[p].options[i])
    ensures key in s.transactions && key.proposal == p && key.option == i && s.transactions[key].executedAt.None?
  {
    hide CompletionEarned;
    var o := s.proposals[p].options[i];
    assert OptionsAccounted(s.transactions, p, s.proposals[p].options);
    assert OptionAccounted(s.transactions, p, i, o);
    if forall k :: k in s.transactions && k.proposal == p && k.option == i ==>
        s.transactions[k].executionStatus == Success {
      SumMonotone(s.transactions, LiveOf(p, i), ExecutedOf(p, i));
    }
    key :| key in s.transactions && key.proposal == p && key.option == i
        && s.transactions[key].executionStatus != Success;
    assert Placed(key, s.transactions[key], s.proposals[p]);
  }

  /** A proposal in execution, or ready for it, with a transaction of a winner left to run. */
  ghost predicate Ready(s: State, p: Pubkey, i: nat) {
    && Invariant(s)
    && p in s.proposals && (s.proposals[p].state == Succeeded || s.proposals[p].state == Executing)
    && i < |s.proposals[p].options| && IsPending(s.proposals[p].options[i])
  }

  lemma CompletionParts(s: State)
    requires Invariant(s)
    ensures AllWellKept(s.proposals, s.now) && Anchored(s) && AllAccounted(s)
  {
  }

  /** The two steps that run it: waiting out the hold-up time, then executing. */
  function HoldUpEnd(s: State, p: Pubkey): int
    requires p in s.proposals && s.proposals[p].votingCompletedAt.Some? && s.proposals[p].governance in s.governances
  {
    s.proposals[p].votingCompletedAt.value + s.governances[s.proposals[p].governance].config.transactionsHoldUpTime + 1
  }

  lemma ExecutionSucceeds(s: State, p: Pubkey, i: nat, key: TransactionKey)
    requires Ready(s, p, i) && s.proposals[p].votingCompletedAt.Some? && s.proposals[p].governance in s.governances
    requires HoldUpEnd(s, p) <= s.now
    requires key in s.transactions && key == TransactionKey(p, i, key.index) && s.transactions[key].executedAt.None?
    ensures ExecuteTransaction(s, p, s.proposals[p].governance, i, key.index, true).Ok?
  {
    hide Invariant, AllAccounted, AllExecuted, WithOption;
    CompletionParts(s);
    PendingIsCountable(s, p, i);
    assert WellKept(s.proposals[p], s.now);
  }

  lemma DecisionIsDated(s: State, p: Pubkey)
    requires AllWellKept(s.proposals, s.now) && p in s.proposals
    requires s.proposals[p].state == Succeeded || s.proposals[p].state == Executing
    ensures s.proposals[p].votingCompletedAt.Some?
  {
    assert WellKept(s.proposals[p], s.now);
  }

  lemma PendingIsCountable(s: State, p: Pubkey, i: nat)
    requires AllAccounted(s) && p in s.proposals && i < |s.proposals[p].options| && IsPending(s.proposals[p].options[i])
    ensures s.proposals[p].options[i].transactionsExecutedCount < U16_MAX
  {
    assert OptionsAccounted(s.transactions, p, s.proposals[p].options);
    assert OptionAccounted(s.transactions, p, i, s.proposals[p].options[i]);
  }

  lemma ExecuteNext(s: State, p: Pubkey, i: nat, index: nat)
    requires p in s.proposals && ExecuteTransaction(s, p, s.proposals[p].governance, i, index, true).Ok?
    ensures Next(s, ExecuteIx(p, s.proposals[p].governance, i, index, true))
         == ExecuteTransaction(s, p, s.proposals[p].governance, i, index, true).value
  {
    hide ExecuteTransaction;
  }

  lemma ClockNext(s: State, to: int)
    ensures Next(s, ClockAdvances(to)) == s.(now := if to < s.now then s.now else to)
  {
  }

  /** One more transaction of a winner runs, and the proposal is executing or completed. */
  lemma OneMoreRuns(s: State, p: Pubkey, i: nat) returns (run: seq<Instruction>)
    requires Ready(s, p, i)
    ensures var s' := Run(s, run);
            && Invariant(s') && p in s'.proposals
            && (s'.proposals[p].state == Executing || s'.proposals[p].state == Completed)
            && s'.proposals[p].options == s.proposals[p].options[i := OneMoreExecuted(s.proposals[p].options[i])]
  {
    hide Next, Run, Invariant, ExecuteTransaction, CountExecuted, AllWellKept, AllAccounted;
    CompletionParts(s);
    DecisionIsDated(s, p);
    var key := PendingTransaction(s, p, i);
    var wait := ClockAdvances(HoldUpEnd(s, p));
    var waited := Next(s, wait);
    ClockNext(s, HoldUpEnd(s, p));
    InvariantStep(s, wait);
    var g := s.proposals[p].governance;
    var run' := ExecuteIx(p, g, i, key.index, true);
    ExecutionSucceeds(waited, p, i, key);
    ExecuteNext(waited, p, i, key.index);
    InvariantStep(waited, run');
    ExecuteTransactionEffect(waited, p, g, i, key.index, true, Next(waited, run'));
    CountExecutedCounts(s.proposals[p], i, waited.now);
    run := [wait] + [run'];
    RunConcat(s, [wait], [run']);
    RunOne(s, wait);
    RunOne(waited, run');
  }

  // ---- The exact condition ------------------------------------------------------------------------------------

  ghost predicate Completes(s: State, run: seq<Instruction>, p: Pubkey) {
    p in Run(s, run).proposals && Run(s, run).proposals[p].state == Completed
  }

  /** An executing proposal has a transaction of a winner left to run. */
  lemma ExecutingHasPending(s: State, p: Pubkey) returns (i: nat)
    requires AllAccounted(s) && p in s.proposals && s.proposals[p].state == Executing
    ensures i < |s.proposals[p].options| && IsPending(s.proposals[p].options[i])
  {
    var options := s.proposals[p].options;
    assert CompletionEarned(s.proposals[p]);
    NoneExecuted(s, p);
    var o :| o in options && o.voteResult == OptionSucceeded && o.transactionsExecutedCount != o.transactionsCount;
    i :| 0 <= i < |options| && options[i] == o;
  }

  /** Executing whatever is pending, one transaction after the other, completes the proposal. */
  lemma {:induction false} ExecutionCompletes(s: State, p: Pubkey, i: nat) returns (run: seq<Instruction>)
    requires Ready(s, p, i)
    ensures Completes(s, run, p)
    decreases PendingIn(s.proposals[p].options)
  {
    hide Next, Run, Invariant, AllAccounted, PendingIn;
    run := OneMoreRuns(s, p, i);
    var s' := Run(s, run);
    PendingDrops(s.proposals[p].options, i);
    if s'.proposals[p].state == Executing {
      CompletionParts(s');
      var j := ExecutingHasPending(s', p);
      var rest := ExecutionCompletes(s', p, j);
      RunConcat(s, run, rest);
      run := run + rest;
    }
  }

  /** Nothing has run for a proposal that only succeeded. */
  lemma SucceededHasRunNothing(s: State, p: Pubkey)
    requires AllAccounted(s) && p in s.proposals && s.proposals[p].state == Succeeded
    ensures forall i :: 0 <= i < |s.proposals[p].options| ==> s.proposals[p].options[i].transactionsExecutedCount == 0
  {
    hide CompletionEarned;
    forall i | 0 <= i < |s.proposals[p].options|
      ensures s.proposals[p].options[i].transactionsExecutedCount == 0
    {
      assert OptionsAccounted(s.transactions, p, s.proposals[p].options);
      assert OptionAccounted(s.transactions, p, i, s.proposals[p].options[i]);
      forall key | key in s.transactions
        ensures ExecutedIn(p, i, key, s.transactions[key]) == 0
      {
        assert Placed(key, s.transactions[key], s.proposals[key.proposal]);
      }
      SumZero(s.transactions, ExecutedOf(p, i));
    }
  }

  lemma OwnerCompletes(s: State, p: Pubkey) returns (run: seq<Instruction>)
    requires Anchored(s) && p in s.proposals && AssertCanComplete(s.proposals[p]) == Pass
    ensures Completes(s, run, p)
  {
    hide CastVote, RelinquishVote, SignOff, FinalizeVote, ExecuteTransaction, RefundDeposit,
         CreateProposal, AddSignatory, InsertTransaction, RemoveTransaction, CancelProposal,
         CreateTokenOwnerRecord, DepositTokens, WithdrawTokens, RevokeTokens, SetDelegate,
         CreateGovernance, SetGovernanceConfig, AddRequiredSignatory, RemoveRequiredSignatory;
    var owner := s.proposals[p].owner;
    var ix := CompleteIx(p, owner, Some(owner.owner));
    run := [ix];
    RunOne(s, ix);
  }

  /**
   A proposal that succeeded or is executing can be completed, given instructions that run and
   an owner who signs, if and only if it is not stuck.
   */
  lemma CompletableUnlessStuck(s: State, p: Pubkey)
    requires Invariant(s) && p in s.proposals
    requires s.proposals[p].state == Succeeded || s.proposals[p].state == Executing
    ensures (exists run :: Completes(s, run, p)) <==> !Stuck(s.proposals[p])
  {
    hide Invariant, AllAccounted, Run, Next, AllWellKept;
    CompletionParts(s);
    var options := s.proposals[p].options;
    if Stuck(s.proposals[p]) {
      forall run
        ensures !Completes(s, run, p)
      {
        StuckForever(s, run, p);
      }
    } else if s.proposals[p].state == Executing {
      var i := ExecutingHasPending(s, p);
      var run := ExecutionCompletes(s, p, i);
    } else if forall o :: o in options ==> o.transactionsCount == 0 {
      var run := OwnerCompletes(s, p);
    } else {
      var o :| o in options && o.voteResult == OptionSucceeded && o.transactionsCount > 0;
      var i :| 0 <= i < |options| && options[i] == o;
      SucceededHasRunNothing(s, p);
      var run := ExecutionCompletes(s, p, i);
    }
  }
}
