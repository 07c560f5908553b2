/** When a proposal in voting can still be decided. */
module GovernanceDecision {
  import opened Outcomes
  import opened GovernanceState
  import opened GovernanceSteps
  import opened GovernanceFrames
  import opened GovernanceLifecycle
  import opened GovernanceActivity
  import opened GovernanceTransactions
  import opened GovernanceSignatories
  import opened GovernanceRuns
  import opened GovernanceRecovery
  import opened VoteResolution

  /** The votes settled it; a cancelled proposal is not decided. */
  predicate Decided(s: State, p: Pubkey) {
    p in s.proposals && Rank(s.proposals[p].state) >= 3 && s.proposals[p].state != Cancelled
  }

  // ---- The final count ----------------------------------------------------------------------------------------

  predicate VotingEnded(s: State, p: Pubkey) {
    && p in s.proposals && s.proposals[p].governance in s.governances
    && s.proposals[p].state == Voting && s.proposals[p].votingAt.Some?
    && VotingMaxTimeEnd(s.proposals[p], s.governances[s.proposals[p].governance].config) < s.now
  }

  /** The proposal's population is in the realm and its threshold is a percentage. */
  predicate CanCount(s: State, p: Pubkey)
    requires p in s.proposals && s.proposals[p].governance in s.governances
  {
    var q := s.proposals[p];
    var threshold := ResolveVoteThreshold(s.governances[q.governance], s.realm, q.governingTokenMint, Electorate);
    threshold.Ok? && threshold.value.YesVotePercentage?
  }

  function FinalCount(s: State, p: Pubkey): Instruction
    requires p in s.proposals
  {
    var q := s.proposals[p];
    FinalizeIx(p, q.governance, q.owner, q.governingTokenMint, FullSupply(0))
  }

  lemma CountDecides(s: State, p: Pubkey)
    requires VotingEnded(s, p) && CanCount(s, p) && s.proposals[p].owner in s.records
    ensures var q := s.proposals[p];
            var r := FinalizeVote(s, p, q.governance, q.owner, q.governingTokenMint, FullSupply(0));
            r.Ok? && Decided(r.value, p)
  {
    hide Best, CountAt, WithResults, VotingMaxTimeEnd, CeilingOfHundredths;
  }

  lemma FinalizeNext(s: State, p: Pubkey)
    requires p in s.proposals
    ensures var q := s.proposals[p];
            var r := FinalizeVote(s, p, q.governance, q.owner, q.governingTokenMint, FullSupply(0));
            r.Ok? ==> Next(s, FinalCount(s, p)) == r.value
  {
    hide FinalizeVote;
  }

  lemma CountNow(s: State, p: Pubkey)
    requires Anchored(s) && VotingEnded(s, p) && CanCount(s, p)
    ensures Decided(Next(s, FinalCount(s, p)), p)
  {
    hide Next, FinalizeVote, CanCount, VotingEnded;
    EndedFacts(s, p);
    AnchoredAt(s, p);
    CountDecides(s, p);
    FinalizeNext(s, p);
  }

  lemma AnchoredAt(s: State, p: Pubkey)
    requires Anchored(s)
    ensures p in s.proposals ==> s.proposals[p].owner in s.records && s.proposals[p].governance in s.governances
  {
  }

  // ---- With the configuration as it is ----------------------------------------------------------------------

  /** The run does not configure the governance. */
  predicate LeavesConfig(run: seq<Instruction>, g: Pubkey) {
    forall ix :: ix in run ==> !(ix.SetConfigIx? && ix.g == g)
  }

  lemma CancelRefused(s: State, p: Pubkey, g: Pubkey, owner: TokenOwnerKey, signer: Option<Pubkey>)
    requires VotingEnded(s, p)
    ensures CancelProposal(s, p, g, owner, signer).Err?
  {
  }

  lemma RelinquishRefused(s: State, p: Pubkey, g: Pubkey, voter: TokenOwnerKey, signer: Option<Pubkey>)
    requires VotingEnded(s, p)
    ensures RelinquishVote(s, p, g, voter, signer).Err?
  {
  }

  lemma FinalizeRefused(s: State, p: Pubkey, g: Pubkey, owner: TokenOwnerKey, mint: Pubkey, source: MaxWeightSource)
    requires VotingEnded(s, p) && !CanCount(s, p)
    ensures FinalizeVote(s, p, g, owner, mint, source).Err?
  {
    hide ResolveMaxVoterWeight, FinalVerdict, VotingMaxTimeEnd;
  }

  lemma CompleteRefused(s: State, p: Pubkey, owner: TokenOwnerKey, signer: Option<Pubkey>)
    requires VotingEnded(s, p)
    ensures CompleteProposal(s, p, owner, signer).Err?
  {
  }

  /** Once voting has ended without a count that can succeed, every instruction on the proposal is refused. */
  lemma EverythingRefused(s: State, ix: Instruction, p: Pubkey)
    requires VotingEnded(s, p) && !CanCount(s, p) && MovedBy(ix) == Some(p)
    ensures Apply(s, ix).Err?
  {
    hide CastVote, RelinquishVote, SignOff, FinalizeVote, ExecuteTransaction, CompleteProposal, RefundDeposit,
         CreateProposal, AddSignatory, InsertTransaction, RemoveTransaction, CancelProposal,
         CreateTokenOwnerRecord, DepositTokens, WithdrawTokens, RevokeTokens, SetDelegate, SetRealmConfig,
         CreateGovernance, SetGovernanceConfig, AddRequiredSignatory, RemoveRequiredSignatory, CanCount,
         VotingMaxTimeEnd;
    var step := Apply(s, ix);
    if step.Ok? {
      match ix
      case AddSignatoryIx(_, g, signatory, owner, signer) =>
        AddSignatoryEffect(s, p, g, signatory, owner, signer, step.value);
      case SignOffIx(_, g, signatory, isSigner, owner) =>
        SignOffEffect(s, p, g, signatory, isSigner, owner, step.value);
      case InsertTransactionIx(_, g, owner, signer, option, index) =>
        InsertTransactionEffect(s, p, g, owner, signer, option, index, step.value);
      case RemoveTransactionIx(_, owner, signer, option, index) =>
        RemoveTransactionEffect(s, p, owner, signer, option, index, step.value);
      case CancelIx(_, g, owner, signer) => CancelRefused(s, p, g, owner, signer);
      case CastVoteIx(_, g, voter, owner, signer, vote, addinWeight, source) =>
        CastRefused(s, p, g, voter, owner, signer, vote, addinWeight, source);
      case RelinquishIx(_, g, voter, signer) => RelinquishRefused(s, p, g, voter, signer);
      case FinalizeIx(_, g, owner, mint, source) => FinalizeRefused(s, p, g, owner, mint, source);
      case ExecuteIx(_, g, option, index, invoked) =>
        ExecuteTransactionEffect(s, p, g, option, index, invoked, step.value);
      case CompleteIx(_, owner, signer) => CompleteRefused(s, p, owner, signer);
    }
  }

  lemma CastRefused(s: State, p: Pubkey, g: Pubkey, voter: TokenOwnerKey, owner: TokenOwnerKey, signer: Option<Pubkey>,
      vote: Vote, addinWeight: Option<nat>, source: MaxWeightSource)
    requires VotingEnded(s, p)
    ensures CastVote(s, p, g, voter, owner, signer, vote, addinWeight, source).Err?
  {
    hide CastVote, Count, AssertValidVote, AddVote, ProposalMintForVote, VoterWeight, VotingMaxTimeEnd;
    var r := CastVote(s, p, g, voter, owner, signer, vote, addinWeight, source);
    if r.Ok? {
      CastVoteEffect(s, p, g, voter, owner, signer, vote, addinWeight, source, r.value);
      BallotFacts(s, p, g, voter, signer, vote, addinWeight, source);
    }
  }

  lemma CountStaysRefused(s: State, s': State, p: Pubkey)
    requires p in s.proposals && s.proposals[p].governance in s.governances && !CanCount(s, p)
    requires p in s'.proposals && s'.proposals[p] == s.proposals[p]
    requires var g := s.proposals[p].governance;
             g in s'.governances && s'.governances[g].config == s.governances[g].config
    requires s'.realm.communityMint == s.realm.communityMint
    requires s'.realm.councilMint == s.realm.councilMint || s'.realm.councilMint.None?
    ensures !CanCount(s', p)
  {
  }

  lemma UnsettledStep(s: State, ix: Instruction, s': State, p: Pubkey)
    requires AllWellKept(s.proposals, s.now) && Apply(s, ix) == Ok(s')
    requires VotingEnded(s, p) && !CanCount(s, p) && !(ix.SetConfigIx? && ix.g == s.proposals[p].governance)
    ensures VotingEnded(s', p) && !CanCount(s', p) && s'.proposals[p] == s.proposals[p]
  {
    hide Apply, AllWellKept, CanCount, Advances, WellKept, IsFresh;
    if MovedBy(ix) == Some(p) {
      EverythingRefused(s, ix, p);
    }
    ProposalMoves(s, ix, s');
    Frames(s, ix, s');
    GovernanceFieldFrames(s, ix, s');
    CountStaysRefused(s, s', p);
  }

  /** Nothing happens to such a proposal while its governance keeps its configuration. */
  lemma {:induction false} UnsettledOverRuns(s: State, run: seq<Instruction>, p: Pubkey)
    requires Invariant(s) && VotingEnded(s, p) && !CanCount(s, p) && LeavesConfig(run, s.proposals[p].governance)
    ensures var s' := Run(s, run); VotingEnded(s', p) && !CanCount(s', p) && s'.proposals[p] == s.proposals[p]
    decreases |run|
  {
    hide Apply, Invariant, VotingEnded, CanCount, AllWellKept;
    EndedFacts(s, p);
    if run != [] {
      var (prefix, ix) := (run[..|run| - 1], run[|run| - 1]);
      var before := Run(s, prefix);
      UnsettledOverRuns(s, prefix, p);
      EndedFacts(before, p);
      RunInvariant(s, prefix);
      InvariantParts(before);
      if Apply(before, ix).Ok? {
        UnsettledStep(before, ix, Apply(before, ix).value, p);
      }
    }
  }

  lemma EndedFacts(s: State, p: Pubkey)
    requires VotingEnded(s, p)
    ensures p in s.proposals && s.proposals[p].governance in s.governances && !Decided(s, p)
  {
  }

  /**
   After the voting time a proposal is decided by some run that leaves its governance's
   configuration alone if and only if its mint is in the realm and its threshold is enabled.
   */
  lemma DecidedAsConfigured(s: State, p: Pubkey)
    requires Invariant(s) && VotingEnded(s, p)
    ensures p in s.proposals && s.proposals[p].governance in s.governances
    ensures (exists run :: LeavesConfig(run, s.proposals[p].governance) && Decided(Run(s, run), p)) <==> CanCount(s, p)
  {
    hide Invariant, Run, Next, VotingEnded, CanCount, Decided;
    EndedFacts(s, p);
    if CanCount(s, p) {
      InvariantParts(s);
      CountNow(s, p);
      RunOne(s, FinalCount(s, p));
      assert LeavesConfig([FinalCount(s, p)], s.proposals[p].governance);
    } else {
      forall run | LeavesConfig(run, s.proposals[p].governance)
        ensures !Decided(Run(s, run), p)
      {
        UnsettledOverRuns(s, run, p);
        EndedFacts(Run(s, run), p);
      }
    }
  }

  // ---- With any configuration -------------------------------------------------------------------------------

  /** The proposal's population was removed from the realm before it was decided. */
  predicate Orphaned(s: State, p: Pubkey) {
    p in s.proposals && !Decided(s, p) && !IsRealmMint(s.realm, s.proposals[p].governingTokenMint)
  }

  lemma OrphanNotFinalized(s: State, p: Pubkey, g: Pubkey, owner: TokenOwnerKey, mint: Pubkey, source: MaxWeightSource)
    requires Orphaned(s, p)
    ensures FinalizeVote(s, p, g, owner, mint, source).Err?
  {
    hide ResolveMaxVoterWeight, FinalizedVote, ResolveVoteThreshold;
  }

  lemma OrphanNotVoted(s: State, p: Pubkey, g: Pubkey, voter: TokenOwnerKey, owner: TokenOwnerKey,
      signer: Option<Pubkey>, vote: Vote, addinWeight: Option<nat>, source: MaxWeightSource)
    requires Orphaned(s, p)
    ensures CastVote(s, p, g, voter, owner, signer, vote, addinWeight, source).Err?
  {
    hide CastVote, Count, AssertValidVote, AddVote, VoterWeight, VotingMaxTimeEnd;
    var r := CastVote(s, p, g, voter, owner, signer, vote, addinWeight, source);
    if r.Ok? {
      CastVoteEffect(s, p, g, voter, owner, signer, vote, addinWeight, source, r.value);
      BallotFacts(s, p, g, voter, signer, vote, addinWeight, source);
    }
  }

  lemma OrphanOnlyCancelled(s: State, ix: Instruction, s': State, p: Pubkey)
    requires Apply(s, ix) == Ok(s') && Orphaned(s, p) && MovedBy(ix) == Some(p)
    ensures DecisionPart !in PartsOf(ix) || (p in s'.proposals && s'.proposals[p].state == Cancelled)
  {
    hide CastVote, RelinquishVote, SignOff, FinalizeVote, ExecuteTransaction, CompleteProposal, RefundDeposit,
         CreateProposal, AddSignatory, InsertTransaction, RemoveTransaction, CancelProposal,
         CreateTokenOwnerRecord, DepositTokens, WithdrawTokens, RevokeTokens, SetDelegate, SetRealmConfig,
         CreateGovernance, SetGovernanceConfig, AddRequiredSignatory, RemoveRequiredSignatory, Orphaned;
    match ix
    case CancelIx(_, g, owner, signer) => CancelCancels(s, p, g, owner, signer, s');
    case CastVoteIx(_, g, voter, owner, signer, vote, addinWeight, source) =>
      OrphanNotVoted(s, p, g, voter, owner, signer, vote, addinWeight, source);
    case FinalizeIx(_, g, owner, mint, source) => OrphanNotFinalized(s, p, g, owner, mint, source);
    case _ =>
  }

  lemma CancelCancels(s: State, p: Pubkey, g: Pubkey, owner: TokenOwnerKey, signer: Option<Pubkey>, s': State)
    requires CancelProposal(s, p, g, owner, signer) == Ok(s')
    ensures p in s'.proposals && s'.proposals[p].state == Cancelled
  {
    hide AssertCanCancel;
  }

  lemma ActiveKept(parts: set<Part>, q: Proposal, q': Proposal, now: int)
    requires Advances(parts, q, q', now) && DecisionPart !in parts
    ensures IsActive(q'.state) == IsActive(q.state)
  {
  }

  /** An orphan that moves is cancelled or stays active; a cancelled one does not move. */
  lemma OrphanUndecided(s: State, ix: Instruction, s': State, p: Pubkey)
    requires AllWellKept(s.proposals, s.now) && Apply(s, ix) == Ok(s') && Orphaned(s, p)
    requires p in s'.proposals && Evolves(s.proposals[p], s'.proposals[p])
    ensures !Decided(s', p)
  {
    hide Apply, AllWellKept, Advances, IsFresh, OptionsEvolve, PartsOf;
    ProposalMoves(s, ix, s');
    if MovedBy(ix) == Some(p) {
      OrphanOnlyCancelled(s, ix, s', p);
      if s'.proposals[p].state != Cancelled {
        ActiveKept(PartsOf(ix), s.proposals[p], s'.proposals[p], s'.now);
      }
    }
  }

  lemma OrphanStep(s: State, ix: Instruction, s': State, p: Pubkey)
    requires AllWellKept(s.proposals, s.now) && Apply(s, ix) == Ok(s') && Orphaned(s, p)
    ensures Orphaned(s', p)
  {
    hide Apply, AllWellKept, OptionsEvolve, Decided;
    ProposalsMoveForward(s, ix, s');
    Frames(s, ix, s');
    OrphanUndecided(s, ix, s', p);
  }

  lemma {:induction false} OrphanOverRuns(s: State, run: seq<Instruction>, p: Pubkey)
    requires Invariant(s) && Orphaned(s, p)
    ensures Orphaned(Run(s, run), p)
    decreases |run|
  {
    hide Apply, Invariant, Orphaned, AllWellKept;
    if run != [] {
      var before := Run(s, run[..|run| - 1]);
      OrphanOverRuns(s, run[..|run| - 1], p);
      RunInvariant(s, run[..|run| - 1]);
      InvariantParts(before);
      if Apply(before, run[|run| - 1]).Ok? {
        OrphanStep(before, run[|run| - 1], Apply(before, run[|run| - 1]).value, p);
      }
    }
  }

  /** A threshold is enabled and the voting time passes. */
  lemma EndVoting(s: State, p: Pubkey) returns (run: seq<Instruction>)
    requires Invariant(s) && p in s.proposals && s.proposals[p].state == Voting
    requires IsRealmMint(s.realm, s.proposals[p].governingTokenMint)
    ensures var s' := Run(s, run); Invariant(s') && VotingEnded(s', p) && CanCount(s', p)
  {
    hide Run, Next, Invariant, AllWellKept, IsOpen;
    InvariantParts(s);
    var open := SetConfigIx(s.proposals[p].governance, OpenConfig(0), true);
    var configured := Next(s, open);
    ConfigureStep(s, p);
    InvariantStep(s, open);
    VotingHasBegun(s, p);
    var wait := ClockAdvances(s.proposals[p].votingAt.value + 1);
    WaitStep(configured, s.proposals[p].votingAt.value + 1);
    InvariantStep(configured, wait);
    run := [open] + [wait];
    RunConcat(s, [open], [wait]);
    RunOne(s, open);
    RunOne(configured, wait);
  }

  lemma VotingHasBegun(s: State, p: Pubkey)
    requires AllWellKept(s.proposals, s.now) && p in s.proposals && s.proposals[p].state == Voting
    ensures s.proposals[p].votingAt.Some?
  {
    assert WellKept(s.proposals[p], s.now);
  }

  lemma WaitStep(s: State, to: int)
    ensures Next(s, ClockAdvances(to)) == s.(now := if to < s.now then s.now else to)
  {
  }

  lemma ConfigureStep(s: State, p: Pubkey)
    requires Anchored(s) && p in s.proposals
    ensures var g := s.proposals[p].governance;
            && g in s.governances
            && Next(s, SetConfigIx(g, OpenConfig(0), true))
               == s.(governances := s.governances[g := s.governances[g].(config := OpenConfig(0))])
  {
    hide CastVote, RelinquishVote, SignOff, FinalizeVote, ExecuteTransaction, CompleteProposal, RefundDeposit,
         CreateProposal, AddSignatory, InsertTransaction, RemoveTransaction, CancelProposal,
         CreateTokenOwnerRecord, DepositTokens, WithdrawTokens, RevokeTokens, SetDelegate, SetRealmConfig,
         CreateGovernance, AddRequiredSignatory, RemoveRequiredSignatory;
  }

  lemma DecisionRun(s: State, p: Pubkey) returns (run: seq<Instruction>)
    requires Invariant(s) && p in s.proposals && s.proposals[p].state == Voting
    requires IsRealmMint(s.realm, s.proposals[p].governingTokenMint)
    ensures Decided(Run(s, run), p)
  {
    hide Run, Next, Invariant, AllWellKept, VotingEnded, CanCount, Decided;
    var ending := EndVoting(s, p);
    var ended := Run(s, ending);
    InvariantParts(ended);
    EndedFacts(ended, p);
    CountNow(ended, p);
    RunOne(ended, FinalCount(ended, p));
    RunConcat(s, ending, [FinalCount(ended, p)]);
    run := ending + [FinalCount(ended, p)];
  }

  /** A proposal in voting can be decided by some run if and only if its population is still in the realm. */
  lemma DecidableWhileInRealm(s: State, p: Pubkey)
    requires Invariant(s) && p in s.proposals && s.proposals[p].state == Voting
    ensures (exists run :: Decided(Run(s, run), p)) <==> IsRealmMint(s.realm, s.proposals[p].governingTokenMint)
  {
    hide Run, Next, Invariant, IsRealmMint;
    if IsRealmMint(s.realm, s.proposals[p].governingTokenMint) {
      var run := DecisionRun(s, p);
    } else {
      forall run
        ensures !Decided(Run(s, run), p)
      {
        OrphanOverRuns(s, run, p);
      }
    }
  }
}
