/** Which deposits can still be got back and which proposals decided, whoever signs. */
module GovernanceRecovery {
  import opened Outcomes
  import opened Aggregates
  import opened GovernanceState
  import opened GovernanceSteps
  import opened GovernanceFrames
  import opened GovernanceLifecycle
  import opened GovernanceBallots
  import opened GovernanceActivity
  import opened GovernanceTallies
  import opened GovernanceTransactions
  import opened GovernanceSignatories
  import opened GovernanceCoverage
  import opened GovernanceRuns
  import opened GovernanceGuarantees
  import opened VoteResolution

  // ---- What a withdrawal needs ------------------------------------------------------------------------------

  predicate Stands(s: State, v: VoteKey) {
    v in s.votes && !s.votes[v].isRelinquished
  }

  /** In a reachable state a signed withdrawal succeeds if and only if this holds; tokens are never short. */
  predicate MayWithdraw(s: State, key: TokenOwnerKey) {
    && IsRealmMint(s.realm, key.mint) && TokenTypeOf(s.realm, key.mint) != Membership
    && key in s.records
    && (forall v :: v in s.votes && Stands(s, v) ==> v.voter != key)
    && (forall p :: p in s.proposals && s.proposals[p].owner == key ==> !IsActive(s.proposals[p].state))
  }

  lemma WithdrawalSucceeds(s: State, key: TokenOwnerKey, toHolding: bool)
    requires Invariant(s)
    ensures WithdrawTokens(s, key, true, false, toHolding).Ok? <==> MayWithdraw(s, key)
  {
    hide Invariant, AssertCanWithdraw, IsActive;
    DepositsArePayable(s, key, true, false, toHolding, 0, false);
    if key in s.records {
      WithdrawalGuard(s, key);
    }
  }

  // ---- What strands a deposit for good ----------------------------------------------------------------------

  /** The holder's mint is in the realm, and no veto of theirs stands against a council that is gone. */
  predicate Recoverable(s: State, key: TokenOwnerKey) {
    && IsRealmMint(s.realm, key.mint)
    && forall v :: v in s.votes && Stands(s, v) && v.voter == key ==> MintsRemain(s.realm, key, s.votes[v].vote)
  }

  /** A vote whose mints are gone cannot be given back, so it stands after every step. */
  lemma StrandedVoteStays(s: State, ix: Instruction, s': State, v: VoteKey)
    requires Apply(s, ix) == Ok(s') && Stands(s, v) && !MintsRemain(s.realm, v.voter, s.votes[v].vote)
    ensures v in s'.votes && Stands(s', v) && s'.votes[v].vote == s.votes[v].vote
  {
    hide CastVote, RelinquishVote, SignOff, FinalizeVote, ExecuteTransaction, CompleteProposal, RefundDeposit,
         CreateProposal, AddSignatory, InsertTransaction, RemoveTransaction, CancelProposal,
         CreateTokenOwnerRecord, DepositTokens, WithdrawTokens, RevokeTokens, SetDelegate, SetRealmConfig,
         CreateGovernance, SetGovernanceConfig, AddRequiredSignatory, RemoveRequiredSignatory, MintsRemain;
    match ix
    case CastVoteIx(p, g, voter, owner, signer, vote, addinWeight, source) =>
      CastVoteCounted(s, p, g, voter, owner, signer, vote, addinWeight, source, s');
    case RelinquishIx(p, g, voter, signer) =>
      ReturnNeedsMints(s, p, g, voter, signer);
      RelinquishVoteEffect(s, p, g, voter, signer, s');
    case _ => OthersKeepVotes(s, ix, s');
  }

  lemma ReturnNeedsMints(s: State, p: Pubkey, g: Pubkey, voter: TokenOwnerKey, signer: Option<Pubkey>)
    requires RelinquishVote(s, p, g, voter, signer).Ok?
    ensures Stands(s, VoteKey(p, voter)) && MintsRemain(s.realm, voter, s.votes[VoteKey(p, voter)].vote)
  {
    hide RetractVote, MarkVote;
  }

  lemma MintsStayGone(realm: Realm, realm': Realm, voter: TokenOwnerKey, vote: Vote)
    requires realm'.communityMint == realm.communityMint
    requires realm'.councilMint == realm.councilMint || realm'.councilMint.None?
    ensures IsRealmMint(realm', voter.mint) ==> IsRealmMint(realm, voter.mint)
    ensures MintsRemain(realm', voter, vote) ==> MintsRemain(realm, voter, vote)
  {
  }

  lemma StrandedStep(s: State, ix: Instruction, s': State, key: TokenOwnerKey)
    requires Apply(s, ix) == Ok(s') && !Recoverable(s, key)
    ensures !Recoverable(s', key)
  {
    hide Apply, Stands, MintsRemain, IsRealmMint;
    Frames(s, ix, s');
    MintsStayGone(s.realm, s'.realm, key, Abstain);
    if v :| v in s.votes && Stands(s, v) && v.voter == key && !MintsRemain(s.realm, key, s.votes[v].vote) {
      StrandedVoteStays(s, ix, s', v);
      MintsStayGone(s.realm, s'.realm, key, s.votes[v].vote);
    }
  }

  lemma {:induction false} StrandedOverRuns(s: State, run: seq<Instruction>, key: TokenOwnerKey)
    requires !Recoverable(s, key)
    ensures !Recoverable(Run(s, run), key)
    decreases |run|
  {
    hide Apply, Recoverable;
    if run != [] {
      var before := Run(s, run[..|run| - 1]);
      StrandedOverRuns(s, run[..|run| - 1], key);
      if Apply(before, run[|run| - 1]).Ok? {
        StrandedStep(before, run[|run| - 1], Apply(before, run[|run| - 1]).value, key);
      }
    }
  }

  lemma StrandedCannotWithdraw(s: State, key: TokenOwnerKey)
    requires Invariant(s) && !Recoverable(s, key)
    ensures !MayWithdraw(s, key)
  {
    hide Invariant, MintsRemain, TokenTypeOf, IsActive;
  }

  // ---- How every other deposit is got back --------------------------------------------------------------------

  /** A valid configuration with both populations voting and the given voting time. */
  function OpenConfig(period: nat): GovernanceConfig {
    GovernanceConfig(YesVotePercentage(60), 0, 0, period, NeverTip, YesVotePercentage(60), Disabled, 0, NeverTip,
                     Disabled, 0, 0)
  }

  /** The voting time with which the proposal can still be voted on now. */
  function PeriodUntil(q: Proposal, now: int): nat {
    if q.votingAt.Some? && q.votingAt.value <= now then now - q.votingAt.value else 0
  }

  function Reopen(s: State, p: Pubkey): Instruction
    requires p in s.proposals
  {
    SetConfigIx(s.proposals[p].governance, OpenConfig(PeriodUntil(s.proposals[p], s.now)), true)
  }

  predicate IsOpen(s: State, p: Pubkey) {
    && p in s.proposals && s.proposals[p].governance in s.governances
    && (s.proposals[p].state == Voting ==>
          && s.proposals[p].votingAt.Some?
          && s.now <= VotingMaxTimeEnd(s.proposals[p], s.governances[s.proposals[p].governance].config))
  }

  lemma ReopenStep(s: State, p: Pubkey)
    requires AllWellKept(s.proposals, s.now) && Anchored(s) && p in s.proposals
    ensures var s' := Next(s, Reopen(s, p)); s' == s.(governances := s'.governances) && IsOpen(s', p)
  {
    hide CastVote, RelinquishVote, SignOff, FinalizeVote, ExecuteTransaction, CompleteProposal, RefundDeposit,
         CreateProposal, AddSignatory, InsertTransaction, RemoveTransaction, CancelProposal,
         CreateTokenOwnerRecord, DepositTokens, WithdrawTokens, RevokeTokens, SetDelegate, SetRealmConfig,
         CreateGovernance, AddRequiredSignatory, RemoveRequiredSignatory;
    assert WellKept(s.proposals[p], s.now);
  }

  lemma RelinquishNext(s: State, p: Pubkey, g: Pubkey, voter: TokenOwnerKey, signer: Option<Pubkey>)
    requires RelinquishVote(s, p, g, voter, signer).Ok?
    ensures Next(s, RelinquishIx(p, g, voter, signer)) == RelinquishVote(s, p, g, voter, signer).value
  {
    hide RelinquishVote;
  }

  lemma CancelNext(s: State, p: Pubkey, g: Pubkey, owner: TokenOwnerKey, signer: Option<Pubkey>)
    requires CancelProposal(s, p, g, owner, signer).Ok?
    ensures Next(s, CancelIx(p, g, owner, signer)) == CancelProposal(s, p, g, owner, signer).value
  {
    hide CancelProposal;
  }

  /** What a run keeps on the way to a withdrawal: the realm, and no vote that was not there. */
  ghost predicate KeepsVotes(s: State, s': State, key: TokenOwnerKey) {
    && s'.realm == s.realm && key in s'.records
    && forall v :: Stands(s', v) ==> Stands(s, v) && s'.votes[v].vote == s.votes[v].vote
  }

  /** Giving a vote back takes it away or marks it, and counts it off. */
  lemma ReturnEffect(s: State, p: Pubkey, g: Pubkey, voter: TokenOwnerKey, signer: Option<Pubkey>, s': State)
    requires RelinquishVote(s, p, g, voter, signer) == Ok(s')
    ensures KeepsVotes(s, s', voter) && VotesHeldAt(s'.records, voter) + 1 == VotesHeldAt(s.records, voter)
  {
    hide RelinquishVote, SubtractVote;
    RelinquishVoteEffect(s, p, g, voter, signer, s');
  }

  lemma VoteReturns(s: State, v: VoteKey)
    requires Invariant(s) && Stands(s, v) && MintsRemain(s.realm, v.voter, s.votes[v].vote) && IsOpen(s, v.proposal)
    ensures var p := v.proposal;
            RelinquishVote(s, p, s.proposals[p].governance, v.voter, Some(v.voter.owner)).Ok?
  {
    hide Invariant, RelinquishVote, MintsRemain, VotingMaxTimeEnd;
    assert v == VoteKey(v.proposal, v.voter);
    assert SignedFor(s, v.voter, Some(v.voter.owner)) by {
      VoterIsRecorded(s, v);
    }
    StandingVoteIsReturnable(s, v.proposal, v.voter, Some(v.voter.owner));
  }

  lemma VoterIsRecorded(s: State, v: VoteKey)
    requires Invariant(s) && Stands(s, v)
    ensures v.voter in s.records && v.proposal in s.proposals
  {
    hide Invariant, AllWellKept, MarksMatch, Anchored, ActivityCounted, AllTallied, AllAccounted, AllSignaturesCounted,
         AllRequiredCounted, NeverShort, VotesCounted, VoteMints, MintsRemain, ProposalMintForVote;
    InvariantParts(s);
    StandingVoteIsHeld(s, v);
    VoteMintResolves(s, v);
  }

  /** A standing vote whose mints remain is given back by its owner, with the voting time extended if need be. */
  lemma ReturnOne(s: State, v: VoteKey) returns (run: seq<Instruction>)
    requires Invariant(s) && Stands(s, v) && MintsRemain(s.realm, v.voter, s.votes[v].vote)
    ensures var s' := Run(s, run);
            && Invariant(s') && KeepsVotes(s, s', v.voter)
            && VotesHeldAt(s'.records, v.voter) + 1 == VotesHeldAt(s.records, v.voter)
  {
    hide Run, Next, Invariant, AllWellKept, RelinquishVote, MintsRemain, VotesCounted, MarksMatch, ActivityCounted,
         AllTallied, AllAccounted, AllSignaturesCounted, AllRequiredCounted, VoteMints, NeverShort, IsOpen;
    InvariantParts(s);
    VoterIsRecorded(s, v);
    var (p, signer) := (v.proposal, Some(v.voter.owner));
    var (g, reopen) := (s.proposals[p].governance, Reopen(s, p));
    var reopened := Next(s, reopen);
    ReopenStep(s, p);
    InvariantStep(s, reopen);
    VoteReturns(reopened, v);
    var giveBack := RelinquishIx(p, g, v.voter, signer);
    RelinquishNext(reopened, p, g, v.voter, signer);
    InvariantStep(reopened, giveBack);
    ReturnEffect(reopened, p, g, v.voter, signer, Next(reopened, giveBack));
    run := [reopen] + [giveBack];
    RunConcat(s, [reopen], [giveBack]);
    RunOne(s, reopen);
    RunOne(reopened, giveBack);
  }

  lemma {:induction false} ReturnAll(s: State, key: TokenOwnerKey) returns (run: seq<Instruction>)
    requires Invariant(s) && key in s.records && Recoverable(s, key)
    ensures var s' := Run(s, run);
            Invariant(s') && KeepsVotes(s, s', key) && forall v :: Stands(s', v) ==> v.voter != key
    decreases VotesHeldAt(s.records, key)
  {
    hide Run, Next, Invariant, MintsRemain, IsRealmMint;
    run := [];
    assert Run(s, run) == s by {
      RunNothing(s);
    }
    if v :| v in s.votes && Stands(s, v) && v.voter == key {
      run := ReturnOne(s, v);
      var s' := Run(s, run);
      var rest := ReturnAll(s', key);
      RunConcat(s, run, rest);
      run := run + rest;
    }
  }

  lemma RunNothing(s: State)
    ensures Run(s, []) == s
  {
  }

  lemma CancelSucceeds(s: State, p: Pubkey)
    requires IsOpen(s, p) && IsActive(s.proposals[p].state) && s.proposals[p].owner in s.records
    ensures var q := s.proposals[p]; CancelProposal(s, p, q.governance, q.owner, Some(q.owner.owner)).Ok?
  {
    hide VotingMaxTimeEnd;
  }

  lemma CancelEffect(s: State, p: Pubkey, g: Pubkey, owner: TokenOwnerKey, signer: Option<Pubkey>, s': State)
    requires ActivityCounted(s) && CancelProposal(s, p, g, owner, signer) == Ok(s')
    ensures s' == s.(records := s'.records, proposals := s'.proposals, governances := s'.governances)
    ensures owner in s'.records && OutstandingAt(s'.records, owner) + 1 == OutstandingAt(s.records, owner)
    ensures forall key :: key in s.records ==> key in s'.records
  {
    hide AssertCanCancel, ActivityCounted;
    assert IsActive(s.proposals[p].state) by {
      CancelNeedsActive(s.proposals[p], s.governances[g].config, s.now);
    }
    ActiveIsCounted(s, p);
  }

  lemma CancelNeedsActive(q: Proposal, config: GovernanceConfig, now: int)
    requires AssertCanCancel(q, config, now) == Pass
    ensures IsActive(q.state)
  {
  }

  /** An active proposal is cancelled by its owner, with the voting time extended if need be. */
  lemma CancelOne(s: State, p: Pubkey) returns (run: seq<Instruction>)
    requires Invariant(s) && p in s.proposals && IsActive(s.proposals[p].state)
    ensures var (s', owner) := (Run(s, run), s.proposals[p].owner);
            && Invariant(s') && s'.realm == s.realm && s'.votes == s.votes && owner in s'.records
            && OutstandingAt(s'.records, owner) + 1 == OutstandingAt(s.records, owner)
  {
    hide Run, Next, Invariant, AllWellKept, CancelProposal, ActivityCounted, IsActive;
    InvariantParts(s);
    var (q, reopen) := (s.proposals[p], Reopen(s, p));
    var reopened := Next(s, reopen);
    ReopenStep(s, p);
    InvariantStep(s, reopen);
    InvariantParts(reopened);
    var (owner, signer) := (q.owner, Some(q.owner.owner));
    CancelSucceeds(reopened, p);
    var cancel := CancelIx(p, q.governance, owner, signer);
    CancelNext(reopened, p, q.governance, owner, signer);
    InvariantStep(reopened, cancel);
    CancelEffect(reopened, p, q.governance, owner, signer, Next(reopened, cancel));
    run := [reopen] + [cancel];
    RunConcat(s, [reopen], [cancel]);
    RunOne(s, reopen);
    RunOne(reopened, cancel);
  }

  lemma {:induction false} CancelAll(s: State, key: TokenOwnerKey) returns (run: seq<Instruction>)
    requires Invariant(s) && key in s.records
    ensures var s' := Run(s, run);
            && Invariant(s') && s'.realm == s.realm && s'.votes == s.votes && key in s'.records
            && forall p :: p in s'.proposals && s'.proposals[p].owner == key ==> !IsActive(s'.proposals[p].state)
    decreases OutstandingAt(s.records, key)
  {
    hide Run, Next, Invariant, IsActive;
    run := [];
    assert Run(s, run) == s by {
      RunNothing(s);
    }
    if p :| p in s.proposals && s.proposals[p].owner == key && IsActive(s.proposals[p].state) {
      run := CancelOne(s, p);
      var s' := Run(s, run);
      var rest := CancelAll(s', key);
      RunConcat(s, run, rest);
      run := run + rest;
    }
  }

  /** Both token types become liquid; the council stays as it is. */
  function MakeLiquid(s: State): Instruction {
    SetRealmConfigIx(true, s.realm.councilMint, Liquid, Liquid)
  }

  lemma LiquidStep(s: State)
    ensures Next(s, MakeLiquid(s)) == s.(realm := s.realm.(communityTokenType := Liquid, councilTokenType := Liquid))
  {
    hide CastVote, RelinquishVote, SignOff, FinalizeVote, ExecuteTransaction, CompleteProposal, RefundDeposit,
         CreateProposal, AddSignatory, InsertTransaction, RemoveTransaction, CancelProposal,
         CreateTokenOwnerRecord, DepositTokens, WithdrawTokens, RevokeTokens, SetDelegate,
         CreateGovernance, SetGovernanceConfig, AddRequiredSignatory, RemoveRequiredSignatory;
  }

  lemma LiquidRecoverable(s: State, s': State, key: TokenOwnerKey)
    requires Recoverable(s, key)
    requires s' == s.(realm := s.realm.(communityTokenType := Liquid, councilTokenType := Liquid))
    ensures Recoverable(s', key)
  {
    assert forall v :: Stands(s', v) ==> Stands(s, v);
  }

  // ---- The exact condition ------------------------------------------------------------------------------------

  /** After the run the holder's own signature gets the whole deposit back. */
  ghost predicate Recovers(s: State, run: seq<Instruction>, key: TokenOwnerKey) {
    WithdrawTokens(Run(s, run), key, true, false, false).Ok?
  }

  lemma RecoveryRun(s: State, key: TokenOwnerKey) returns (run: seq<Instruction>)
    requires Invariant(s) && key in s.records && Recoverable(s, key)
    ensures Recovers(s, run, key)
  {
    hide Run, Next, Invariant, Stands, IsActive, WithdrawTokens;
    var liquid := Next(s, MakeLiquid(s));
    LiquidStep(s);
    InvariantStep(s, MakeLiquid(s));
    LiquidRecoverable(s, liquid, key);
    var givingBack := ReturnAll(liquid, key);
    var returned := Run(liquid, givingBack);
    var cancels := CancelAll(returned, key);
    var cleared := Run(returned, cancels);
    RunOne(s, MakeLiquid(s));
    RunConcat(s, [MakeLiquid(s)], givingBack);
    RunConcat(s, [MakeLiquid(s)] + givingBack, cancels);
    run := [MakeLiquid(s)] + givingBack + cancels;
    StandsByVotes(returned, cleared);
    WithdrawalSucceeds(cleared, key, false);
  }

  lemma StandsByVotes(s: State, s': State)
    requires s'.votes == s.votes
    ensures forall v :: Stands(s', v) <==> Stands(s, v)
  {
  }

  /**
   A deposit can be got back by some run if and only if its mint is in the realm and no veto of
   its holder stands against a council that was removed. Whatever else holds it back, an open
   vote, an active proposal or a membership token, signatures can still undo.
   */
  lemma DepositRecoverable(s: State, key: TokenOwnerKey)
    requires Invariant(s) && key in s.records
    ensures (exists run :: Recovers(s, run, key)) <==> Recoverable(s, key)
  {
    hide Run, Next, Invariant, Recoverable, WithdrawTokens, MayWithdraw;
    if Recoverable(s, key) {
      var run := RecoveryRun(s, key);
    } else {
      forall run
        ensures !Recovers(s, run, key)
      {
        StrandedOverRuns(s, run, key);
        RunInvariant(s, run);
        StrandedCannotWithdraw(Run(s, run), key);
        WithdrawalSucceeds(Run(s, run), key, false);
      }
    }
  }
}
