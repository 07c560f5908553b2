/**
 Runs from the empty realm: to a proposal that can never complete, and to one that can miss a
 required signatory, once by a late requirement and once by a dropped one.
 */
module GovernanceWitness {
  import opened Outcomes
  import opened GovernanceState
  import opened GovernanceSteps
  import opened GovernanceRuns
  import opened GovernanceCompletion
  import opened GovernanceRequired
  import opened GovernanceSignatories
  import opened VoteResolution

  const MINT: Pubkey := 1
  const REALM: Realm := Realm(MINT, None, Liquid, Liquid)
  const VOTER: TokenOwnerKey := TokenOwnerKey(MINT, 7)
  const GOVERNANCE: Pubkey := 2
  const PROPOSAL: Pubkey := 3

  const CONFIG: GovernanceConfig := GovernanceConfig(
    YesVotePercentage(60), 0, 0, 10, NeverTip, Disabled, Disabled, 0, NeverTip, Disabled, 0, 10)

  const LABELS: seq<string> := ["first", "second"]
  const TWO_CHOICES: VoteType := MultiChoice(FullWeight, 1, 2, 2)
  const VOTE: Vote := Approve([VoteChoice(0, 100), VoteChoice(0, 0)])

  /** A vote for the first of two options, while the only transaction belongs to the second. */
  const DEPOSIT: Instruction := DepositIx(VOTER, 100, true, true)
  const GOVERN: Instruction := CreateGovernanceIx(GOVERNANCE, CONFIG)
  const PROPOSE: Instruction :=
    CreateProposalIx(PROPOSAL, GOVERNANCE, MINT, VOTER, Some(7), 7, None, LABELS, TWO_CHOICES, true)
  const INSERT: Instruction := InsertTransactionIx(PROPOSAL, GOVERNANCE, VOTER, Some(7), 1, 0)
  const SIGN: Instruction := SignOffIx(PROPOSAL, GOVERNANCE, 7, true, VOTER)
  const CAST: Instruction := CastVoteIx(PROPOSAL, GOVERNANCE, VOTER, VOTER, Some(7), VOTE, None, FullSupply(100))
  const WAIT: Instruction := ClockAdvances(11)
  const FINALIZE: Instruction := FinalizeIx(PROPOSAL, GOVERNANCE, VOTER, MINT, FullSupply(100))

  function Choice(name: string, weight: nat, result: OptionVoteResult, transactions: nat): ProposalOption {
    ProposalOption(name, weight, result, 0, transactions, transactions)
  }

  function Stage(state: ProposalState, first: ProposalOption, second: ProposalOption, votingAt: Option<int>,
      completedAt: Option<int>): Proposal {
    Proposal(GOVERNANCE, MINT, state, VOTER, 0, 0, TWO_CHOICES, [first, second], Some(0), 0,
             0, votingAt, votingAt, completedAt, None, None)
  }

  const DRAFTED: Proposal := Stage(Draft, Choice("first", 0, NoResult, 0), Choice("second", 0, NoResult, 0), None, None)
  const FILLED: Proposal := Stage(Draft, Choice("first", 0, NoResult, 0), Choice("second", 0, NoResult, 1), None, None)
  const OPENED: Proposal := Stage(Voting, Choice("first", 0, NoResult, 0), Choice("second", 0, NoResult, 1), Some(0),
      None)
  const VOTED: Proposal := Stage(Voting, Choice("first", 100, NoResult, 0), Choice("second", 0, NoResult, 1),
      Some(0), None)
  const DECIDED: Proposal :=
    Stage(Succeeded, Choice("first", 100, OptionSucceeded, 0), Choice("second", 0, OptionDefeated, 1), Some(0),
        Some(10))

  function Accounts(now: int, votes: nat, outstanding: nat, active: nat, proposals: map<Pubkey, Proposal>): State {
    EmptyState(REALM, now).(
      holdings := map[MINT := 100],
      records := map[VOTER := TokenOwnerRecord(100, votes, outstanding, None)],
      governances := map[GOVERNANCE := Governance(CONFIG, 0, active)],
      proposals := proposals)
  }

  const TRANSACTIONS: map<TransactionKey, ProposalTransaction> :=
    map[TransactionKey(PROPOSAL, 1, 0) := ProposalTransaction(None, NotExecuted)]
  const VOTES: map<VoteKey, VoteRecord> := map[VoteKey(PROPOSAL, VOTER) := VoteRecord(100, VOTE, false)]

  const DEPOSITED: State := GOVERNED.(governances := map[])
  const GOVERNED: State := Accounts(0, 0, 0, 0, map[])
  const PROPOSED: State := Accounts(0, 0, 1, 1, map[PROPOSAL := DRAFTED])
  const INSERTED: State := Accounts(0, 0, 1, 1, map[PROPOSAL := FILLED]).(transactions := TRANSACTIONS)
  const SIGNED: State := INSERTED.(proposals := map[PROPOSAL := OPENED])
  const COUNTED: State := Accounts(0, 1, 1, 1, map[PROPOSAL := VOTED]).(transactions := TRANSACTIONS, votes := VOTES)
  const EXPIRED: State := COUNTED.(now := 11)
  const FINAL: State := Accounts(11, 1, 0, 0, map[PROPOSAL := DECIDED]).(transactions := TRANSACTIONS, votes := VOTES)

  lemma Deposited()
    ensures DepositTokens(EmptyState(REALM, 0), VOTER, 100, true, true) == Ok(DEPOSITED)
  {
    assert DepositTokens(EmptyState(REALM, 0), VOTER, 100, true, true).value == DEPOSITED;
  }

  lemma Governed()
    ensures CreateGovernance(DEPOSITED, GOVERNANCE, CONFIG) == Ok(GOVERNED)
  {
    assert CreateGovernance(DEPOSITED, GOVERNANCE, CONFIG).value == GOVERNED;
  }

  lemma MayPropose()
    ensures MayCreate(GOVERNED, PROPOSAL, GOVERNANCE, MINT, VOTER, Some(7), None, LABELS, TWO_CHOICES)
         == Ok((GOVERNED.governances[GOVERNANCE], GOVERNED.records[VOTER]))
  {
  }

  lemma NewDraft()
    ensures NewProposal(GOVERNANCE, MINT, VOTER, LABELS, TWO_CHOICES, true, 0) == DRAFTED
  {
  }

  lemma Opens(governance: Governance, record: TokenOwnerRecord)
    requires governance == GOVERNED.governances[GOVERNANCE] && record == GOVERNED.records[VOTER]
    ensures OpenProposal(GOVERNED, PROPOSAL, DRAFTED, 7, governance, record) == Ok(PROPOSED)
  {
    assert OpenProposal(GOVERNED, PROPOSAL, DRAFTED, 7, governance, record).value == PROPOSED;
  }

  lemma Proposed()
    ensures CreateProposal(GOVERNED, PROPOSAL, GOVERNANCE, MINT, VOTER, Some(7), 7, None, LABELS, TWO_CHOICES, true)
         == Ok(PROPOSED)
  {
    hide OpenProposal, MayCreate, NewProposal;
    MayPropose();
    NewDraft();
    Opens(GOVERNED.governances[GOVERNANCE], GOVERNED.records[VOTER]);
  }

  lemma Inserted()
    ensures InsertTransaction(PROPOSED, PROPOSAL, GOVERNANCE, VOTER, Some(7), 1, 0) == Ok(INSERTED)
  {
    assert CountInserted(DRAFTED.options[1], 0) == Ok(FILLED.options[1]);
    assert WithOption(DRAFTED, 1, FILLED.options[1]) == FILLED;
    assert InsertTransaction(PROPOSED, PROPOSAL, GOVERNANCE, VOTER, Some(7), 1, 0).value == INSERTED;
  }

  lemma Signed()
    ensures SignOff(INSERTED, PROPOSAL, GOVERNANCE, 7, true, VOTER) == Ok(SIGNED)
  {
    assert OwnerSigned(FILLED, 0) == OPENED;
    assert SignOff(INSERTED, PROPOSAL, GOVERNANCE, 7, true, VOTER).value == SIGNED;
  }

  lemma SixtyPercent()
    ensures MinVoteThresholdWeight(YesVotePercentage(60), 100) == Ok(60)
  {
  }

  lemma ValidVote()
    ensures AssertValidVote(OPENED, VOTE) == Pass
  {
    var choices := VOTE.choices;
    assert choices[..1] == [VoteChoice(0, 100)] && choices[..2] == choices;
    assert Chosen(choices[..1]) == 1;
    assert ChoicesVerdict(TWO_CHOICES, choices, 2) == Pass;
    assert ChoicesVerdict(TWO_CHOICES, choices, 1) == Pass;
  }

  lemma FirstGetsAll()
    ensures AddVote(OPENED, VOTE, 100) == Ok(VOTED)
  {
    var (before, after, choices) := (OPENED.options, VOTED.options, VOTE.choices);
    assert before[0 := before[0].(voteWeight := 100)] == after;
    assert after[1 := after[1].(voteWeight := 0)] == after;
    assert ChoiceWeight(choices[0], 100) == Ok(100) && ChoiceWeight(choices[1], 100) == Ok(0);
    assert AddChoices(after, choices, 100, 2) == Ok(after);
    assert AddChoices(after, choices, 100, 1) == AddChoices(after, choices, 100, 2);
    assert AddChoices(before, choices, 100, 0) == AddChoices(after, choices, 100, 1);
  }

  const BALLOT: Ballot := Ballot(Governance(CONFIG, 0, 1), TokenOwnerRecord(100, 1, 1, None), 100, VOTED, None)

  lemma VoterIsEligible()
    ensures Eligible(SIGNED, PROPOSAL, GOVERNANCE, VOTER, Some(7), VOTE)
         == Ok(Eligibility(SIGNED.governances[GOVERNANCE], OPENED, SIGNED.records[VOTER]))
  {
    hide AssertCanCastVote, ProposalMintForVote;
    VotesForOwnMint();
    VotingIsOpen();
  }

  lemma VotesForOwnMint()
    ensures ProposalMintForVote(REALM, MINT, KindOf(VOTE)) == Ok(MINT)
  {
  }

  lemma VotingIsOpen()
    ensures AssertCanCastVote(OPENED, CONFIG, VOTE, 0) == Pass
  {
  }

  lemma VoteIsCounted()
    ensures Count(SIGNED, PROPOSAL, GOVERNANCE, VOTER, Some(7), VOTE, None, FullSupply(100)) == Ok(BALLOT)
  {
    hide AssertValidVote, AddVote, Eligible, MinVoteThresholdWeight;
    VoterIsEligible();
    ValidVote();
    FirstGetsAll();
    SixtyPercent();
  }

  lemma Counted()
    ensures CastVote(SIGNED, PROPOSAL, GOVERNANCE, VOTER, VOTER, Some(7), VOTE, None, FullSupply(100)) == Ok(COUNTED)
  {
    hide Count;
    VoteIsCounted();
    assert Voted(SIGNED, PROPOSAL, VOTER, VOTE, BALLOT) == COUNTED;
  }

  lemma FirstPasses()
    ensures FinalVerdict(TWO_CHOICES, VOTED.options, 60, 0) == ([OptionSucceeded, OptionDefeated], Succeeded)
  {
    var options := VOTED.options;
    assert options[..1] == [options[0]] && options[..1][..0] == [];
    assert Best([], 60, 0) == 0;
    assert Best(options[..1], 60, 0) == 100;
    assert Best(options, 60, 0) == 100;
    assert FinalVerdict(TWO_CHOICES, options, 60, 0).0 == [OptionSucceeded, OptionDefeated];
  }

  lemma ResultsWritten()
    ensures WithResults(VOTED.options, [OptionSucceeded, OptionDefeated]) == DECIDED.options
  {
  }

  lemma VotingIsOver()
    ensures AssertCanFinalizeVote(VOTED, CONFIG, 11) == Pass && VotingMaxTimeEnd(VOTED, CONFIG) == 10
  {
  }

  lemma FinalizedWith(p: Proposal, max: nat, config: GovernanceConfig, now: int, threshold: VoteThreshold, min: nat,
      results: seq<OptionVoteResult>, verdict: ProposalState)
    requires AssertCanFinalizeVote(p, config, now) == Pass && MinVoteThresholdWeight(threshold, max) == Ok(min)
    requires p.denyVoteWeight == Some(0) && |results| == |p.options|
    requires FinalVerdict(p.voteType, p.options, min, 0) == (results, verdict)
    ensures FinalizedVote(p, max, config, now, threshold) == Ok(p.(
      state := verdict, options := WithResults(p.options, results),
          votingCompletedAt := Some(VotingMaxTimeEnd(p, config))))
  {
    hide MinVoteThresholdWeight, FinalVerdict, WithResults, VotingMaxTimeEnd;
  }

  lemma Decided()
    ensures FinalizedVote(VOTED, 100, CONFIG, 11, YesVotePercentage(60)) == Ok(DECIDED)
  {
    hide MinVoteThresholdWeight, FinalVerdict, WithResults, FinalizedVote, AssertCanFinalizeVote, VotingMaxTimeEnd;
    FirstPasses();
    VotingIsOver();
    ResultsWritten();
    SixtyPercent();
    FinalizedWith(VOTED, 100, CONFIG, 11, YesVotePercentage(60), 60, [OptionSucceeded, OptionDefeated], Succeeded);
  }

  lemma Finalized()
    ensures FinalizeVote(EXPIRED, PROPOSAL, GOVERNANCE, VOTER, MINT, FullSupply(100)) == Ok(FINAL)
  {
    hide FinalizedVote;
    Decided();
    assert FinalizeVote(EXPIRED, PROPOSAL, GOVERNANCE, VOTER, MINT, FullSupply(100)).value == FINAL;
  }

  lemma {:induction false} RunOnce(s: State, instructions: seq<Instruction>, ix: Instruction, before: State,
      after: State)
    requires Run(s, instructions) == before && Apply(before, ix) == Ok(after)
    ensures Run(s, instructions + [ix]) == after
  {
    hide Apply;
    assert (instructions + [ix])[..|instructions|] == instructions;
  }

  lemma RunNone(s: State)
    ensures Run(s, []) == s
  {
  }

  const OPENING: seq<Instruction> := [DEPOSIT, GOVERN, PROPOSE]

  lemma RunToDraft(start: State)
    requires start == EmptyState(REALM, 0)
    ensures Run(start, OPENING) == PROPOSED
  {
    hide CreateTokenOwnerRecord, DepositTokens, WithdrawTokens, RevokeTokens, SetDelegate, CreateGovernance,
         SetGovernanceConfig, AddRequiredSignatory, RemoveRequiredSignatory, CreateProposal, AddSignatory, SignOff,
         InsertTransaction, RemoveTransaction, CancelProposal, CastVote, RelinquishVote, FinalizeVote,
         ExecuteTransaction, CompleteProposal, RefundDeposit, Run, EmptyState, GOVERNED, DEPOSITED, PROPOSED;
    Deposited();
    Governed();
    Proposed();
    RunNone(start);
    RunOnce(start, [], DEPOSIT, start, DEPOSITED);
    RunOnce(start, [] + [DEPOSIT], GOVERN, DEPOSITED, GOVERNED);
    RunOnce(start, [] + [DEPOSIT] + [GOVERN], PROPOSE, GOVERNED, PROPOSED);
    assert [] + [DEPOSIT] + [GOVERN] + [PROPOSE] == OPENING;
  }

  // ---- A proposal that can never complete ---------------------------------------------------------------

  const STUCK_RUN: seq<Instruction> := [DEPOSIT, GOVERN, PROPOSE, INSERT, SIGN, CAST, WAIT, FINALIZE]

  lemma RunToVoting(start: State)
    requires start == EmptyState(REALM, 0)
    ensures Run(start, OPENING + [INSERT] + [SIGN]) == SIGNED
  {
    hide CreateTokenOwnerRecord, DepositTokens, WithdrawTokens, RevokeTokens, SetDelegate, CreateGovernance,
         SetGovernanceConfig, AddRequiredSignatory, RemoveRequiredSignatory, CreateProposal, AddSignatory, SignOff,
         InsertTransaction, RemoveTransaction, CancelProposal, CastVote, RelinquishVote, FinalizeVote,
         ExecuteTransaction, CompleteProposal, RefundDeposit, Run, EmptyState, PROPOSED, INSERTED, SIGNED;
    RunToDraft(start);
    Inserted();
    Signed();
    RunOnce(start, OPENING, INSERT, PROPOSED, INSERTED);
    RunOnce(start, OPENING + [INSERT], SIGN, INSERTED, SIGNED);
  }

  lemma Waited()
    ensures Apply(COUNTED, WAIT) == Ok(EXPIRED)
  {
  }

  lemma StuckDecision()
    ensures PROPOSAL in FINAL.proposals && Stuck(FINAL.proposals[PROPOSAL])
  {
    assert DECIDED.options[1] in DECIDED.options;
  }

  /** The program itself can get a proposal stuck: created, voted on and finalized with every guard passed. */
  lemma StuckIsReachable()
    ensures var s := Run(EmptyState(REALM, 0), STUCK_RUN);
            PROPOSAL in s.proposals && Stuck(s.proposals[PROPOSAL])
  {
    hide CreateTokenOwnerRecord, DepositTokens, WithdrawTokens, RevokeTokens, SetDelegate, CreateGovernance,
         SetGovernanceConfig, AddRequiredSignatory, RemoveRequiredSignatory, CreateProposal, AddSignatory, SignOff,
         InsertTransaction, RemoveTransaction, CancelProposal, CastVote, RelinquishVote, FinalizeVote,
         ExecuteTransaction, CompleteProposal, RefundDeposit, Run, EmptyState, Stuck, SIGNED, COUNTED, EXPIRED, FINAL;
    var start := EmptyState(REALM, 0);
    RunToVoting(start);
    Counted();
    Waited();
    Finalized();
    StuckDecision();
    var drafting := OPENING + [INSERT] + [SIGN];
    RunOnce(start, drafting, CAST, SIGNED, COUNTED);
    RunOnce(start, drafting + [CAST], WAIT, COUNTED, EXPIRED);
    RunOnce(start, drafting + [CAST] + [WAIT], FINALIZE, EXPIRED, FINAL);
    assert drafting + [CAST] + [WAIT] + [FINALIZE] == STUCK_RUN;
  }

  // ---- A required signatory that can be missed ----------------------------------------------------------

  const NAME: Instruction := AddSignatoryIx(PROPOSAL, GOVERNANCE, 7, VOTER, Some(7))
  const REQUIRE: Instruction := AddRequiredIx(GOVERNANCE, 8, true)
  const LATE_RUN: seq<Instruction> := [DEPOSIT, GOVERN, PROPOSE, NAME, REQUIRE]

  const NAMED: State := PROPOSED.(
    proposals := map[PROPOSAL := DRAFTED.(signatoriesCount := 1)],
    signatories := map[SignatoryKey(PROPOSAL, 7) := SignatoryRecord(false)])
  const LATE: State := NAMED.(
    governances := map[GOVERNANCE := Governance(CONFIG, 1, 1)],
    required := map[RequiredKey(GOVERNANCE, 8) := RequiredSignatory(8)])

  lemma Named()
    ensures AddSignatory(PROPOSED, PROPOSAL, GOVERNANCE, 7, VOTER, Some(7)) == Ok(NAMED)
  {
    assert AddSignatory(PROPOSED, PROPOSAL, GOVERNANCE, 7, VOTER, Some(7)).value == NAMED;
  }

  lemma Required()
    ensures AddRequiredSignatory(NAMED, GOVERNANCE, 8, true) == Ok(LATE)
  {
    assert AddRequiredSignatory(NAMED, GOVERNANCE, 8, true).value == LATE;
  }

  lemma OrderIsLost()
    ensures PROPOSAL in LATE.proposals && LATE.proposals[PROPOSAL].state == Draft && !RequiredKept(LATE, PROPOSAL)
  {
    assert 7 in PresentAt(LATE, PROPOSAL) && 7 !in RequiredFor(LATE, PROPOSAL) by {
      assert SignatoryKey(PROPOSAL, 7) in LATE.signatories;
    }
    assert 8 in RequiredFor(LATE, PROPOSAL) && 8 !in PresentAt(LATE, PROPOSAL) by {
      assert RequiredKey(GOVERNANCE, 8) in LATE.required;
    }
  }

  lemma RunToLate(start: State)
    requires start == EmptyState(REALM, 0)
    ensures Run(start, LATE_RUN) == LATE
  {
    hide CreateTokenOwnerRecord, DepositTokens, WithdrawTokens, RevokeTokens, SetDelegate, CreateGovernance,
         SetGovernanceConfig, AddRequiredSignatory, RemoveRequiredSignatory, CreateProposal, AddSignatory, SignOff,
         InsertTransaction, RemoveTransaction, CancelProposal, CastVote, RelinquishVote, FinalizeVote,
         ExecuteTransaction, CompleteProposal, RefundDeposit, Run, EmptyState, PROPOSED, NAMED, LATE;
    RunToDraft(start);
    Named();
    Required();
    RunOnce(start, OPENING, NAME, PROPOSED, NAMED);
    RunOnce(start, OPENING + [NAME], REQUIRE, NAMED, LATE);
    assert OPENING + [NAME] + [REQUIRE] == LATE_RUN;
  }

  lemma LateCanMiss(instructions: seq<Instruction>)
    requires Run(EmptyState(REALM, 0), instructions) == LATE
    ensures exists run :: Misses(LATE, run, PROPOSAL)
  {
    hide Run, EmptyState, RequiredKept, Invariant, Misses, LATE;
    OrderIsLost();
    ReachableInvariant(REALM, 0, instructions);
    assert Signing(LATE, PROPOSAL);
    RequiredCanBeMissed(LATE, PROPOSAL);
  }

  /** A signatory required after the proposal has named its own can be left out when voting starts. */
  lemma MissedIsReachable()
    ensures exists run :: Misses(Run(EmptyState(REALM, 0), LATE_RUN), run, PROPOSAL)
  {
    hide Run, EmptyState, Misses, LATE;
    RunToLate(EmptyState(REALM, 0));
    LateCanMiss(LATE_RUN);
  }

  // ---- The same by dropping a requirement ---------------------------------------------------------------

  const REQUIRE_FIRST: Instruction := AddRequiredIx(GOVERNANCE, 7, true)
  const DROP: Instruction := RemoveRequiredIx(GOVERNANCE, 7, true)
  const DROP_RUN: seq<Instruction> := [DEPOSIT, GOVERN, PROPOSE, REQUIRE_FIRST, REQUIRE, NAME, DROP]

  const BOTH: map<RequiredKey, RequiredSignatory> :=
    map[RequiredKey(GOVERNANCE, 7) := RequiredSignatory(7), RequiredKey(GOVERNANCE, 8) := RequiredSignatory(8)]
  const ONE_REQUIRED: State := PROPOSED.(
    governances := map[GOVERNANCE := Governance(CONFIG, 1, 1)],
    required := map[RequiredKey(GOVERNANCE, 7) := RequiredSignatory(7)])
  const TWO_REQUIRED: State := PROPOSED.(
    governances := map[GOVERNANCE := Governance(CONFIG, 2, 1)],
    required := BOTH)
  const FIRST_NAMED: State := NAMED.(
    governances := map[GOVERNANCE := Governance(CONFIG, 2, 1)],
    required := BOTH)

  lemma BothRequired()
    ensures AddRequiredSignatory(PROPOSED, GOVERNANCE, 7, true) == Ok(ONE_REQUIRED)
    ensures AddRequiredSignatory(ONE_REQUIRED, GOVERNANCE, 8, true) == Ok(TWO_REQUIRED)
  {
    assert AddRequiredSignatory(PROPOSED, GOVERNANCE, 7, true).value == ONE_REQUIRED;
    assert AddRequiredSignatory(ONE_REQUIRED, GOVERNANCE, 8, true).value == TWO_REQUIRED;
  }

  lemma FirstNamed()
    ensures AddSignatory(TWO_REQUIRED, PROPOSAL, GOVERNANCE, 7, VOTER, Some(7)) == Ok(FIRST_NAMED)
  {
    assert AddSignatory(TWO_REQUIRED, PROPOSAL, GOVERNANCE, 7, VOTER, Some(7)).value == FIRST_NAMED;
  }

  lemma Dropped()
    ensures RemoveRequiredSignatory(FIRST_NAMED, GOVERNANCE, 7, true) == Ok(LATE)
  {
    assert BOTH - {RequiredKey(GOVERNANCE, 7)} == LATE.required;
    assert RemoveRequiredSignatory(FIRST_NAMED, GOVERNANCE, 7, true).value == LATE;
  }

  lemma RunToDropped(start: State)
    requires start == EmptyState(REALM, 0)
    ensures Run(start, DROP_RUN) == LATE
  {
    hide CreateTokenOwnerRecord, DepositTokens, WithdrawTokens, RevokeTokens, SetDelegate, CreateGovernance,
         SetGovernanceConfig, AddRequiredSignatory, RemoveRequiredSignatory, CreateProposal, AddSignatory, SignOff,
         InsertTransaction, RemoveTransaction, CancelProposal, CastVote, RelinquishVote, FinalizeVote,
         ExecuteTransaction, CompleteProposal, RefundDeposit, Run, EmptyState, PROPOSED, LATE, ONE_REQUIRED,
         TWO_REQUIRED, FIRST_NAMED;
    RunToDraft(start);
    BothRequired();
    FirstNamed();
    Dropped();
    RunOnce(start, OPENING, REQUIRE_FIRST, PROPOSED, ONE_REQUIRED);
    RunOnce(start, OPENING + [REQUIRE_FIRST], REQUIRE, ONE_REQUIRED, TWO_REQUIRED);
    RunOnce(start, OPENING + [REQUIRE_FIRST] + [REQUIRE], NAME, TWO_REQUIRED, FIRST_NAMED);
    RunOnce(start, OPENING + [REQUIRE_FIRST] + [REQUIRE] + [NAME], DROP, FIRST_NAMED, LATE);
    assert OPENING + [REQUIRE_FIRST] + [REQUIRE] + [NAME] + [DROP] == DROP_RUN;
  }

  /** With two signatories required and one named, dropping the named one's requirement lets the other be left out. */
  lemma DroppedIsReachable()
    ensures exists run :: Misses(Run(EmptyState(REALM, 0), DROP_RUN), run, PROPOSAL)
  {
    hide Run, EmptyState, Misses, LATE;
    RunToDropped(EmptyState(REALM, 0));
    LateCanMiss(DROP_RUN);
  }
}
