/** A run from the empty realm to a deposit that a removed council locks for good. */
module GovernanceStranding {
  import opened Outcomes
  import opened GovernanceState
  import opened GovernanceSteps
  import opened GovernanceRuns
  import opened GovernanceGuarantees
  import opened GovernanceRecovery
  import opened GovernanceWitness
  import opened VoteResolution

  const COUNCIL: Pubkey := 5
  const TWO_HOUSES: Realm := Realm(MINT, Some(COUNCIL), Liquid, Liquid)

  /** Both populations vote, and the community may veto the council. */
  const VETO_CONFIG: GovernanceConfig := GovernanceConfig(
    YesVotePercentage(60), 0, 0, 10, NeverTip,
    YesVotePercentage(60), Disabled, 0, NeverTip, YesVotePercentage(60), 0, 10)

  const GOVERN_BOTH: Instruction := CreateGovernanceIx(GOVERNANCE, VETO_CONFIG)
  const PROPOSE_COUNCIL: Instruction :=
    CreateProposalIx(PROPOSAL, GOVERNANCE, COUNCIL, VOTER, Some(7), 7, None, ["accept"], SingleChoice, true)
  const VETO: Instruction := CastVoteIx(PROPOSAL, GOVERNANCE, VOTER, VOTER, Some(7), Veto, None, FullSupply(1000))
  const REMOVE_COUNCIL: Instruction := SetRealmConfigIx(true, None, Liquid, Liquid)
  const VETO_RUN: seq<Instruction> := [DEPOSIT, GOVERN_BOTH, PROPOSE_COUNCIL, SIGN, VETO, REMOVE_COUNCIL]

  function CouncilProposal(state: ProposalState, veto: nat, votingAt: Option<int>): Proposal {
    Proposal(GOVERNANCE, COUNCIL, state, VOTER, 0, 0, SingleChoice, [Choice("accept", 0, NoResult, 0)], Some(0), veto,
             0, votingAt, votingAt, None, None, None)
  }

  function House(votes: nat, active: nat, proposals: map<Pubkey, Proposal>): State {
    EmptyState(TWO_HOUSES, 0).(
      holdings := map[MINT := 100],
      records := map[VOTER := TokenOwnerRecord(100, votes, active, None)],
      governances := map[GOVERNANCE := Governance(VETO_CONFIG, 0, active)],
      proposals := proposals)
  }

  const HELD: State := HOUSED.(governances := map[])
  const HOUSED: State := House(0, 0, map[])
  const PENDING: State := House(0, 1, map[PROPOSAL := CouncilProposal(Draft, 0, None)])
  const VOTING: State := House(0, 1, map[PROPOSAL := CouncilProposal(Voting, 0, Some(0))])
  const VETOED: State := House(1, 1, map[PROPOSAL := CouncilProposal(Voting, 100, Some(0))]).(
    votes := map[VoteKey(PROPOSAL, VOTER) := VoteRecord(100, Veto, false)])
  const STRANDED: State := VETOED.(realm := Realm(MINT, None, Liquid, Liquid))

  lemma DepositMade()
    ensures DepositTokens(EmptyState(TWO_HOUSES, 0), VOTER, 100, true, true) == Ok(HELD)
  {
    assert DepositTokens(EmptyState(TWO_HOUSES, 0), VOTER, 100, true, true).value == HELD;
  }

  lemma BothGoverned()
    ensures CreateGovernance(HELD, GOVERNANCE, VETO_CONFIG) == Ok(HOUSED)
  {
    assert CreateGovernance(HELD, GOVERNANCE, VETO_CONFIG).value == HOUSED;
  }

  lemma CouncilMayBeAsked()
    ensures MayCreate(HOUSED, PROPOSAL, GOVERNANCE, COUNCIL, VOTER, Some(7), None, ["accept"], SingleChoice)
         == Ok((HOUSED.governances[GOVERNANCE], HOUSED.records[VOTER]))
  {
  }

  lemma CouncilDraft()
    ensures NewProposal(GOVERNANCE, COUNCIL, VOTER, ["accept"], SingleChoice, true, 0)
         == CouncilProposal(Draft, 0, None)
  {
  }

  lemma CouncilOpens(governance: Governance, record: TokenOwnerRecord)
    requires governance == HOUSED.governances[GOVERNANCE] && record == HOUSED.records[VOTER]
    ensures OpenProposal(HOUSED, PROPOSAL, CouncilProposal(Draft, 0, None), 7, governance, record) == Ok(PENDING)
  {
    assert OpenProposal(HOUSED, PROPOSAL, CouncilProposal(Draft, 0, None), 7, governance, record).value == PENDING;
  }

  lemma CouncilAsked()
    ensures CreateProposal(HOUSED, PROPOSAL, GOVERNANCE, COUNCIL, VOTER, Some(7), 7, None, ["accept"], SingleChoice,
                           true) == Ok(PENDING)
  {
    hide OpenProposal, MayCreate, NewProposal;
    CouncilMayBeAsked();
    CouncilDraft();
    CouncilOpens(HOUSED.governances[GOVERNANCE], HOUSED.records[VOTER]);
  }

  lemma CouncilSigned()
    ensures SignOff(PENDING, PROPOSAL, GOVERNANCE, 7, true, VOTER) == Ok(VOTING)
  {
    assert OwnerSigned(CouncilProposal(Draft, 0, None), 0) == CouncilProposal(Voting, 0, Some(0));
    assert SignOff(PENDING, PROPOSAL, GOVERNANCE, 7, true, VOTER).value == VOTING;
  }

  lemma MayVeto()
    ensures Eligible(VOTING, PROPOSAL, GOVERNANCE, VOTER, Some(7), Veto)
         == Ok(Eligibility(VOTING.governances[GOVERNANCE], VOTING.proposals[PROPOSAL], VOTING.records[VOTER]))
  {
  }

  lemma SixHundred()
    ensures MinVoteThresholdWeight(YesVotePercentage(60), 1000) == Ok(600)
  {
  }

  const VETO_BALLOT: Ballot := Ballot(
    Governance(VETO_CONFIG, 0, 1), TokenOwnerRecord(100, 1, 1, None), 100, CouncilProposal(Voting, 100, Some(0)), None)

  lemma VetoCounted()
    ensures Count(VOTING, PROPOSAL, GOVERNANCE, VOTER, Some(7), Veto, None, FullSupply(1000)) == Ok(VETO_BALLOT)
  {
    hide Eligible, MinVoteThresholdWeight;
    MayVeto();
    SixHundred();
  }

  lemma VetoCast()
    ensures CastVote(VOTING, PROPOSAL, GOVERNANCE, VOTER, VOTER, Some(7), Veto, None, FullSupply(1000)) == Ok(VETOED)
  {
    hide Count;
    VetoCounted();
    assert Voted(VOTING, PROPOSAL, VOTER, Veto, VETO_BALLOT) == VETOED;
  }

  lemma CouncilRemoved()
    ensures SetRealmConfig(VETOED, true, None, Liquid, Liquid) == Ok(STRANDED)
  {
  }

  lemma RunToStranded(start: State)
    requires start == EmptyState(TWO_HOUSES, 0)
    ensures Run(start, VETO_RUN) == STRANDED
  {
    hide CreateTokenOwnerRecord, DepositTokens, WithdrawTokens, RevokeTokens, SetDelegate, SetRealmConfig,
         CreateGovernance, SetGovernanceConfig, AddRequiredSignatory, RemoveRequiredSignatory, CreateProposal,
         AddSignatory, SignOff, InsertTransaction, RemoveTransaction, CancelProposal, CastVote, RelinquishVote,
         FinalizeVote, ExecuteTransaction, CompleteProposal, RefundDeposit, Run, EmptyState, HELD, HOUSED, PENDING,
         VOTING, VETOED, STRANDED;
    DepositMade();
    BothGoverned();
    CouncilAsked();
    CouncilSigned();
    VetoCast();
    CouncilRemoved();
    RunNone(start);
    RunOnce(start, [], DEPOSIT, start, HELD);
    RunOnce(start, [] + [DEPOSIT], GOVERN_BOTH, HELD, HOUSED);
    var opening := [] + [DEPOSIT] + [GOVERN_BOTH];
    RunOnce(start, opening, PROPOSE_COUNCIL, HOUSED, PENDING);
    RunOnce(start, opening + [PROPOSE_COUNCIL], SIGN, PENDING, VOTING);
    RunOnce(start, opening + [PROPOSE_COUNCIL] + [SIGN], VETO, VOTING, VETOED);
    RunOnce(start, opening + [PROPOSE_COUNCIL] + [SIGN] + [VETO], REMOVE_COUNCIL, VETOED, STRANDED);
    assert opening + [PROPOSE_COUNCIL] + [SIGN] + [VETO] + [REMOVE_COUNCIL] == VETO_RUN;
  }

  lemma StrandedFacts()
    ensures CouncilUnwrapFails(STRANDED, PROPOSAL, GOVERNANCE, VOTER)
    ensures VOTER in STRANDED.records && STRANDED.records[VOTER].depositAmount == 100 && !Recoverable(STRANDED, VOTER)
  {
    assert Stands(STRANDED, VoteKey(PROPOSAL, VOTER));
  }

  /**
   A community holder vetoes a council proposal and the realm's authority removes the council:
   giving the vote back panics, and no run ever pays the deposit of a hundred tokens back.
   */
  lemma VetoCanBeStranded(signer: Option<Pubkey>)
    ensures var s := Run(EmptyState(TWO_HOUSES, 0), VETO_RUN);
            && VOTER in s.records && s.records[VOTER].depositAmount == 100
            && RelinquishVote(s, PROPOSAL, GOVERNANCE, VOTER, signer) == Err(Panicked)
            && forall run :: !Recovers(s, run, VOTER)
  {
    hide Run, EmptyState, Invariant, RelinquishVote, CouncilUnwrapFails, Recoverable, Recovers, STRANDED, VETO_RUN;
    RunToStranded(EmptyState(TWO_HOUSES, 0));
    StrandedFacts();
    ReachableInvariant(TWO_HOUSES, 0, VETO_RUN);
    RelinquishPanicsExactly(STRANDED, PROPOSAL, GOVERNANCE, VOTER, signer);
    DepositRecoverable(STRANDED, VOTER);
  }
}
