/** Holding accounts against the deposits recorded for them. */
module GovernanceTokens {
  import opened Outcomes
  import opened Aggregates
  import opened GovernanceState
  import opened GovernanceSteps
  import opened GovernanceFrames
  import opened VoteResolution

  function DepositIn(mint: Pubkey, key: TokenOwnerKey, r: TokenOwnerRecord): nat {
    if key.mint == mint then r.depositAmount else 0
  }

  function DepositsIn(mint: Pubkey): (TokenOwnerKey, TokenOwnerRecord) -> nat {
    (key, r) => DepositIn(mint, key, r)
  }

  ghost function DepositSum(records: map<TokenOwnerKey, TokenOwnerRecord>, mint: Pubkey): nat {
    Sum(records, DepositsIn(mint))
  }

  /** What the holding account has beyond the recorded deposits. */
  ghost function Surplus(s: State, mint: Pubkey): int {
    HoldingOf(s, mint) - DepositSum(s.records, mint)
  }

  /** Tokens left in the holding account without a deposit: transfers from outside, and withdrawals back into it. */
  function Gift(s: State, ix: Instruction, mint: Pubkey): nat {
    match ix
    case OutsideTransfer(m, amount) => if m == mint then amount else 0
    case WithdrawIx(key, _, _, toHolding) => if key.mint
        == mint && toHolding && key in s.records then s.records[key].depositAmount else 0
    case _ => 0
  }

  lemma DepositWrite(records: map<TokenOwnerKey, TokenOwnerRecord>, key: TokenOwnerKey, r: TokenOwnerRecord,
      mint: Pubkey)
    ensures DepositSum(records[key := r], mint)
        == DepositSum(records, mint) + if key.mint == mint then r.depositAmount - DepositAt(records, key) else 0
  {
    SumWrite(records, key, r, DepositsIn(mint));
  }

  lemma TokenInstructionSurplus(s: State, ix: Instruction, s': State, mint: Pubkey)
    requires Apply(s, ix) == Ok(s')
    requires ix.CreateTokenOwnerRecordIx? || ix.DepositIx? || ix.WithdrawIx? || ix.RevokeIx? || ix.SetDelegateIx?
    ensures Surplus(s', mint) == Surplus(s, mint) + Gift(s, ix, mint)
  {
    hide DepositSum, CastVote, RelinquishVote, SignOff, FinalizeVote, ExecuteTransaction, CompleteProposal,
         RefundDeposit,
         CreateProposal, AddSignatory, InsertTransaction, RemoveTransaction, CancelProposal,
         CreateGovernance, SetGovernanceConfig, AddRequiredSignatory, RemoveRequiredSignatory;
    DepositWrite(s.records, ix.key, s'.records[ix.key], mint);
  }

  /** Recorded deposits change in the token instructions only, and the surplus only by gifts. */
  lemma SurplusChange(s: State, ix: Instruction, s': State, mint: Pubkey)
    requires Apply(s, ix) == Ok(s')
    ensures Surplus(s', mint) == Surplus(s, mint) + Gift(s, ix, mint)
  {
    hide CastVote, RelinquishVote, SignOff, FinalizeVote, ExecuteTransaction, CompleteProposal, RefundDeposit,
         CreateProposal, AddSignatory, InsertTransaction, RemoveTransaction, CancelProposal,
         CreateTokenOwnerRecord, DepositTokens, WithdrawTokens, RevokeTokens, SetDelegate,
         CreateGovernance, SetGovernanceConfig, AddRequiredSignatory, RemoveRequiredSignatory;
    if IsTokenInstruction(ix) {
      TokenInstructionSurplus(s, ix, s', mint);
    } else {
      Frames(s, ix, s');
      FieldFrames(s, ix, s');
      DepositsKeptSum(ix, s.records, s'.records, mint);
    }
  }

  lemma DepositsKeptSum(ix: Instruction, records: map<TokenOwnerKey, TokenOwnerRecord>,
      records': map<TokenOwnerKey, TokenOwnerRecord>, mint: Pubkey)
    requires FieldsFramed(ix, records, records') && !IsTokenInstruction(ix)
    ensures DepositSum(records', mint) == DepositSum(records, mint)
  {
    forall key | key in records
      ensures DepositIn(mint, key, records[key]) == DepositIn(mint, key, records'[key])
    {
      assert DepositAt(records', key) == DepositAt(records, key);
    }
    SumCongruent(records, records', DepositsIn(mint), DepositsIn(mint));
  }
}
