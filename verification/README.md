# Folio mathematics and governance, verified

This project models two parts of the repository in Dafny and proves what they are relied on for.

**Fixed-point decimals** (`shared/src/utils/math_util.rs`). A `Decimal` is an unsigned 256-bit integer
scaled by 1e18; every operation is checked and every division rounds down. `pow`, `nth_root`, `exp` and
`ln` are loops over that arithmetic. The modules `DecimalPow`, `DecimalRoot`, `DecimalExp` and
`DecimalLn` prove each loop equal to a recursive function, and prove about that function what a caller
needs: error bounds in units of 1e-18 against the exact power, root or Taylor sum, monotonicity in spite
of rounding, and exactly which arguments `nth_root` and `ln` reject.

**The governance protocol** (`governance/program/src`). `GovernanceState` holds the accounts of one
realm as maps keyed by the seeds of their addresses. `GovernanceSteps` gives every instruction as a
function from the accounts before to the accounts after, or the error; `GovernanceProgram` holds the
handlers as they run, a class whose methods update the account maps in place, each proved equal to its
step, behind a dispatcher that requires and keeps the invariant. Most handlers are straight-line and
stand in the table below only through that dispatcher. A run is a list of instructions, clock advances
and token transfers from outside, in any order, with any arguments, successful or not. `GovernanceRuns`
proves one invariant of every reachable state; `GovernanceGuarantees` and `GovernanceOutcomes` say what
it means for voters and owners. Four modules give exact conditions for what can still happen:
`GovernanceRecovery` which deposits can be got back, `GovernanceDecision` which proposals can be
decided, `GovernanceCompletion` which approved ones can be completed, and `GovernanceRequired` which
required signatories can be missed. `GovernanceWitness` and `GovernanceStranding` give the runs from the
empty realm that reach the bad cases. `VoteResolution` covers tipping and the final count.

**The transaction account layout** (`governance/program/src/state/proposal_transaction.rs`).
`BorshLayout` encodes and decodes the nested vectors of a proposal transaction as the Borsh
specification (borsh.io) lays them out, with the V1 translation and the account's size.

## Findings

Where the code does not do what its documentation or a reader would expect, the model follows the code:

- The series branch of `nth_root` subtracts all three terms, with x = 1 - self; `README.md` line 71
  alternates the signs (`shared/src/utils/math_util.rs` lines 334-390). Above n = 1,000,000 the root
  succeeds exactly for values up to 1 and n below 2^32: a larger value makes the unsigned 1 - self fail, a
  larger n leaves the 64-bit n^2 (`DecimalRoot.SeriesDomain`).
- The search of `nth_root` never fails up to 1. Above 1 it fails exactly when its first probe that is not
  below the value overflows (`DecimalRoot.NthRootSearch`); for values above 4 that is the first probe, half
  the value (`DecimalRoot.FirstProbeDecides`), so none of them has a 257th or higher root
  (`DecimalRoot.HighRootsFail`).
- `ln` fails for every argument strictly between 0 and 1 (`DecimalLn.LnBelowOneErrs`).
- `to_scaled` with rounding up adds a unit to values that need no rounding
  (`DecimalRounding.ScaledCeilingIsExactOnWholes`).
- Early tipping can declare a success that further votes would have turned into a defeat. Nothing changes
  the tallies of a tipped proposal any more (`GovernanceOutcomes.DecidedIsFrozen`); the question is whether
  the final count would have agreed, had voting gone on. It would have, for all larger tallies within the
  maximum weight, if and only if the tip is a defeat or the approving votes are more than half of the
  maximum weight; strict tipping demands that, early tipping does not (`VoteResolution.TipIsFinal`,
  `VoteResolution.EarlyTippingCanBePremature`).
- A tie of a single-choice vote at the largest u64 leaves winning options in a defeated proposal
  (`VoteResolution.DefeatedSingleChoiceWinners`, with an input in `VoteResolution.DefeatedWithTwoWinners`).
- Removing the council from a realm strands votes and deposits. Giving a vote back panics on the missing
  council mint if and only if the vote is a veto of a community holder
  (`GovernanceGuarantees.RelinquishPanicsExactly`); votes cast with the council mint are refused. A deposit
  can be got back by some run if and only if its mint is in the realm and no veto of its holder stands
  against a removed council (`GovernanceRecovery.DepositRecoverable`);
  `GovernanceStranding.VetoCanBeStranded` is a run from the empty realm that locks a deposit for good.
  `governance/program/src/processor/process_set_realm_config.rs` lines 68-69 mention the council's own
  deposits only.
- After its voting time a proposal whose mint has no enabled threshold can be neither finalized, cancelled
  nor left by its voters until its governance is configured again (`GovernanceDecision.UnsettledOverRuns`,
  `GovernanceDecision.DecidedAsConfigured`). With configuration changes allowed, a proposal in voting can be
  decided if and only if its population is still in the realm (`GovernanceDecision.DecidableWhileInRealm`).
- A succeeded proposal whose winning options have no transactions while another option has some can neither
  execute nor complete, ever (`GovernanceCompletion.StuckForever`). Every other succeeded or executing
  proposal can be completed (`GovernanceCompletion.CompletableUnlessStuck`), and the program gets into the
  bad case with nothing but valid instructions (`GovernanceWitness.StuckIsReachable`).
- Changing the set of required signatories can let a proposal enter voting without a required one: by
  requiring a signatory after others have been named, and also by dropping a requirement, which leaves its
  signatory filling the place of another. `GovernanceSignatories.RequiredKeptStep` gives the exact condition
  on a change, `GovernanceRequired.RequiredCanBeMissed` the exact condition on a proposal, and
  `GovernanceWitness.MissedIsReachable` and `GovernanceWitness.DroppedIsReachable` a run from the empty
  realm for each of the two ways.
- Voter weights beyond the deposit, from a plugin or left over after a revocation, are exactly what breaks
  the cover of votes by deposits (`GovernanceCoverage.BackedStep`).
- A withdrawal back into the holding account clears the deposit and leaves the tokens, which is why
  conservation counts such gifts (`GovernanceRuns.SurplusOverRuns`).

## Model

| member | source | states |
|---|---|---|
| DecimalPow.Pow | shared/src/utils/math_util.rs:251-279 | the square-and-multiply loop with its early returns computes `PowOf`, including every overflow |
| DecimalPow.PowWithinUnits | shared/src/utils/math_util.rs:251-279 | for a base up to 1 and any exponent n of at least 1 there is no error, and the result is never above the exact power and at most n - 1 units below it |
| DecimalPow.PowNeverExceeds | shared/src/utils/math_util.rs:251-279 | for any base a successful result is at most the exact power |
| DecimalPow.PowMonotoneInBase | shared/src/utils/math_util.rs:251-279 | a smaller base succeeds whenever a larger one does and gives no larger result |
| DecimalPow.PowNonIncreasing | shared/src/utils/math_util.rs:262-276 | up to base 1, a larger exponent never gives a larger result, although the roundings depend on its bits |
| DecimalPow.PowNonDecreasing | shared/src/utils/math_util.rs:262-276 | from base 1 up, a larger exponent never gives a smaller result nor succeeds where a smaller one fails |
| DecimalPow.CarryBelowOne | shared/src/utils/math_util.rs:262-276 | the step from n to n + 1 across a binary carry, for any accumulator not below the current base |
| DecimalPow.CarryAboveOne | shared/src/utils/math_util.rs:262-276 | the same carry above one, where an overflow for n is one for n + 1 |
| DecimalRoot.IteratedPower | shared/src/utils/math_util.rs:404-408 | the inner loop multiplies the middle n times with truncation after each |
| DecimalRoot.SearchRound | shared/src/utils/math_util.rs:402-415 | whichever half is kept, the truncated power of its low end is below the target and that of its high end is not, and the width is halved |
| DecimalRoot.NthRootSearch | shared/src/utils/math_util.rs:392-417 | an early return hits the target exactly; otherwise the result is the middle of an interval that brackets the target and is at most the 15-fold halving, rounded up, of the starting one; it never fails up to 1, and fails exactly if a search that moves up from zero overflows before it reaches the target |
| DecimalRoot.FirstProbeDecides | shared/src/utils/math_util.rs:392-417 | for values above 4 and n from 2 on the search fails if and only if the n-th power of half the value overflows |
| DecimalRoot.HighRootsFail | shared/src/utils/math_util.rs:392-417 | no value above 4 has a 257th or higher root by the search |
| DecimalRoot.NthRoot | shared/src/utils/math_util.rs:326-418 | the two exact cases, then the series above n = 1,000,000, which succeeds exactly below 1 and for n below 2^32, then the search with its exact failures |
| DecimalRoot.HalvedUpIsCeiling | shared/src/utils/math_util.rs:402-415 | halving with rounding up k times is the ceiling of the width over 2^k |
| DecimalRoot.SearchEndEnclosesRoot | shared/src/utils/math_util.rs:392-417 | for targets up to 1 the final interval, at most 30517578125000 units wide, contains the exact n-th root up to n - 1 units in the power |
| DecimalRoot.SecondTermBound | shared/src/utils/math_util.rs:344-359 | the second term is computed without overflow and is at most x / 2n |
| DecimalRoot.ThirdTermBound | shared/src/utils/math_util.rs:361-382 | the third term is computed without overflow and is at most x / 6n |
| DecimalRoot.SeriesRange | shared/src/utils/math_util.rs:334-390 | for 1,000,000 < n < 2^32 the series never errs and lies between self and 1, and between 1 - 2x/n and 1 - floor(x/n) |
| DecimalRoot.SeriesOverflow | shared/src/utils/math_util.rs:334-390 | from n = 2^32 on every call of the series errs |
| DecimalRoot.SeriesDomain | shared/src/utils/math_util.rs:334-390 | above n = 1,000,000 the series succeeds if and only if the value is at most 1 and n is below 2^32 |
| DecimalRoot.SeriesMonotone | shared/src/utils/math_util.rs:334-390 | the series is monotone in the value whose root is taken |
| DecimalRoot.SearchMonotone | shared/src/utils/math_util.rs:392-417 | two searches over the same interval end in the order of their targets, early returns included |
| DecimalRoot.NthRootMonotone | shared/src/utils/math_util.rs:326-418 | up to 1 and for n below 2^32 the root never fails and is monotone in the value, across exact cases, search and series |
| DecimalExp.Exp | shared/src/utils/math_util.rs:519-551 | the loop with its early exit computes `ExpOf`, plain or negated |
| DecimalExp.EarlyExitIsExact | shared/src/utils/math_util.rs:524-537 | stopping at the first term of zero gives exactly the full 100-term sum |
| DecimalExp.ExpStrictlyIncreasing | shared/src/utils/math_util.rs:519-551 | where it succeeds `exp` is strictly increasing and at least 1 + x, and smaller arguments succeed |
| DecimalExp.ExpNegated | shared/src/utils/math_util.rs:539-550 | the negated form succeeds exactly where the plain one does, never divides by zero and is at most 1 |
| DecimalExp.ExpNegatedNonIncreasing | shared/src/utils/math_util.rs:539-550 | the negated form never increases |
| DecimalExp.ExpAccuracy | shared/src/utils/math_util.rs:519-551 | for x up to 1 there is no error, and the result is at most 200 units below the exact 100-term sum and never above it |
| DecimalLn.Ln | shared/src/utils/math_util.rs:431-504 | both normalisation loops, the arctanh loop and the final combination compute `LnOf`; the loops terminate |
| DecimalLn.SeriesExitIsExact | shared/src/utils/math_util.rs:471-485 | stopping at a vanished term loses nothing |
| DecimalLn.SeriesBelowOne | shared/src/utils/math_util.rs:462-487 | the series part of a normalised argument never errs and stays 22 units below 1 |
| DecimalLn.SeriesAccuracy | shared/src/utils/math_util.rs:462-487 | the series part is at most 600 units below twice the exact 100-term arctanh sum of its argument, never above it |
| DecimalLn.LnBelowOneErrs | shared/src/utils/math_util.rs:431-504 | every argument strictly between 0 and 1 is an overflow error |
| DecimalLn.Normalised | shared/src/utils/math_util.rs:444-460 | for arguments from 1 up the normalised value lies in [1, e) and within 2 units of x over e^power |
| DecimalLn.LnAboveOne | shared/src/utils/math_util.rs:431-504 | from 1 up `ln` succeeds exactly while x times 1e18 fits 256 bits or x is below e, and is power plus series |
| DecimalLn.LnDomain | shared/src/utils/math_util.rs:431-504 | for every argument, exactly when the result is a value, none or an error |
| DecimalLn.LnMonotone | shared/src/utils/math_util.rs:431-504 | where it succeeds `ln` is monotone, across the borders between powers of e as well |
| DecimalRounding.TokenAmountRounds | shared/src/utils/math_util.rs:129-152 | the token amount is the rounded quotient, capped at the largest u64; it fails exactly for rounding up at the end of the 256-bit range |
| DecimalRounding.TokenAmountsSurvive | shared/src/utils/math_util.rs:102-152 | a token amount turned into a decimal and back is unchanged in both rounding modes |
| DecimalRounding.ScaledCeilingIsExactOnWholes | shared/src/utils/math_util.rs:161-180 | rounding up a scaled value is exact if and only if the decimal is whole or saturates |
| VoteResolution.CheckVote | governance/program/src/state/proposal.rs:901-987 | one pass over the choices finds the first error or the verdict on count and total percentage |
| VoteResolution.MinVoteThresholdIsCeiling | governance/program/src/state/proposal.rs:1053-1077 | the threshold weight is the least weight that reaches the percentage, and the maximum weight can reach it |
| VoteResolution.ResolveFinalVoteState | governance/program/src/state/proposal.rs:450-549 | the two passes over the options give the verdict on each option and on the proposal; a survey is completed |
| VoteResolution.SingleChoiceHasOneWinner | governance/program/src/state/proposal.rs:450-549 | a single choice succeeds if and only if one option passes and outvotes every other, and that option alone wins |
| VoteResolution.DefeatedSingleChoiceWinners | governance/program/src/state/proposal.rs:493-520 | a defeated single choice has a winning option if and only if the best weight is tied at the largest u64 |
| VoteResolution.DefeatedWithTwoWinners | governance/program/src/state/proposal.rs:493-520 | two options at the largest u64 both win while the proposal is defeated |
| VoteResolution.TipIsFinal | governance/program/src/state/proposal.rs:714-773 | for all larger tallies within the maximum weight, the final count would have confirmed a tipped decision if and only if it is a defeat or a majority of the maximum weight, so every strict tip is confirmed |
| VoteResolution.EarlyTippingCanBePremature | governance/program/src/state/proposal.rs:749-756 | an early success that later votes can contradict, by the condition of the row above |
| GovernanceProgram.AddToOptions | governance/program/src/processor/process_cast_vote.rs:121-128 | the tally loop over options and choices, with its overflow and weight errors |
| GovernanceProgram.TakeFromOptions | governance/program/src/processor/process_relinquish_vote.rs:87-94 | the loop that subtracts a vote again |
| GovernanceProgram.Program.Create | governance/program/src/processor/process_create_proposal.rs:60-218 | both counters up, the new proposal, the security deposit |
| GovernanceProgram.Program.SignOffProposal | governance/program/src/processor/process_sign_off_proposal.rs:36-102 | the owner's or a signatory's signature, its counts and stamps, and the entry into voting |
| GovernanceProgram.Program.Cast | governance/program/src/processor/process_cast_vote.rs:57-224 | guards, tallies, tipping and all account writes, with the voter's record and the owner's record as one account or two |
| GovernanceProgram.Program.Relinquish | governance/program/src/processor/process_relinquish_vote.rs:37-141 | takes the vote out while voting is open, marks it once decided, refuses in between |
| GovernanceProgram.Program.Dispatch | governance/program/src/processor/mod.rs:74-226 | every instruction of the model goes to its handler, and the handler does its step or fails and changes nothing |
| GovernanceProgram.Program.Process | governance/program/src/processor/mod.rs:74-226 | any instruction on accounts with the invariant: the handler does the step, the invariant is kept, and taking a vote back panics exactly when it needs a council that was removed |
| GovernanceProgram.Program.ProcessAll | governance/program/src/processor/mod.rs:74-226 | any list of instructions leaves the accounts where the run of the steps ends, with the invariant kept |
| GovernanceFrames.Frames | governance/program/src/processor/mod.rs:72-226 | which kinds of account each instruction leaves untouched |
| GovernanceFrames.FieldFrames | governance/program/src/state/token_owner_record.rs:57-120 | which instructions may change which counter of a voter's record |
| GovernanceLifecycle.ProposalsMoveForward | governance/program/src/state/proposal.rs:265-440 | every instruction moves proposals only to a higher-ranked state, keeps identity, options, decided tallies and edits frozen as the state demands, and keeps timestamps and signature counts as the state demands |
| GovernanceLifecycle.ProposalMoves | governance/program/src/processor/process_sign_off_proposal.rs:38-101 | only the proposal an instruction names changes, and only in the parts that instruction works on |
| GovernanceRuns.LifecycleOverRuns | governance/program/src/state/proposal.rs:307-321 | over any run a proposal only becomes a later stage of itself, so final states absorb |
| GovernanceRuns.InvariantStep | governance/program/src/processor/mod.rs:72-226 | every instruction, successful or not, keeps the whole invariant |
| GovernanceRuns.ReachableInvariant | governance/program/src/processor/mod.rs:72-226 | the invariant holds after every run from an empty realm |
| GovernanceProgram.HandlersKeepInvariant | governance/program/src/processor/mod.rs:72-226 | what a handler does is one step of a run, so it keeps the invariant |
| GovernanceTokens.SurplusChange | governance/program/src/processor/process_withdraw_governing_tokens.rs:74-111 | holding balance minus recorded deposits changes by gifts only |
| GovernanceRuns.SurplusOverRuns | governance/program/src/processor/process_deposit_governing_tokens.rs:138-172 | over a run, holding balance and deposits differ exactly by the tokens sent in or left behind |
| GovernanceGuarantees.DepositsArePayable | governance/program/src/processor/process_revoke_governing_tokens.rs:76-91 | no withdrawal and no burn ever lacks tokens in the holding account |
| GovernanceGuarantees.WithdrawalGuard | governance/program/src/state/token_owner_record.rs:241-266 | the counters let a holder withdraw if and only if no vote of theirs stands and no proposal of theirs is active |
| GovernanceRecovery.WithdrawalSucceeds | governance/program/src/processor/process_withdraw_governing_tokens.rs:43-114 | in a reachable state a signed withdrawal of an unlocked record succeeds if and only if its mint is in the realm and not a membership token, no vote of the holder stands and no proposal of theirs is active |
| GovernanceRecovery.DepositRecoverable | governance/program/src/processor/process_set_realm_config.rs:48-71 | from a reachable state some run gets a deposit back if and only if its mint is in the realm and no veto of its holder stands against a removed council |
| GovernanceStranding.VetoCanBeStranded | governance/program/src/state/realm.rs:265-267 | six successful steps from the empty realm end with a veto that panics on return and a deposit that no run pays back |
| GovernanceBallots.VotesCountedStep | governance/program/src/processor/process_cast_vote.rs:100-103 | each record's count is the number of its unmarked vote records |
| GovernanceBallots.MarksMatchStep | governance/program/src/processor/process_relinquish_vote.rs:117-136 | votes exist from voting on, and only decided proposals have marked ones |
| GovernanceActivity.ActivityCountedStep | governance/program/src/processor/process_cast_vote.rs:171-192 | owners' and governances' counters equal the numbers of active proposals, also when the tipping voter owns the proposal |
| GovernanceActivity.AnchoredStep | governance/program/src/processor/process_create_proposal.rs:60-218 | the owner's record and the governance of every proposal keep existing |
| GovernanceActivity.ActiveIsCounted | governance/program/src/processor/process_cancel_proposal.rs:48-58 | neither counter is zero while a proposal is active, so no saturating subtraction saturates |
| GovernanceSteps.AddChoicesAdds | governance/program/src/processor/process_cast_vote.rs:121-128 | adding a vote succeeds if and only if no share is malformed or overflows, and adds each choice's share to its own option and nothing else |
| GovernanceSteps.SubtractChoicesSubtracts | governance/program/src/processor/process_relinquish_vote.rs:87-94 | subtracting succeeds if and only if every share is covered, and takes each share from its own option and nothing else |
| GovernanceTallies.AllTalliedStep | governance/program/src/processor/process_cast_vote.rs:120-147 | every option, deny and veto tally is the sum of what the existing vote records gave to it |
| GovernanceTallies.SubtractVoteTallies | governance/program/src/processor/process_relinquish_vote.rs:86-112 | a vote the tallies cover can be taken out of them without a failed subtraction |
| GovernanceCoverage.VoteMintsStep | governance/program/src/state/realm.rs:255-278 | every recorded vote was cast for its proposal's mint by the population it belongs to, also after the council is removed |
| GovernanceGuarantees.RelinquishPanicsExactly | governance/program/src/processor/process_relinquish_vote.rs:37-141 | in a reachable state relinquishing passes every unwrap and checked subtraction but one: it panics if and only if the council was removed and the vote is a veto of a community holder |
| GovernanceGuarantees.StandingVoteIsReturnable | governance/program/src/processor/process_relinquish_vote.rs:37-141 | in a reachable state a standing vote can be given back if and only if the voter's mint, and for a veto the council's, is in the realm and its proposal is decided, or voting has not ended and its voter signs |
| GovernanceGuarantees.SubtractVoteUndoesAddVote | governance/program/src/processor/process_relinquish_vote.rs:86-112 | taking a vote back restores the proposal exactly |
| GovernanceGuarantees.RelinquishUndoesCast | governance/program/src/processor/process_relinquish_vote.rs:58-140 | relinquishing right after a vote that did not decide restores every account of the realm |
| GovernanceGuarantees.VotesBelongToVoters | governance/program/src/processor/process_relinquish_vote.rs:77-84 | a vote appears or disappears only with the signature of its voter or the voter's delegate; a standing vote keeps its content and weight, and a mark stays |
| GovernanceGuarantees.DepositsBelongToOwners | governance/program/src/processor/process_withdraw_governing_tokens.rs:43-111 | a deposit goes down only by a withdrawal its owner signed, to zero, or by an authorized revocation, by its amount |
| GovernanceGuarantees.TimestampsInOrder | governance/program/src/processor/process_execute_transaction.rs:93-115 | all timestamps that are set are in the order of the stages and not in the future |
| GovernanceTransactions.AllAccountedStep | governance/program/src/processor/process_insert_transaction.rs:70-84 | both counters of every option equal its live and its executed transactions, all below the next index, executed ones only for winners |
| GovernanceTransactions.ExecutedAreLive | governance/program/src/processor/process_execute_transaction.rs:99-115 | equal counters mean that every single transaction of the option has run |
| GovernanceOutcomes.CompletionRanEverything | governance/program/src/processor/process_execute_transaction.rs:93-121 | a completed proposal has run every transaction of every winning option |
| GovernanceOutcomes.ExecutedAtMostOnce | governance/program/src/state/proposal.rs:877-880 | over any run a transaction is executed at most once, and exactly then it is marked as executed |
| GovernanceOutcomes.DecidedIsFrozen | governance/program/src/state/proposal.rs:840-898 | nothing but executing and completing changes a decided proposal |
| GovernanceDecision.DecidedAsConfigured | governance/program/src/processor/process_finalize_vote.rs:33-90 | after the voting time some run without a change of the governance's configuration decides the proposal if and only if its mint is in the realm and its threshold is enabled |
| GovernanceDecision.UnsettledOverRuns | governance/program/src/processor/process_set_governance_config.rs:31-38 | until then nothing at all happens to the proposal |
| GovernanceDecision.DecidableWhileInRealm | governance/program/src/processor/process_finalize_vote.rs:33-90 | some run decides a proposal in voting if and only if its population is in the realm |
| GovernanceCompletion.StuckForever | governance/program/src/state/proposal.rs:840-898 | if no winner has transactions but another option has, the proposal never changes again |
| GovernanceCompletion.CompletableUnlessStuck | governance/program/src/state/proposal.rs:840-898 | in a reachable state some run completes a succeeded or executing proposal if and only if it is not stuck in that way |
| GovernanceWitness.StuckIsReachable | governance/program/src/state/proposal.rs:840-898 | eight successful steps from the empty realm end in a stuck proposal |
| GovernanceSignatories.AllSignaturesCountedStep | governance/program/src/processor/process_sign_off_proposal.rs:66-90 | signatory and sign-off counts equal the numbers of records and of signed records |
| GovernanceSignatories.AllRequiredCountedStep | governance/program/src/processor/process_remove_required_signatory.rs:27-47 | the required count equals the size of the required set |
| GovernanceSignatories.RequiredKeptStep | governance/program/src/processor/process_add_signatory.rs:46-75 | a step keeps a proposal's present and required signatories in an order that can miss nobody if and only if it changes the required set, if at all, in one of the listed safe ways |
| GovernanceRequired.EveryRequiredSignatorySigned | governance/program/src/processor/process_sign_off_proposal.rs:44-97 | if every change of the required set over the proposal's life is safe, from voting on every required signatory has a record and all records are signed |
| GovernanceRequired.FixedSetIsSafe | governance/program/src/processor/process_add_required_signatory.rs:40-70 | a required set that never changes is a special case |
| GovernanceRequired.RequiredCanBeMissed | governance/program/src/processor/process_add_required_signatory.rs:34-68 | from a reachable state a proposal not yet in voting can enter voting without a required signatory, the required set staying as it is, if and only if it has lost that order |
| GovernanceWitness.MissedIsReachable | governance/program/src/processor/process_add_required_signatory.rs:34-68 | five successful steps from the empty realm lose it by a late requirement, so a run can miss the required signatory |
| GovernanceWitness.DroppedIsReachable | governance/program/src/processor/process_remove_required_signatory.rs:27-47 | seven successful steps lose it by dropping a requirement |
| GovernanceCoverage.BackedStep | governance/program/src/processor/process_withdraw_governing_tokens.rs:74-111 | a step keeps every standing vote of a mint covered by its voter's deposit if and only if it takes no larger plugin weight and revokes no tokens below a standing vote |
| GovernanceCoverage.VotesAreTokens | governance/program/src/processor/process_cast_vote.rs:100-115 | the electorate weights recorded for a proposal in voting sum to at most the deposits, hence to at most the holding balance |
| GovernanceCoverage.TalliesWithinElectorate | governance/program/src/state/vote_record.rs:38-55 | no option together with the deny option outweighs the recorded electorate |
| GovernanceGuarantees.TalliesAreHeldTokens | governance/program/src/processor/process_withdraw_governing_tokens.rs:74-111 | over every such run, an option's and the deny tally of a proposal in voting are held tokens |
| GovernanceOutcomes.DepositsGrowTriangular | governance/program/src/state/governance.rs:380-400 | creating N proposals beyond the exempt ones deposits exactly N(N+1)/2 base amounts |
| BorshLayout.V2RoundTrips | governance/program/src/state/proposal_transaction.rs:85-119 | decoding an encoded transaction, with any bytes behind it, gives it back and leaves those bytes |
| BorshLayout.V2Canonical | governance/program/src/state/proposal_transaction.rs:85-119 | bytes that decode are the encoding of the result followed by the bytes not read |
| BorshLayout.InstructionRoundTrips | governance/program/src/state/proposal_transaction.rs:25-46 | instructions with nested account and data vectors of any length up to u32 round trip |
| BorshLayout.EncodedSize | governance/program/src/state/proposal_transaction.rs:121-131 | the maximum size is the encoded size exactly when the execution time is set, and 8 bytes more otherwise |
| BorshLayout.ExecutionWriteBackFits | governance/program/src/state/proposal_transaction.rs:121-172 | the write after execution always fits the account created at insertion and fills it |
| BorshLayout.Serialize | governance/program/src/state/proposal_transaction.rs:141-172 | serializing into the account data writes the emitted bytes in front and leaves the rest, or fails |
| BorshLayout.WrittenIsRead | governance/program/src/state/proposal_transaction.rs:208-234 | what was written is read back, in both layouts |
| BorshLayout.V1SurvivesTranslation | governance/program/src/state/proposal_transaction.rs:141-234 | a V1 account read, translated and written back keeps its data |

## Left out

- Folio auctions, baskets, fees and rewards: their algorithms are not part of this model.
- Account plumbing: address derivation, rent, lamports, account ownership and resizing. Addresses are map
  keys, signatures are arguments.
- Cross-program calls: token transfers are balance changes; the rewards call and executed instructions leave
  the modelled accounts alone, so governance instructions nested in an execution are not covered.
- Realm configuration other than the council mint and the token types; who the realm's authority is.
- GovernanceGuarantees.RelinquishPanicsExactly: relinquishing is not promised to be free of panics, since
  with the council removed it is not; the lemma gives the exact case.
- Who may create a governance, and locks on voter records other than as an argument of the withdrawal.
- DecimalExp.Exp: the largest argument that succeeds is not computed; `DecimalExp.ExpStrictlyIncreasing`
  says that the arguments that succeed are all those up to some bound.
- Voter-weight plugins: the weight they report and the maximum weight are arguments; the fraction that
  reduces the maximum weight is folded into that argument.
- Legacy V1 proposals, governances and voter records; only the V1 transaction layout is covered.
- Timestamps and lamports are unbounded integers: overflow of 64-bit time arithmetic is not modelled. Token
  amounts, weights and counters keep their widths.
- The account passed as a required signatory is taken to be the one of the signatory being added; passing
  another one fails with a different error.
- Errors of configuration checks are one error.
- Overflow of 16-bit counts of options and choices: a proposal has at most ten options.
- Fields that only record history: names, links, slots, abstain weight, captured thresholds, instruction
  error flags.
- Errors from writing a transaction to its account during insertion: a proposal transaction's size is
  covered in the layout module only.
- `from_plain`, `from_scaled` and the comparison operators: single checked expressions.
