/** Vote validation, choice weights, tipping and final resolution of a proposal. */
module VoteResolution {
  import opened Outcomes
  import opened GovernanceState

  // ---- Votes --------------------------------------------------------------------------

  /** `get_choice_weight`; rounding down for partial weights. */
  function ChoiceWeight(choice: VoteChoice, voterWeight: nat): Result<nat, GovernanceError> {
    if choice.weightPercentage == 100 then Ok(voterWeight)
    else if choice.weightPercentage < 100 then Ok(voterWeight * choice.weightPercentage / 100)
    else Err(InvalidVoteChoiceWeightPercentage)
  }

  /** Choices with a positive percentage and the total of their percentages. */
  function Chosen(choices: seq<VoteChoice>): nat {
    if choices == [] then 0
    else Chosen(choices[..|choices| - 1]) + if choices[|choices| - 1].weightPercentage > 0 then 1 else 0
  }

  function TotalPercentage(choices: seq<VoteChoice>): nat {
    if choices == [] then 0
    else TotalPercentage(choices[..|choices| - 1]) + choices[|choices| - 1].weightPercentage
  }

  predicate IsWeighted(voteType: VoteType) {
    voteType.MultiChoice? && voteType.choiceType == Weighted
  }

  /** The choice at an index fails on its own or overflows the running u8 total. */
  function ChoiceError(voteType: VoteType, choices: seq<VoteChoice>, i: nat): Option<GovernanceError>
    requires i < |choices|
  {
    var c := choices[i];
    if c.rank > 0 then Some(RankedVoteIsNotSupported)
    else if c.weightPercentage == 0 then None
    else if IsWeighted(voteType) then
      if TotalPercentage(choices[..i + 1]) > U8_MAX then Some(TotalVoteWeightMustBe100Percent) else None
    else if c.weightPercentage != 100 then Some(ChoiceWeightMustBe100Percent)
    else None
  }

  /** The first error of the choices from index i on, or the verdict on their totals. */
  function ChoicesVerdict(voteType: VoteType, choices: seq<VoteChoice>, i: nat): Outcome<GovernanceError>
    requires i <= |choices|
    decreases |choices| - i
  {
    if i < |choices| then
      var error := ChoiceError(voteType, choices, i);
      if error.Some? then Fail(error.value) else ChoicesVerdict(voteType, choices, i + 1)
    else if voteType.SingleChoice? then Need(Chosen(choices) == 1, SingleChoiceOnlyIsAllowed)
    else if Chosen(choices) == 0 then Fail(AtLeastSingleChoiceIsRequired)
    else Need(IsWeighted(voteType) ==> TotalPercentage(choices) == 100, TotalVoteWeightMustBe100Percent)
  }

  function AssertValidVote(p: Proposal, vote: Vote): Outcome<GovernanceError> {
    match vote
    case Approve(choices) =>
      if |p.options| != |choices| then Fail(InvalidNumberOfVoteChoices) else ChoicesVerdict(p.voteType, choices, 0)
    case Deny => Need(p.denyVoteWeight.Some?, DenyVoteIsNotAllowed)
    case Abstain => Fail(NotSupportedVoteType)
    case Veto => Pass
  }

  /** `assert_valid_vote` as written, one pass over the choices. */
  method CheckVote(p: Proposal, vote: Vote) returns (r: Outcome<GovernanceError>)
    ensures r == AssertValidVote(p, vote)
  {
    match vote
    case Deny => return Need(p.denyVoteWeight.Some?, DenyVoteIsNotAllowed);
    case Abstain => return Fail(NotSupportedVoteType);
    case Veto => return Pass;
    case Approve(choices) =>
      if |p.options| != |choices| {
        return Fail(InvalidNumberOfVoteChoices);
      }
      var choiceCount, total := 0, 0;
      for i := 0 to |choices|
        invariant choiceCount == Chosen(choices[..i])
        invariant IsWeighted(p.voteType) ==> total == TotalPercentage(choices[..i])
        invariant ChoicesVerdict(p.voteType, choices, 0) == ChoicesVerdict(p.voteType, choices, i)
      {
        var choice := choices[i];
        assert choices[..i + 1][..i] == choices[..i];
        if choice.rank > 0 {
          return Fail(RankedVoteIsNotSupported);
        }
        if choice.weightPercentage > 0 {
          choiceCount := choiceCount + 1;
          if IsWeighted(p.voteType) {
            total := total + choice.weightPercentage;
            if total > U8_MAX {
              return Fail(TotalVoteWeightMustBe100Percent);
            }
          } else if choice.weightPercentage != 100 {
            return Fail(ChoiceWeightMustBe100Percent);
          }
        }
      }
      assert choices[..|choices|] == choices;
      if p.voteType.SingleChoice? {
        return Need(choiceCount == 1, SingleChoiceOnlyIsAllowed);
      }
      if choiceCount == 0 {
        return Fail(AtLeastSingleChoiceIsRequired);
      }
      return Need(IsWeighted(p.voteType) ==> total == 100, TotalVoteWeightMustBe100Percent);
  }

  // ---- Thresholds -----------------------------------------------------------------------

  /** n hundredths, rounded up as the code does it. */
  function CeilingOfHundredths(n: nat): nat {
    n / 100 + if n / 100 * 100 < n then 1 else 0
  }

  /** The percentage of the maximum weight, rounded up and cast to u64. */
  function MinVoteThresholdWeight(threshold: VoteThreshold, maxVoterWeight: nat): Result<nat, GovernanceError> {
    if !threshold.YesVotePercentage? then Err(VoteThresholdTypeNotSupported)
    else Ok(CeilingOfHundredths(threshold.percentage * maxVoterWeight) % (U64_MAX + 1))
  }

  lemma PercentageBounds(percentage: nat, n: nat)
    requires percentage <= 100
    ensures percentage * n <= 100 * n
  {
  }

  lemma HundredthsBounds(n: nat, max: nat, w: nat)
    requires n <= 100 * max && max <= U64_MAX
    ensures n / 100 <= max && CeilingOfHundredths(n) <= max
    ensures CeilingOfHundredths(n) % (U64_MAX + 1) == CeilingOfHundredths(n)
    ensures w >= CeilingOfHundredths(n) <==> w * 100 >= n
  {
  }

  /** For a valid percentage it is the least weight that reaches the percentage, and the maximum can reach it. */
  lemma MinVoteThresholdIsCeiling(percentage: nat, maxVoterWeight: nat, w: nat)
    requires percentage <= 100 && maxVoterWeight <= U64_MAX
    ensures var min := MinVoteThresholdWeight(YesVotePercentage(percentage), maxVoterWeight);
            && min.Ok? && min.value <= maxVoterWeight
            && (w >= min.value <==> w * 100 >= percentage * maxVoterWeight)
  {
    hide CeilingOfHundredths;
    PercentageBounds(percentage, maxVoterWeight);
    HundredthsBounds(percentage * maxVoterWeight, maxVoterWeight, w);
  }

  /** `coerce_max_voter_weight`: never below the votes already cast. */
  function CoerceMaxVoterWeight(p: Proposal, maxVoterWeight: nat, kind: VoteKind): Result<nat, GovernanceError> {
    if kind == VetoKind then Ok(Max(maxVoterWeight, p.vetoVoteWeight))
    else if p.options == [] then Err(Panicked)
    else
      var total := MaxOptionWeight(p.options) + if p.denyVoteWeight.Some? then p.denyVoteWeight.value else 0;
      if total > U64_MAX then Err(Panicked) else Ok(Max(maxVoterWeight, total))
  }

  function Max(a: nat, b: nat): nat {
    if a < b then b else a
  }

  function MaxOptionWeight(options: seq<ProposalOption>): nat {
    if options == [] then 0 else Max(MaxOptionWeight(options[..|options| - 1]), options[|options| - 1].voteWeight)
  }

  /** Where the maximum voter weight comes from: the whole mint supply, or a smaller figure that is coerced. */
  datatype MaxWeightSource = FullSupply(supply: nat) | Coerced(weight: nat)

  function ResolveMaxVoterWeight(p: Proposal, source: MaxWeightSource, kind: VoteKind): Result<nat, GovernanceError> {
    if source.FullSupply? then Ok(source.supply) else CoerceMaxVoterWeight(p, source.weight, kind)
  }

  // ---- Tipping ----------------------------------------------------------------------------

  function SaturatingSub(a: nat, b: nat): nat {
    if a < b then 0 else a - b
  }

  /** The verdict on a one-option proposal with a deny option, if the votes already decide it. */
  function TippedVerdict(yes: nat, deny: nat, max: nat, min: nat, tipping: VoteTipping): OptionVoteResult {
    if tipping == Strict && yes >= min && yes > SaturatingSub(max, yes) then OptionSucceeded
    else if tipping == Early && yes >= min && yes > deny then OptionSucceeded
    else if tipping != NeverTip && (deny > SaturatingSub(max, min) || deny >= SaturatingSub(max, deny))
        then OptionDefeated
    else NoResult
  }

  /** `try_tip_vote`: the decided proposal, or None when the vote stays open. */
  function TryTipVote(p: Proposal, max: nat, tipping: VoteTipping, now: int, threshold: VoteThreshold,
      kind: VoteKind): Result<Option<Proposal>, GovernanceError> {
    var min := MinVoteThresholdWeight(threshold, max);
    if min.Err? then Err(Panicked)
    else if kind == VetoKind then
      if p.vetoVoteWeight >= min.value then Ok(Some(p.(state := Vetoed, votingCompletedAt := Some(now)))) else Ok(None)
    else if p.voteType != SingleChoice || p.denyVoteWeight.None? || |p.options| != 1 then Ok(None)
    else
      var verdict := TippedVerdict(p.options[0].voteWeight, p.denyVoteWeight.value, max, min.value, tipping);
      if verdict == NoResult then Ok(None)
      else Ok(Some(p.(
          state := if verdict == OptionSucceeded then Succeeded else Defeated,
          votingCompletedAt := Some(now),
          options := [p.options[0].(voteResult := verdict)])))
  }

  // ---- Final resolution ---------------------------------------------------------------------

  predicate Passes(o: ProposalOption, min: nat, deny: nat) {
    o.voteWeight >= min && o.voteWeight > deny
  }

  /** The highest weight of a passing option, 0 if none passes. */
  function Best(options: seq<ProposalOption>, min: nat, deny: nat): nat {
    if options == [] then 0
    else
      var (rest, last) := (Best(options[..|options| - 1], min, deny), options[|options| - 1]);
      if Passes(last, min, deny) && last.voteWeight > rest then last.voteWeight else rest
  }

  /** How many passing options have the given weight. */
  function CountAt(options: seq<ProposalOption>, weight: nat, min: nat, deny: nat): nat {
    if options == [] then 0
    else
      var last := options[|options| - 1];
      CountAt(options[..|options| - 1], weight, min, deny) + if Passes(last, min, deny) && last.voteWeight
          == weight then 1 else 0
  }

  /** The verdict on each option and on the proposal, before surveys are taken into account. */
  function FinalVerdict(voteType: VoteType, options: seq<ProposalOption>, min: nat,
      deny: nat): (seq<OptionVoteResult>, ProposalState) {
    var best := Best(options, min, deny);
    if best == 0 then (seq(|options|, i => OptionDefeated), Defeated)
    else if voteType.MultiChoice? then
      (seq(|options|, i requires 0 <= i < |options| =>
        if Passes(options[i], min, deny) then OptionSucceeded else OptionDefeated), Succeeded)
    else
      var tied := CountAt(options, best, min, deny) > 1;
      var winning := if tied then U64_MAX else best;
      (seq(|options|, i requires 0 <= i < |options| => if options[i].voteWeight
          == winning then OptionSucceeded else OptionDefeated),
       if tied then Defeated else Succeeded)
  }

  function WithResults(options: seq<ProposalOption>, results: seq<OptionVoteResult>): seq<ProposalOption>
    requires |options| == |results|
  {
    seq(|options|, i requires 0 <= i < |options| => options[i].(voteResult := results[i]))
  }

  /** `finalize_vote`; a proposal without a deny option is a survey and is completed at once. */
  function FinalizedVote(p: Proposal, max: nat, config: GovernanceConfig, now: int,
      threshold: VoteThreshold): Result<Proposal, GovernanceError> {
    var allowed := AssertCanFinalizeVote(p, config, now);
    :- allowed;
    var min := MinVoteThresholdWeight(threshold, max);
    if min.Err? then Err(Panicked)
    else
      var deny := if p.denyVoteWeight.Some? then p.denyVoteWeight.value else 0;
      var (results, verdict) := FinalVerdict(p.voteType, p.options, min.value, deny);
      Ok(p.(
        state := if p.denyVoteWeight.None? then Completed else verdict,
        options := WithResults(p.options, results),
        votingCompletedAt := Some(VotingMaxTimeEnd(p, config))))
  }

  lemma {:induction false} BestBounds(options: seq<ProposalOption>, min: nat, deny: nat)
    ensures forall o :: o in options && Passes(o, min, deny) ==> o.voteWeight <= Best(options, min, deny)
    ensures Best(options, min, deny) > 0 ==>
              exists i :: 0 <= i < |options| && Passes(options[i], min, deny)
                  && options[i].voteWeight == Best(options, min, deny)
    ensures forall weight :: weight > Best(options, min, deny) ==> CountAt(options, weight, min, deny) == 0
  {
    if options != [] {
      var n := |options| - 1;
      BestBounds(options[..n], min, deny);
      assert options == options[..n] + [options[n]];
      if Best(options, min, deny) > 0 && Best(options, min, deny) == Best(options[..n], min, deny) {
        var i :| 0 <= i < n && Passes(options[..n][i], min, deny)
            && options[..n][i].voteWeight == Best(options, min, deny);
        assert options[i] == options[..n][i];
      }
      if Best(options, min, deny) > Best(options[..n], min, deny) {
        assert Passes(options[n], min, deny);
      }
    }
  }

  /** Two different passing options of one weight are counted twice. */
  lemma {:induction false} CountAtLeast(options: seq<ProposalOption>, weight: nat, min: nat, deny: nat, i: nat, j: nat)
    requires i < |options| && Passes(options[i], min, deny) && options[i].voteWeight == weight
    ensures CountAt(options, weight, min, deny) >= 1
    ensures j < i && Passes(options[j], min, deny) && options[j].voteWeight == weight ==>
        CountAt(options, weight, min, deny) >= 2
  {
    var n := |options| - 1;
    if i < n {
      CountAtLeast(options[..n], weight, min, deny, i, j);
    } else if j < i && Passes(options[j], min, deny) && options[j].voteWeight == weight {
      CountAtLeast(options[..n], weight, min, deny, j, j);
    }
  }

  /** Conversely a count above one comes from two different options. */
  lemma {:induction false} CountWitness(options: seq<ProposalOption>, weight: nat, min: nat, deny: nat)
    returns (j: int, i: int)
    ensures CountAt(options, weight, min, deny) >= 1 ==>
        0 <= i < |options| && Passes(options[i], min, deny) && options[i].voteWeight == weight
    ensures CountAt(options, weight, min, deny) >= 2 ==>
        0 <= j < i && Passes(options[j], min, deny) && options[j].voteWeight == weight
  {
    j, i := -1, -1;
    if options != [] {
      var n := |options| - 1;
      j, i := CountWitness(options[..n], weight, min, deny);
      if Passes(options[n], min, deny) && options[n].voteWeight == weight {
        j, i := i, n;
      }
    }
  }

  /** One more option of the first pass. */
  lemma PrefixStep(options: seq<ProposalOption>, i: nat, min: nat, deny: nat)
    requires i < |options|
    ensures var (best, o) := (Best(options[..i], min, deny), options[i]);
            var next := if Passes(o, min, deny) && o.voteWeight > best then o.voteWeight else best;
            && Best(options[..i + 1], min, deny) == next
            && CountAt(options[..i + 1], next, min, deny)
               == (if next > best then 0 else CountAt(options[..i], next, min, deny))
                  + if Passes(o, min, deny) && o.voteWeight == next then 1 else 0
  {
    assert options[..i + 1][..i] == options[..i];
    BestBounds(options[..i], min, deny);
  }

  lemma EmptyPrefix(options: seq<ProposalOption>, min: nat, deny: nat)
    ensures Best(options[..0], min, deny) == 0
  {
  }

  lemma BestIsCounted(options: seq<ProposalOption>, min: nat, deny: nat)
    ensures forall k :: 0 <= k < |options| && Passes(options[k], min, deny) ==>
        options[k].voteWeight <= Best(options, min, deny)
    ensures options[..|options|] == options
    ensures Best(options, min, deny) > 0 ==> CountAt(options, Best(options, min, deny), min, deny) >= 1
  {
  }

  /** `resolve_final_vote_state` as written: one pass to find the best, one to coerce a single choice. */
  method ResolveFinalVoteState(voteType: VoteType, options: seq<ProposalOption>, denyVoteWeight: Option<nat>, min: nat)
    returns (results: seq<OptionVoteResult>, state: ProposalState)
    ensures var deny := if denyVoteWeight.Some? then denyVoteWeight.value else 0;
            var (expected, verdict) := FinalVerdict(voteType, options, min, deny);
            results == expected && state == if denyVoteWeight.None? then Completed else verdict
  {
    hide Best, CountAt;
    var deny := if denyVoteWeight.Some? then denyVoteWeight.value else 0;
    var best, bestCount := 0, 0;
    results := [];
    EmptyPrefix(options, min, deny);
    for i := 0 to |options|
      invariant |results| == i
      invariant best == Best(options[..i], min, deny)
      invariant bestCount == if best == 0 then 0 else CountAt(options[..i], best, min, deny)
      invariant forall k :: 0 <= k < i ==>
                  results[k] == if Passes(options[k], min, deny) then OptionSucceeded else OptionDefeated
    {
      var option := options[i];
      PrefixStep(options, i, min, deny);
      if option.voteWeight >= min && option.voteWeight > deny {
        results := results + [OptionSucceeded];
        if option.voteWeight > best {
          best, bestCount := option.voteWeight, 1;
        } else if option.voteWeight == best {
          bestCount := bestCount + 1;
        }
      } else {
        results := results + [OptionDefeated];
      }
    }
    BestIsCounted(options, min, deny);
    if bestCount == 0 {
      state := Defeated;
    } else if voteType.SingleChoice? {
      if bestCount > 1 {
        best := U64_MAX;
        state := Defeated;
      } else {
        state := Succeeded;
      }
      for i := 0 to |options|
        invariant |results| == |options|
        invariant forall k :: 0 <= k < i ==>
                    results[k] == if options[k].voteWeight == best then OptionSucceeded else OptionDefeated
      {
        results := results[i := if options[i].voteWeight == best then OptionSucceeded else OptionDefeated];
      }
    } else {
      state := Succeeded;
    }
    if denyVoteWeight.None? {
      state := Completed;
    }
  }

  // ---- What the resolution promises -----------------------------------------------------------

  predicate OutVotes(options: seq<ProposalOption>, i: nat, min: nat, deny: nat)
    requires i < |options|
  {
    Passes(options[i], min, deny) && forall k :: 0 <= k < |options| && k != i ==>
        options[k].voteWeight < options[i].voteWeight
  }

  /** A single choice succeeds exactly when one option passes and outvotes every other, and that option alone wins. */
  lemma SingleChoiceHasOneWinner(options: seq<ProposalOption>, min: nat, deny: nat)
    ensures var (results, verdict) := FinalVerdict(SingleChoice, options, min, deny);
            && (verdict == Succeeded <==> exists i :: 0 <= i < |options| && OutVotes(options, i, min, deny))
            && (verdict == Succeeded ==> forall i :: 0 <= i < |options| ==>
                  (results[i] == OptionSucceeded <==> OutVotes(options, i, min, deny)))
            && (verdict != Succeeded ==> verdict == Defeated)
  {
    var (results, verdict) := FinalVerdict(SingleChoice, options, min, deny);
    var best := Best(options, min, deny);
    BestBounds(options, min, deny);
    if best > 0 {
      var w :| 0 <= w < |options| && Passes(options[w], min, deny) && options[w].voteWeight == best;
      var j, i := CountWitness(options, best, min, deny);
      CountAtLeast(options, best, min, deny, w, w);
      forall k | 0 <= k < |options| && k != w && verdict == Succeeded
        ensures options[k].voteWeight < best
      {
        if options[k].voteWeight >= best {
          assert Passes(options[k], min, deny);
          CountAtLeast(options, best, min, deny, if k < w then w else k, if k < w then k else w);
        }
      }
      if verdict == Succeeded {
        assert OutVotes(options, w, min, deny);
      }
    }
  }

  /**
   A defeated single choice marks an option as succeeded exactly in one odd case: a tie at
   the best weight while some option weighs the whole u64 range.
   */
  lemma DefeatedSingleChoiceWinners(options: seq<ProposalOption>, min: nat, deny: nat)
    requires FinalVerdict(SingleChoice, options, min, deny).1 == Defeated
    requires forall o :: o in options ==> o.voteWeight <= U64_MAX
    ensures (exists i :: 0 <= i < |options| && FinalVerdict(SingleChoice, options, min, deny).0[i] == OptionSucceeded)
       <==> (Best(options, min, deny) == U64_MAX && CountAt(options, U64_MAX, min, deny) > 1)
  {
    var best := Best(options, min, deny);
    BestBounds(options, min, deny);
    var j, i := CountWitness(options, best, min, deny);
    if best > 0 && best < U64_MAX {
      forall k | 0 <= k < |options|
        ensures options[k].voteWeight != U64_MAX
      {
        assert Passes(options[i], min, deny) && options[i].voteWeight == best;
        assert options[k].voteWeight == U64_MAX ==> Passes(options[k], min, deny);
      }
    } else if best == U64_MAX {
      assert FinalVerdict(SingleChoice, options, min, deny).0[i] == OptionSucceeded;
    }
  }

  /**
   The odd case needs two options at the largest u64, which only weights from a plugin can
   reach: both are marked as succeeded and the proposal as defeated.
   */
  lemma DefeatedWithTwoWinners(first: ProposalOption, second: ProposalOption, min: nat, deny: nat)
    requires first.voteWeight == U64_MAX && second.voteWeight == U64_MAX && min <= U64_MAX && deny < U64_MAX
    ensures FinalVerdict(SingleChoice, [first, second], min, deny) == ([OptionSucceeded, OptionSucceeded], Defeated)
  {
    var options := [first, second];
    assert options[..1] == [first] && options[..1][..0] == [];
    assert Best(options[..1], min, deny) == U64_MAX;
    assert CountAt(options[..1], U64_MAX, min, deny) == 1;
    assert FinalVerdict(SingleChoice, options, min, deny).0 == [OptionSucceeded, OptionSucceeded];
  }

  // ---- When a tipped decision is final ------------------------------------------------------------

  /** The only kind of proposal an electorate vote tips: one option and a deny option, in voting. */
  predicate Tippable(p: Proposal) {
    p.state == Voting && p.votingAt.Some? && p.voteType == SingleChoice && p.denyVoteWeight.Some? && |p.options| == 1
  }

  function WithCounts(p: Proposal, yes: nat, deny: nat): Proposal
    requires |p.options| == 1
  {
    p.(options := [p.options[0].(voteWeight := yes)], denyVoteWeight := Some(deny))
  }

  /** Had voting gone on to these counts, the final count would have confirmed the tipped state and result. */
  predicate Confirmed(p: Proposal, tipped: Proposal, yes: nat, deny: nat, max: nat, config: GovernanceConfig, end: int,
      threshold: VoteThreshold)
    requires |p.options| == 1
  {
    var finalized := FinalizedVote(WithCounts(p, yes, deny), max, config, end, threshold);
    finalized.Ok? && finalized.value.state == tipped.state && |tipped.options| == 1
    && finalized.value.options[0].voteResult == tipped.options[0].voteResult
  }

  /** Whatever votes are added to p within the maximum weight, the final count confirms the tipped proposal. */
  ghost predicate AlwaysConfirmed(p: Proposal, tipped: Proposal, max: nat, config: GovernanceConfig, end: int,
      threshold: VoteThreshold)
    requires Tippable(p)
  {
    forall yes: nat, deny: nat ::
      p.options[0].voteWeight <= yes && p.denyVoteWeight.value <= deny && yes + deny <= max ==>
        Confirmed(p, tipped, yes, deny, max, config, end, threshold)
  }

  /** The final count of a tippable proposal, once voting has ended. */
  lemma FinalCount(p: Proposal, max: nat, config: GovernanceConfig, end: int, threshold: VoteThreshold)
    requires Tippable(p) && VotingMaxTimeEnd(p, config) < end && threshold.YesVotePercentage?
    ensures var r := FinalizedVote(p, max, config, end, threshold);
            var min := MinVoteThresholdWeight(threshold, max).value;
            var verdict := FinalVerdict(SingleChoice, p.options, min, p.denyVoteWeight.value);
            && r.Ok? && |r.value.options| == 1
            && r.value.state == verdict.1 && |verdict.0| == 1 && r.value.options[0].voteResult == verdict.0[0]
  {
    hide CeilingOfHundredths, Best, CountAt;
  }

  lemma OneOptionVerdict(option: ProposalOption, min: nat, deny: nat)
    ensures FinalVerdict(SingleChoice, [option], min, deny)
         == if Passes(option, min, deny) then ([OptionSucceeded], Succeeded) else ([OptionDefeated], Defeated)
  {
    assert [option][..0] == [];
    assert Best([option], min, deny) == if Passes(option, min, deny) then option.voteWeight else 0;
    assert CountAt([option], option.voteWeight, min, deny) <= 1;
    assert FinalVerdict(SingleChoice, [option], min, deny).0
        == if Passes(option, min, deny) then [OptionSucceeded] else [OptionDefeated];
  }

  lemma ConfirmedByCount(p: Proposal, tipped: Proposal, yes: nat, deny: nat, max: nat, config: GovernanceConfig,
      end: int, threshold: VoteThreshold)
    requires Tippable(p) && VotingMaxTimeEnd(p, config) < end && threshold.YesVotePercentage?
    requires |tipped.options| == 1
    requires tipped.state == if tipped.options[0].voteResult == OptionSucceeded then Succeeded else Defeated
    requires tipped.options[0].voteResult != NoResult
    ensures Confirmed(p, tipped, yes, deny, max, config, end, threshold)
       <==> (tipped.state == Succeeded <==> yes >= MinVoteThresholdWeight(threshold, max).value && yes > deny)
  {
    hide CeilingOfHundredths, FinalVerdict, FinalizedVote;
    var q := WithCounts(p, yes, deny);
    FinalCount(q, max, config, end, threshold);
    OneOptionVerdict(q.options[0], MinVoteThresholdWeight(threshold, max).value, deny);
    assert q.options == [q.options[0]];
  }

  /**
   A tipped decision is final, whatever votes are added within the maximum weight, if and only
   if it is a defeat or the approving votes outweigh everything else that could be cast. Every
   strict tip meets the condition; an early success meets it only if it is a majority of the
   maximum weight.
   */
  lemma TipIsFinal(p: Proposal, tipped: Proposal, max: nat, tipping: VoteTipping, now: int, threshold: VoteThreshold,
      config: GovernanceConfig, end: int)
    requires Tippable(p) && VotingMaxTimeEnd(p, config) < end
    requires TryTipVote(p, max, tipping, now, threshold, Electorate) == Ok(Some(tipped))
    ensures AlwaysConfirmed(p, tipped, max, config, end, threshold)
       <==> tipped.state == Defeated || p.options[0].voteWeight > SaturatingSub(max, p.options[0].voteWeight)
    ensures tipping == Strict ==> AlwaysConfirmed(p, tipped, max, config, end, threshold)
  {
    hide Confirmed, MinVoteThresholdWeight;
    var (yes, deny) := (p.options[0].voteWeight, p.denyVoteWeight.value);
    forall yes': nat, deny': nat
      ensures Confirmed(p, tipped, yes', deny', max, config, end, threshold)
         <==> (tipped.state == Succeeded <==> yes' >= MinVoteThresholdWeight(threshold, max).value && yes' > deny')
    {
      ThresholdIsPercentage(threshold, max);
      ConfirmedByCount(p, tipped, yes', deny', max, config, end, threshold);
    }
    if tipped.state == Succeeded && yes <= SaturatingSub(max, yes) {
      assert !Confirmed(p, tipped, yes, max - yes, max, config, end, threshold);
    }
  }

  lemma ThresholdIsPercentage(threshold: VoteThreshold, max: nat)
    requires MinVoteThresholdWeight(threshold, max).Ok?
    ensures threshold.YesVotePercentage?
  {
  }

  /** Two approving votes against one, out of ten, tip early; the condition says that later votes can undo it. */
  lemma EarlyTippingCanBePremature(p: Proposal, now: int, config: GovernanceConfig, end: int)
    requires Tippable(p) && VotingMaxTimeEnd(p, config) < end
    requires p.options[0].voteWeight == 2 && p.denyVoteWeight.value == 1
    ensures var tipped := TryTipVote(p, 10, Early, now, YesVotePercentage(20), Electorate);
            && tipped.Ok? && tipped.value.Some? && tipped.value.value.state == Succeeded
            && !AlwaysConfirmed(p, tipped.value.value, 10, config, end, YesVotePercentage(20))
  {
    hide AlwaysConfirmed;
    var tipped := TryTipVote(p, 10, Early, now, YesVotePercentage(20), Electorate).value.value;
    TipIsFinal(p, tipped, 10, Early, now, YesVotePercentage(20), config, end);
  }
}
