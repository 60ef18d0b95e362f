/**
 * The per-block emission step (`EndBlocker`) as a function of the mint
 * module's state and the block time, and what it guarantees over one block
 * and over a run of blocks.
 */
module Emission {
  import opened Results
  import opened FixedPoint
  import opened MintTypes

  const SecondsPerDay: nat := 86400

  /** A whole day's worth of decimal units: the divisor of the pro-rated mint. */
  const DayScale: nat := SecondsPerDay * Precision

  /** Conditions that abort a block or the genesis import (Go panics). */
  datatype Panic =
    | EmptyGenesisState
    | MinterNotSet
    | NegativeCoinAmount

  /**
   * What the step reads and writes: the parameters, the minter stored at
   * `MinterKey` (absent on a fresh store), and two counters standing for the
   * external pools: the community pool and the bonded-stake rewards.
   */
  datatype MintState = MintState(
    params: Params,
    minter: Option<Minter>,
    communityPool: int,
    stakingRewards: int)

  /**
   * The whole units minted for `elapsed` seconds at a daily rate of `rate`
   * (a decimal): the pro-rated amount rate * elapsed / 86400, truncated.
   */
  function MintedAmount(rate: int, elapsed: int): (m: int)
    ensures 0 <= rate * elapsed ==> 0 <= m && m * DayScale <= rate * elapsed < (m + 1) * DayScale
    ensures rate * elapsed < 0 ==> m < 0
  {
    (rate * elapsed) / DayScale
  }

  /**
   * The whole units of a mint routed to bonded-stake rewards:
   * the decimal product minted * staking, truncated.
   */
  function StakingShare(minted: int, staking: int): (s: int)
    ensures 0 <= minted && 0 <= staking ==> 0 <= s && s * Precision <= minted * staking < (s + 1) * Precision
    ensures 0 <= minted && 0 <= staking <= Precision ==> s <= minted
  {
    WholeTimesFraction(minted, staking);
    TruncateInt(Mul(NewDec(minted), staking))
  }

  lemma WholeTimesFraction(minted: int, staking: int)
    ensures 0 <= minted && 0 <= staking ==> TruncateInt(Mul(NewDec(minted), staking)) == (minted * staking) / Precision
    ensures 0 <= minted && 0 <= staking <= Precision ==> minted * staking <= minted * Precision
  {
    if 0 <= minted && 0 <= staking {
      MulWholeIsExact(minted, staking);
      if staking <= Precision {
        assert minted * (Precision - staking) >= 0;
      }
    }
  }

  /** Whether a block at `blockTime` crosses the reduction boundary. */
  predicate Reduces(p: Params, blockTime: int)
  {
    blockTime >= p.nextRewardsReductionTime
  }

  /**
   * One `EndBlocker` call at `blockTime`.
   *  - Before the distribution start time nothing happens.
   *  - A missing minter aborts the block.
   *  - The first active block (last mint time 0) only records the block time.
   *  - Otherwise, at or past the reduction boundary the rate is first
   *    multiplied by the reduction factor and the boundary moves to
   *    blockTime + period; then the units for the elapsed seconds are minted at
   *    the (possibly reduced) rate, split between staking rewards and the
   *    community pool, and the block time is recorded. A negative coin amount
   *    aborts the block with no state written.
   */
  function EndBlock(s: MintState, blockTime: int): (r: Result<MintState, Panic>)
  {
    if blockTime < s.params.mintingRewardsDistributionStartTime then Ok(s)
    else if s.minter.None? then Err(MinterNotSet)
    else
      var m := s.minter.value;
      if m.lastMintTime == 0 then
        Ok(s.(minter := Some(m.(lastMintTime := blockTime))))
      else
        var reduce := Reduces(s.params, blockTime);
        var rate := if reduce then Mul(m.dailyProvisions, s.params.reductionFactor) else m.dailyProvisions;
        var params := if reduce
          then s.params.(nextRewardsReductionTime := blockTime + s.params.reductionPeriodInSeconds)
          else s.params;
        var minted := MintedAmount(rate, blockTime - m.lastMintTime);
        var toStaking := StakingShare(minted, s.params.distributionProportions.staking);
        var toCommunity := minted - toStaking;
        if minted < 0 || toStaking < 0 || toCommunity < 0 then Err(NegativeCoinAmount)
        else
          Ok(MintState(params, Some(Minter(rate, blockTime)),
                       s.communityPool + toCommunity, s.stakingRewards + toStaking))
  }

  /** The state after the `EndBlocker` calls at `times`, in order, stopping at the first panic. */
  function RunBlocks(s: MintState, times: seq<int>): (r: Result<MintState, Panic>)
    decreases |times|
  {
    if times == [] then Ok(s)
    else
      match EndBlock(s, times[0])
      case Err(e) => Err(e)
      case Ok(s') => RunBlocks(s', times[1..])
  }

  // ---------------------------------------------------------------------
  // One block

  /** A block before the distribution start time changes nothing. */
  lemma BeforeStartIsNoop(s: MintState, blockTime: int)
    requires blockTime < s.params.mintingRewardsDistributionStartTime
    ensures EndBlock(s, blockTime) == Ok(s)
  {
  }

  /**
   * The first active block records its time and leaves the rate, the
   * parameters and both pools as they were.
   */
  lemma FirstActiveBlockOnlyStamps(s: MintState, blockTime: int)
    requires blockTime >= s.params.mintingRewardsDistributionStartTime
    requires s.minter.Some? && s.minter.value.lastMintTime == 0
    ensures EndBlock(s, blockTime).Ok?
    ensures var s' := EndBlock(s, blockTime).value;
      && s'.minter == Some(Minter(s.minter.value.dailyProvisions, blockTime))
      && s'.params == s.params
      && s'.communityPool == s.communityPool && s'.stakingRewards == s.stakingRewards
  {
  }

  /** After every successful active block, the last mint time is that block's time. */
  lemma ActiveBlockRecordsTime(s: MintState, blockTime: int)
    requires blockTime >= s.params.mintingRewardsDistributionStartTime
    requires EndBlock(s, blockTime).Ok?
    ensures var s' := EndBlock(s, blockTime).value;
      s'.minter.Some? && s'.minter.value.lastMintTime == blockTime
  {
  }

  /**
   * A block only ever changes the next reduction time among the parameters;
   * in particular the start time stays put.
   */
  lemma ParamsChangeOnlyInNextReductionTime(s: MintState, blockTime: int)
    requires EndBlock(s, blockTime).Ok?
    ensures var p' := EndBlock(s, blockTime).value.params;
      p' == s.params.(nextRewardsReductionTime := p'.nextRewardsReductionTime)
  {
  }

  /**
   * At or past the boundary, exactly one reduction happens however far the
   * boundary was overshot, and the new boundary lies one period after the
   * block; before it, neither the rate nor the boundary moves. The mint uses
   * the rate after the reduction.
   */
  lemma SingleReductionAtBoundary(s: MintState, blockTime: int)
    requires blockTime >= s.params.mintingRewardsDistributionStartTime
    requires s.minter.Some? && s.minter.value.lastMintTime != 0
    requires EndBlock(s, blockTime).Ok?
    ensures var s' := EndBlock(s, blockTime).value;
      var rate := s.minter.value.dailyProvisions;
      var p := s.params;
      && (blockTime >= p.nextRewardsReductionTime ==>
            && s'.minter.value.dailyProvisions == Mul(rate, p.reductionFactor)
            && s'.params.nextRewardsReductionTime == blockTime + p.reductionPeriodInSeconds)
      && (blockTime < p.nextRewardsReductionTime ==>
            && s'.minter.value.dailyProvisions == rate
            && s'.params.nextRewardsReductionTime == p.nextRewardsReductionTime)
      && (s'.communityPool - s.communityPool) + (s'.stakingRewards - s.stakingRewards)
         == MintedAmount(s'.minter.value.dailyProvisions, blockTime - s.minter.value.lastMintTime)
  {
  }

  /**
   * With a positive period, the boundary a reducing block sets lies strictly
   * after it, so a second block at the same time does not reduce again.
   */
  lemma ReductionMovesBoundaryPastBlock(s: MintState, blockTime: int)
    requires 0 < s.params.reductionPeriodInSeconds
    requires blockTime >= s.params.mintingRewardsDistributionStartTime
    requires s.minter.Some? && s.minter.value.lastMintTime != 0
    requires Reduces(s.params, blockTime)
    requires EndBlock(s, blockTime).Ok?
    ensures !Reduces(EndBlock(s, blockTime).value.params, blockTime)
  {
  }

  /**
   * A block succeeds whenever the stored state is sane: a minter with a
   * non-negative rate, a block time not before the last mint, a factor in
   * [0, 1] and a staking share in [0, 1]. Its mint is split without loss:
   * both pools grow, and together by exactly the minted amount.
   */
  lemma ActiveBlockMintsAndSplits(s: MintState, blockTime: int)
    requires s.minter.Some? && 0 <= s.minter.value.dailyProvisions
    requires s.minter.value.lastMintTime <= blockTime
    requires 0 <= s.params.reductionFactor <= Precision
    requires 0 <= s.params.distributionProportions.staking <= Precision
    ensures EndBlock(s, blockTime).Ok?
    ensures var s' := EndBlock(s, blockTime).value;
      && s.communityPool <= s'.communityPool
      && s.stakingRewards <= s'.stakingRewards
      && 0 <= s'.minter.value.dailyProvisions <= s.minter.value.dailyProvisions
    ensures var s' := EndBlock(s, blockTime).value;
      (blockTime >= s.params.mintingRewardsDistributionStartTime && s.minter.value.lastMintTime != 0) ==>
        (s'.communityPool - s.communityPool) + (s'.stakingRewards - s.stakingRewards)
        == MintedAmount(s'.minter.value.dailyProvisions, blockTime - s.minter.value.lastMintTime)
  {
    var m := s.minter.value;
    if blockTime >= s.params.mintingRewardsDistributionStartTime && m.lastMintTime != 0 {
      var reduce := Reduces(s.params, blockTime);
      var rate := if reduce then Mul(m.dailyProvisions, s.params.reductionFactor) else m.dailyProvisions;
      if reduce {
        MulByFractionBounded(m.dailyProvisions, s.params.reductionFactor);
      }
      var elapsed := blockTime - m.lastMintTime;
      assert 0 <= rate * elapsed;
    }
  }

  /**
   * A successful block never lowers either pool, and with a factor in
   * [0, 1] it never raises the rate or makes it negative.
   */
  lemma SuccessfulBlockIsMonotone(s: MintState, blockTime: int)
    requires EndBlock(s, blockTime).Ok?
    requires s.minter.Some? && 0 <= s.minter.value.dailyProvisions
    requires 0 <= s.params.reductionFactor <= Precision
    ensures var s' := EndBlock(s, blockTime).value;
      && s.communityPool <= s'.communityPool
      && s.stakingRewards <= s'.stakingRewards
      && s'.minter.Some? && 0 <= s'.minter.value.dailyProvisions <= s.minter.value.dailyProvisions
  {
    var m := s.minter.value;
    if blockTime >= s.params.mintingRewardsDistributionStartTime && m.lastMintTime != 0
       && Reduces(s.params, blockTime) {
      MulByFractionBounded(m.dailyProvisions, s.params.reductionFactor);
    }
  }

  // ---------------------------------------------------------------------
  // A run of blocks

  /** A successful run's first block succeeds, and the rest of the run starts from its state. */
  lemma RunBlocksFirstStep(s: MintState, times: seq<int>)
    requires times != [] && RunBlocks(s, times).Ok?
    ensures EndBlock(s, times[0]).Ok?
    ensures RunBlocks(s, times) == RunBlocks(EndBlock(s, times[0]).value, times[1..])
  {
  }

  /**
   * After any run of blocks that succeeds and whose last block is active, the
   * last mint time equals the last block's time.
   */
  lemma {:induction false} RunBlocksRecordsLastTime(s: MintState, times: seq<int>)
    requires |times| > 0
    requires times[|times| - 1] >= s.params.mintingRewardsDistributionStartTime
    requires RunBlocks(s, times).Ok?
    ensures var s' := RunBlocks(s, times).value;
      s'.minter.Some? && s'.minter.value.lastMintTime == times[|times| - 1]
    decreases |times|
  {
    RunBlocksFirstStep(s, times);
    var s1 := EndBlock(s, times[0]).value;
    ParamsChangeOnlyInNextReductionTime(s, times[0]);
    if |times| == 1 {
      assert RunBlocks(s1, times[1..]) == Ok(s1);
      ActiveBlockRecordsTime(s, times[0]);
    } else {
      assert times[1..][|times[1..]| - 1] == times[|times| - 1];
      RunBlocksRecordsLastTime(s1, times[1..]);
    }
  }

  /**
   * Over any successful run of blocks, neither pool shrinks and, with a
   * factor in [0, 1], the daily rate stays between zero and where it started.
   */
  lemma {:induction false} RunBlocksIsMonotone(s: MintState, times: seq<int>)
    requires s.minter.Some? && 0 <= s.minter.value.dailyProvisions
    requires 0 <= s.params.reductionFactor <= Precision
    requires RunBlocks(s, times).Ok?
    ensures var s' := RunBlocks(s, times).value;
      && s.communityPool <= s'.communityPool
      && s.stakingRewards <= s'.stakingRewards
      && s'.minter.Some? && 0 <= s'.minter.value.dailyProvisions <= s.minter.value.dailyProvisions
    decreases |times|
  {
    if times != [] {
      RunBlocksFirstStep(s, times);
      var s1 := EndBlock(s, times[0]).value;
      SuccessfulBlockIsMonotone(s, times[0]);
      ParamsChangeOnlyInNextReductionTime(s, times[0]);
      RunBlocksIsMonotone(s1, times[1..]);
    }
  }
}
