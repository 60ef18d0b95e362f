/**
 * The mint keeper: the module's slice of the keyed store (the params and the
 * minter at `MinterKey`), its genesis import and export, and the per-block
 * `EndBlocker` that updates them in place.
 */
module MintKeeper {
  import opened Results
  import opened FixedPoint
  import opened MintTypes
  import opened Emission

  class Keeper {
    /** The parameter subspace. */
    var params: Params
    /** The value stored at `MinterKey`, `None` while nothing is stored there. */
    var minter: Option<Minter>
    /** Whole units credited to the community pool by this module. */
    var communityPool: int
    /** Whole units routed to bonded-stake rewards by this module. */
    var stakingRewards: int

    /** The keeper's state as the value the emission step works on. */
    function State(): MintState
      reads this
    {
      MintState(params, minter, communityPool, stakingRewards)
    }

    /** A keeper over a fresh store: no minter, empty pools, default params. */
    constructor ()
      ensures params == DefaultParams() && minter == None
      ensures communityPool == 0 && stakingRewards == 0
    {
      params := DefaultParams();
      minter := None;
      communityPool := 0;
      stakingRewards := 0;
    }

    method GetParams() returns (p: Params)
      ensures p == params
    {
      p := params;
    }

    method SetParams(p: Params)
      modifies this`params
      ensures params == p
    {
      params := p;
    }

    /** `GetNextReductionTime`: the next-reduction field of the stored params. */
    method GetNextReductionTime() returns (t: int)
      ensures t == params.nextRewardsReductionTime
    {
      var p := GetParams();
      t := p.nextRewardsReductionTime;
    }

    /** `SetNextReductionTime`: a read-modify-write of the params changing that field alone. */
    method SetNextReductionTime(t: int)
      modifies this`params
      ensures params == old(params).(nextRewardsReductionTime := t)
      ensures params.nextRewardsReductionTime == t
    {
      var p := GetParams();
      p := p.(nextRewardsReductionTime := t);
      SetParams(p);
    }

    /** `GetMinter`: panics when nothing is stored at `MinterKey`. */
    method GetMinter() returns (r: Result<Minter, Panic>)
      ensures minter.Some? ==> r == Ok(minter.value)
      ensures minter.None? ==> r == Err(MinterNotSet)
    {
      if minter.None? {
        return Err(MinterNotSet);
      }
      r := Ok(minter.value);
    }

    /** `SetMinter`: a later `GetMinter` returns exactly this minter. */
    method SetMinter(m: Minter)
      modifies this`minter
      ensures minter == Some(m)
    {
      minter := Some(m);
    }

    /**
     * `InitGenesis`: an absent genesis state panics before anything is
     * written. Otherwise the minter starts at the genesis daily provisions,
     * with last mint time 0 unless the import's block time is strictly after
     * the distribution start time (a re-import mid-schedule), and the params
     * are stored as given.
     */
    method InitGenesis(data: Option<GenesisState>, blockTime: int) returns (o: Outcome<Panic>)
      modifies this`params, this`minter
      ensures data.None? ==> o == Fail(EmptyGenesisState) && params == old(params) && minter == old(minter)
      ensures data.Some? ==> o == Pass && params == data.value.params
      ensures data.Some? ==> (
        && minter.Some?
        && minter.value.dailyProvisions == data.value.params.genesisDailyProvisions
        && (blockTime <= data.value.params.mintingRewardsDistributionStartTime ==> minter.value.lastMintTime == 0)
        && (blockTime > data.value.params.mintingRewardsDistributionStartTime ==> minter.value.lastMintTime == blockTime))
    {
      if data.None? {
        return Fail(EmptyGenesisState);
      }
      var p := data.value.params;
      var lastMintTime := 0;
      if blockTime > p.mintingRewardsDistributionStartTime {
        lastMintTime := blockTime;
      }
      SetMinter(Minter(p.genesisDailyProvisions, lastMintTime));
      SetParams(p);
      SetNextReductionTime(p.nextRewardsReductionTime);
      o := Pass;
    }

    /** `ExportGenesis`: the stored params and nothing of the minter. */
    method ExportGenesis() returns (g: GenesisState)
      ensures g.params == params
    {
      var p := GetParams();
      g := GenesisState(p);
    }

    /**
     * `EndBlocker`: one block of the emission schedule, applied to the
     * store and the pools in place; a panic leaves everything as it was.
     */
    method EndBlocker(blockTime: int) returns (o: Outcome<Panic>)
      modifies this
      ensures var r := EndBlock(old(State()), blockTime);
        && (r.Ok? ==> o == Pass && State() == r.value)
        && (r.Err? ==> o == Fail(r.error) && State() == old(State()))
      ensures blockTime < old(params.mintingRewardsDistributionStartTime) ==> o == Pass && State() == old(State())
      ensures o.Pass? && blockTime >= old(params.mintingRewardsDistributionStartTime) ==>
        minter.Some? && minter.value.lastMintTime == blockTime
      ensures o.Pass? && old(minter).Some? && old(minter).value.lastMintTime == 0 ==>
        && minter.Some? && minter.value.dailyProvisions == old(minter).value.dailyProvisions
        && params == old(params) && communityPool == old(communityPool) && stakingRewards == old(stakingRewards)
      ensures o.Pass? && blockTime >= old(params.mintingRewardsDistributionStartTime)
              && old(minter).Some? && old(minter).value.lastMintTime != 0
              && blockTime >= old(params.nextRewardsReductionTime) ==>
        && minter.Some? && minter.value.dailyProvisions == Mul(old(minter).value.dailyProvisions, old(params.reductionFactor))
        && params == old(params).(nextRewardsReductionTime := blockTime + old(params.reductionPeriodInSeconds))
    {
      var p := GetParams();
      if blockTime < p.mintingRewardsDistributionStartTime {
        return Pass;
      }
      var got := GetMinter();
      if got.Err? {
        return Fail(got.error);
      }
      var m := got.value;
      if m.lastMintTime == 0 {
        SetMinter(m.(lastMintTime := blockTime));
        return Pass;
      }
      var reduce := blockTime >= p.nextRewardsReductionTime;
      var rate := m.dailyProvisions;
      if reduce {
        rate := Mul(rate, p.reductionFactor);
      }
      var minted := MintedAmount(rate, blockTime - m.lastMintTime);
      var toStaking := StakingShare(minted, p.distributionProportions.staking);
      var toCommunity := minted - toStaking;
      if minted < 0 || toStaking < 0 || toCommunity < 0 {
        return Fail(NegativeCoinAmount);
      }
      if reduce {
        SetNextReductionTime(blockTime + p.reductionPeriodInSeconds);
      }
      stakingRewards := stakingRewards + toStaking;
      communityPool := communityPool + toCommunity;
      SetMinter(Minter(rate, blockTime));
      o := Pass;
    }
  }

  /**
   * The params-store round trip of the keeper tests: what `SetParams`
   * stores, `GetParams` returns.
   */
  method ParamsGetSet(p: Params) returns (got: Params)
    ensures got == p
  {
    var k := new Keeper();
    k.SetParams(p);
    got := k.GetParams();
  }

  /**
   * Exporting and importing into a fresh store resets the minter: its rate
   * is the genesis daily provisions, whatever rate the exporting keeper had
   * reached, and its last mint time follows the start-time rule.
   */
  method ReimportExported(k: Keeper, blockTime: int) returns (m: Result<Minter, Panic>)
    ensures m.Ok? && m.value.dailyProvisions == k.params.genesisDailyProvisions
    ensures m.value.lastMintTime ==
      if blockTime > k.params.mintingRewardsDistributionStartTime then blockTime else 0
  {
    var g := k.ExportGenesis();
    var imported := new Keeper();
    var o := imported.InitGenesis(Some(g), blockTime);
    m := imported.GetMinter();
  }

  /** The test's daily rate: the default genesis provisions, 821917 ACRE. */
  const TestRate: int := 821_917 * DecimalReduction * Precision

  /** The test's reduction factor (0.66) and staking share (0.2). */
  const TestFactor: int := 660_000_000_000_000_000
  const TestStaking: int := 200_000_000_000_000_000

  /**
   * The test's one-second mint at the full rate: 9512928240740740740 units,
   * of which 7610342592592592592 go to the community pool.
   */
  lemma OneSecondAtFullRate()
    ensures MintedAmount(TestRate, 1) == 9_512_928_240_740_740_740
    ensures MintedAmount(TestRate, 1) - StakingShare(MintedAmount(TestRate, 1), TestStaking)
            == 7_610_342_592_592_592_592
  {
    WholeTimesFraction(9_512_928_240_740_740_740, TestStaking);
  }

  /**
   * The test's boundary block: the reduced rate is exactly 0.66 of the full
   * one, and 998 seconds at that rate add 5012780458888888888889 units to
   * the community pool (at the full rate it would have been about 1.5 times as much).
   */
  lemma BoundaryBlockAtReducedRate()
    ensures Mul(TestRate, TestFactor) == 542_465_220_000 * Precision * Precision / 1_000_000
    ensures MintedAmount(Mul(TestRate, TestFactor), 998) == 6_265_975_573_611_111_111_111
    ensures var minted := MintedAmount(Mul(TestRate, TestFactor), 998);
      minted - StakingShare(minted, TestStaking) == 5_012_780_458_888_888_888_889
  {
    assert TestRate * TestFactor == (542_465_220_000 * Precision * Precision / 1_000_000) * Precision;
    WholeTimesFraction(6_265_975_573_611_111_111_111, TestStaking);
  }

  /**
   * Why the boundary block reduces before it mints: 998 seconds at the full
   * rate would add 7595121907407407407408 units to the community pool, and
   * the pool would end at 7602732250000000000000, not at the test's figure.
   */
  lemma MintBeforeReduceMissesFourthBlock()
    ensures var minted := MintedAmount(TestRate, 998);
      && minted == 9_493_902_384_259_259_259_259
      && minted - StakingShare(minted, TestStaking) == 7_595_121_907_407_407_407_408
      && 7_610_342_592_592_592_592 + (minted - StakingShare(minted, TestStaking))
         == 7_602_732_250_000_000_000_000
      && 7_602_732_250_000_000_000_000 != 5_020_390_801_481_481_481_481
  {
    WholeTimesFraction(9_493_902_384_259_259_259_259, TestStaking);
  }

  /** The parameters the `EndBlocker` test stores, with `now` in place of the clock. */
  function TestParams(now: int): Params
  {
    Params("aacre", TestRate, 1000, TestFactor, DistributionProportions(TestStaking), now + 1000, now + 1)
  }

  /** The test's third block, one second after the first active one. */
  lemma TestThirdBlock(now: int)
    requires now >= 0
    ensures EndBlock(MintState(TestParams(now), Some(Minter(TestRate, now + 2)), 0, 0), now + 3)
         == Ok(MintState(TestParams(now), Some(Minter(TestRate, now + 3)),
                         7_610_342_592_592_592_592, 1_902_585_648_148_148_148))
  {
    OneSecondAtFullRate();
  }

  /** The test's fourth block, past the reduction boundary. */
  lemma TestFourthBlock(now: int, pool: int, rewards: int)
    requires now >= 0
    ensures EndBlock(MintState(TestParams(now), Some(Minter(TestRate, now + 3)), pool, rewards), now + 1001)
         == Ok(MintState(TestParams(now).(nextRewardsReductionTime := now + 2001),
                         Some(Minter(Mul(TestRate, TestFactor), now + 1001)),
                         pool + 5_012_780_458_888_888_888_889, rewards + 1_253_195_114_722_222_222_222))
  {
    BoundaryBlockAtReducedRate();
  }

  /**
   * The keeper test of `EndBlocker`, with `now` in place of the clock. The
   * reduction boundary is `now + 1000`, distribution starts at `now + 1`,
   * the factor is 0.66 and the staking share 0.2. Returns the community pool
   * after the third and the fourth block.
   */
  method TestEndBlocker(now: int) returns (poolAfterThird: int, poolAfterFourth: int)
    requires now >= 0
    ensures poolAfterThird == 7_610_342_592_592_592_592
    ensures poolAfterFourth == 5_020_390_801_481_481_481_481
  {
    var params := Params("aacre", DefaultParams().genesisDailyProvisions, 1000, NewDecWithPrec(66, 2),
                         DistributionProportions(NewDecWithPrec(2, 1)), now + 1000, now + 1);
    assert Pow10(16) == 10_000_000_000_000_000 && Pow10(17) == 100_000_000_000_000_000;
    assert params == TestParams(now);
    var k := new Keeper();
    var o := k.InitGenesis(Some(DefaultGenesisState()), 0);
    k.SetParams(params);

    // at genesis
    var genesis := MintState(params, Some(Minter(TestRate, 0)), 0, 0);
    assert k.State() == genesis;
    var m := k.GetMinter();
    assert m == Ok(Minter(TestRate, 0));

    // before the start time: nothing changes
    BeforeStartIsNoop(genesis, now);
    o := k.EndBlocker(now);
    assert k.State() == genesis;
    m := k.GetMinter();
    assert m == Ok(Minter(TestRate, 0));
    var reductionTime := k.GetNextReductionTime();
    assert reductionTime == now + 1000;

    // first active block: only the last mint time moves
    var stamped := MintState(params, Some(Minter(TestRate, now + 2)), 0, 0);
    FirstActiveBlockOnlyStamps(genesis, now + 2);
    o := k.EndBlocker(now + 2);
    assert k.State() == stamped;
    m := k.GetMinter();
    assert m == Ok(Minter(TestRate, now + 2));
    reductionTime := k.GetNextReductionTime();
    assert reductionTime == now + 1000 && k.communityPool == 0;

    // one second later: a pro-rated mint at the full rate
    TestThirdBlock(now);
    o := k.EndBlocker(now + 3);
    assert k.State() == MintState(params, Some(Minter(TestRate, now + 3)),
                                  7_610_342_592_592_592_592, 1_902_585_648_148_148_148);
    m := k.GetMinter();
    assert m == Ok(Minter(TestRate, now + 3));
    reductionTime := k.GetNextReductionTime();
    assert reductionTime == now + 1000;
    poolAfterThird := k.communityPool;

    // past the reduction boundary: reduced rate, moved boundary, mint at the reduced rate
    TestFourthBlock(now, 7_610_342_592_592_592_592, 1_902_585_648_148_148_148);
    o := k.EndBlocker(now + 1001);
    assert k.State() == MintState(params.(nextRewardsReductionTime := now + 2001),
                                  Some(Minter(Mul(TestRate, TestFactor), now + 1001)),
                                  5_020_390_801_481_481_481_481,
                                  1_902_585_648_148_148_148 + 1_253_195_114_722_222_222_222);
    m := k.GetMinter();
    assert m == Ok(Minter(Mul(TestRate, params.reductionFactor), now + 1001));
    reductionTime := k.GetNextReductionTime();
    assert reductionTime == now + 1001 + 1000;
    var stored := k.GetParams();
    assert stored.nextRewardsReductionTime == reductionTime;
    poolAfterFourth := k.communityPool;
  }
}
