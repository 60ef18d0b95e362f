/**
 * The mint module's types: its parameters, their validation and defaults,
 * the minter record and the genesis state.
 */
module MintTypes {
  import opened Results
  import opened FixedPoint

  /** `config.DecimalReduction`: base units per whole ACRE (10^18). */
  const DecimalReduction: nat := 1_000_000_000_000_000_000

  /** `sdk.DefaultBondDenom`. */
  const DefaultBondDenom: string := "stake"

  const SecondsPerYear: nat := 86400 * 365

  /** Share of each mint that goes to bonded-stake rewards; the rest goes to the community pool. */
  datatype DistributionProportions = DistributionProportions(staking: int)

  /**
   * Decimal fields (`genesisDailyProvisions`, `reductionFactor`,
   * `distributionProportions.staking`) are `Dec`s scaled by 10^18; the
   * daily provisions are counted in base units. Times are unix seconds.
   */
  datatype Params = Params(
    mintDenom: string,
    genesisDailyProvisions: int,
    reductionPeriodInSeconds: int,
    reductionFactor: int,
    distributionProportions: DistributionProportions,
    nextRewardsReductionTime: int,
    mintingRewardsDistributionStartTime: int)

  /** The runtime minting state: the current daily rate and the time of the last mint (0: none yet). */
  datatype Minter = Minter(dailyProvisions: int, lastMintTime: int)

  /** What the mint module imports and exports at genesis: its parameters only. */
  datatype GenesisState = GenesisState(params: Params)

  /** One error per check a parameter can fail. */
  datatype ParamError =
    | BlankMintDenom
    | InvalidDenom(denom: string)
    | NegativeGenesisDailyProvisions
    | NonPositiveReductionPeriod(period: int)
    | ReductionFactorAboveOne
    | NegativeReductionFactor
    | NegativeStakingProportion
    | NegativeNextReductionTime
    | NegativeStartTime

  /** `NewParams`: note that the factor comes before the period in its argument list. */
  function NewParams(
    mintDenom: string, genesisDailyProvisions: int,
    reductionFactor: int, reductionPeriodInSeconds: int, distrProportions: DistributionProportions,
    nextRewardsReductionTime: int,
    mintingRewardsDistributionStartTime: int): (p: Params)
    ensures p.mintDenom == mintDenom && p.genesisDailyProvisions == genesisDailyProvisions
    ensures p.reductionFactor == reductionFactor && p.reductionPeriodInSeconds == reductionPeriodInSeconds
    ensures p.distributionProportions == distrProportions
    ensures p.nextRewardsReductionTime == nextRewardsReductionTime
    ensures p.mintingRewardsDistributionStartTime == mintingRewardsDistributionStartTime
  {
    Params(mintDenom, genesisDailyProvisions, reductionPeriodInSeconds, reductionFactor,
           distrProportions, nextRewardsReductionTime, mintingRewardsDistributionStartTime)
  }

  /**
   * `DefaultParams`: 821917 ACRE a day (about 300 million a year), a one-year
   * reduction period, a factor of 0.6666, a quarter of each mint to stakers,
   * and both times at 0.
   */
  function DefaultParams(): (p: Params)
    ensures p.mintDenom == DefaultBondDenom
    ensures p.genesisDailyProvisions == 821_917 * DecimalReduction * Precision
    ensures p.reductionPeriodInSeconds == SecondsPerYear
    ensures p.reductionFactor * 10_000 == 6666 * Precision
    ensures p.distributionProportions.staking * 4 == Precision
    ensures p.nextRewardsReductionTime == 0 && p.mintingRewardsDistributionStartTime == 0
  {
    var reductionDec := NewDec(DecimalReduction);
    assert Pow10(14) == 100_000_000_000_000 && Pow10(16) == 10_000_000_000_000_000;
    Params(
      DefaultBondDenom,
      Mul(NewDec(821_917), reductionDec),
      31536000,
      NewDecWithPrec(6666, 4),
      DistributionProportions(NewDecWithPrec(25, 2)),
      0,
      0)
  }

  /** `DefaultGenesisState`: the default parameters. */
  function DefaultGenesisState(): (g: GenesisState)
    ensures g.params == DefaultParams()
  {
    GenesisState(DefaultParams())
  }

  // ---------------------------------------------------------------------
  // Denomination checks

  /** `unicode.IsSpace`: the white-space code points Go's `strings.TrimSpace` removes. */
  predicate IsSpace(c: char)
  {
    c == '\t' || c == '\n' || c == '\U{B}' || c == '\U{C}' || c == '\r' || c == ' '
    || c == '\U{85}' || c == '\U{A0}' || c == '\U{1680}'
    || ('\U{2000}' <= c <= '\U{200A}')
    || c == '\U{2028}' || c == '\U{2029}' || c == '\U{202F}' || c == '\U{205F}' || c == '\U{3000}'
  }

  function TrimLeftSpace(s: string): (r: string)
    ensures |r| <= |s|
  {
    if |s| > 0 && IsSpace(s[0]) then TrimLeftSpace(s[1..]) else s
  }

  function TrimRightSpace(s: string): (r: string)
    ensures |r| <= |s|
  {
    if |s| > 0 && IsSpace(s[|s| - 1]) then TrimRightSpace(s[..|s| - 1]) else s
  }

  /** `strings.TrimSpace`: drop leading and trailing white space. */
  function TrimSpace(s: string): (r: string)
  {
    TrimRightSpace(TrimLeftSpace(s))
  }

  /** Every character is white space (the empty string included). */
  predicate IsBlank(s: string)
  {
    forall i :: 0 <= i < |s| ==> IsSpace(s[i])
  }

  lemma {:induction false} TrimLeftSpaceEmpty(s: string)
    ensures TrimLeftSpace(s) == [] <==> IsBlank(s)
  {
    if |s| > 0 && IsSpace(s[0]) {
      TrimLeftSpaceEmpty(s[1..]);
      assert IsBlank(s) <==> IsBlank(s[1..]) by {
        if IsBlank(s[1..]) {
          forall i | 0 <= i < |s| ensures IsSpace(s[i]) {
            if i > 0 { assert s[i] == s[1..][i - 1]; }
          }
        }
        if IsBlank(s) {
          forall i | 0 <= i < |s[1..]| ensures IsSpace(s[1..][i]) {
            assert s[1..][i] == s[i + 1];
          }
        }
      }
    } else if |s| > 0 {
      assert !IsSpace(s[0]);
    }
  }

  /** A string without leading white space trims to nothing exactly when it is empty. */
  lemma {:induction false} TrimRightSpaceKeepsNonSpaceHead(s: string)
    requires |s| > 0 && !IsSpace(s[0])
    ensures TrimRightSpace(s) != []
  {
    if IsSpace(s[|s| - 1]) {
      assert |s| > 1;
      assert s[..|s| - 1][0] == s[0];
      TrimRightSpaceKeepsNonSpaceHead(s[..|s| - 1]);
    }
  }

  lemma {:induction false} TrimLeftSpaceHead(s: string)
    ensures var r := TrimLeftSpace(s); |r| > 0 ==> !IsSpace(r[0])
  {
    if |s| > 0 && IsSpace(s[0]) {
      TrimLeftSpaceHead(s[1..]);
    }
  }

  /** `strings.TrimSpace(s) == ""` holds exactly for the blank strings. */
  lemma TrimSpaceEmptyIffBlank(s: string)
    ensures TrimSpace(s) == "" <==> IsBlank(s)
  {
    TrimLeftSpaceEmpty(s);
    TrimLeftSpaceHead(s);
    var l := TrimLeftSpace(s);
    if l != [] {
      TrimRightSpaceKeepsNonSpaceHead(l);
    }
  }

  predicate IsAsciiLetter(c: char)
  {
    'a' <= c <= 'z' || 'A' <= c <= 'Z'
  }

  predicate IsDenomChar(c: char)
  {
    IsAsciiLetter(c) || '0' <= c <= '9' || c == '/' || c == ':' || c == '.' || c == '_' || c == '-'
  }

  /**
   * The SDK's denomination syntax (`sdk.ValidateDenom`): a letter followed by
   * 2 to 127 letters, digits or one of `/ : . _ -`.
   */
  predicate IsValidDenomSyntax(s: string)
  {
    3 <= |s| <= 128 && IsAsciiLetter(s[0]) && forall i :: 1 <= i < |s| ==> IsDenomChar(s[i])
  }

  // ---------------------------------------------------------------------
  // The seven field checks

  /** A blank denomination is reported as blank; otherwise it must satisfy the SDK syntax. */
  function ValidateMintDenom(v: string): (r: Outcome<ParamError>)
    ensures r.Pass? <==> !IsBlank(v) && IsValidDenomSyntax(v)
    ensures IsBlank(v) ==> r == Fail(BlankMintDenom)
    ensures !IsBlank(v) && !IsValidDenomSyntax(v) ==> r == Fail(InvalidDenom(v))
  {
    TrimSpaceEmptyIffBlank(v);
    if TrimSpace(v) == "" then Fail(BlankMintDenom)
    else if !IsValidDenomSyntax(v) then Fail(InvalidDenom(v))
    else Pass
  }

  /** Zero daily provisions are accepted; only a negative amount is rejected. */
  function ValidateGenesisDailyProvisions(v: int): (r: Outcome<ParamError>)
    ensures r.Pass? <==> 0 <= v
    ensures r.Fail? ==> r.error == NegativeGenesisDailyProvisions
  {
    if v < 0 then Fail(NegativeGenesisDailyProvisions) else Pass
  }

  /** The reduction period must be strictly positive. */
  function ValidateReductionPeriodInSeconds(v: int): (r: Outcome<ParamError>)
    ensures r.Pass? <==> 0 < v
    ensures r.Fail? ==> r.error == NonPositiveReductionPeriod(v)
  {
    if v <= 0 then Fail(NonPositiveReductionPeriod(v)) else Pass
  }

  /** The factor must lie in [0, 1], both ends included; "above one" is checked first. */
  function ValidateReductionFactor(v: int): (r: Outcome<ParamError>)
    ensures r.Pass? <==> 0 <= v <= NewDec(1)
    ensures v > NewDec(1) ==> r == Fail(ReductionFactorAboveOne)
    ensures v < 0 ==> r == Fail(NegativeReductionFactor)
  {
    if v > NewDec(1) then Fail(ReductionFactorAboveOne)
    else if v < 0 then Fail(NegativeReductionFactor)
    else Pass
  }

  /** Only a negative staking share is rejected: there is no upper bound. */
  function ValidateDistributionProportions(v: DistributionProportions): (r: Outcome<ParamError>)
    ensures r.Pass? <==> 0 <= v.staking
    ensures r.Fail? ==> r.error == NegativeStakingProportion
  {
    if v.staking < 0 then Fail(NegativeStakingProportion) else Pass
  }

  function ValidateNextRewardsReductionTime(v: int): (r: Outcome<ParamError>)
    ensures r.Pass? <==> 0 <= v
    ensures r.Fail? ==> r.error == NegativeNextReductionTime
  {
    if v < 0 then Fail(NegativeNextReductionTime) else Pass
  }

  function ValidateMintingRewardsDistributionStartTime(v: int): (r: Outcome<ParamError>)
    ensures r.Pass? <==> 0 <= v
    ensures r.Fail? ==> r.error == NegativeStartTime
  {
    if v < 0 then Fail(NegativeStartTime) else Pass
  }

  // ---------------------------------------------------------------------
  // Validate

  /** The field checks, in the order `Validate` applies them. */
  function Checks(p: Params): (cs: seq<Outcome<ParamError>>)
    ensures |cs| == 7
  {
    [ ValidateMintDenom(p.mintDenom),
      ValidateGenesisDailyProvisions(p.genesisDailyProvisions),
      ValidateReductionPeriodInSeconds(p.reductionPeriodInSeconds),
      ValidateReductionFactor(p.reductionFactor),
      ValidateDistributionProportions(p.distributionProportions),
      ValidateNextRewardsReductionTime(p.nextRewardsReductionTime),
      ValidateMintingRewardsDistributionStartTime(p.mintingRewardsDistributionStartTime) ]
  }

  /** What valid parameters are, field by field. */
  predicate WellFormed(p: Params)
  {
    && !IsBlank(p.mintDenom) && IsValidDenomSyntax(p.mintDenom)
    && 0 <= p.genesisDailyProvisions
    && 0 < p.reductionPeriodInSeconds
    && 0 <= p.reductionFactor <= NewDec(1)
    && 0 <= p.distributionProportions.staking
    && 0 <= p.nextRewardsReductionTime
    && 0 <= p.mintingRewardsDistributionStartTime
  }

  /** `Params.Validate`: the checks in a fixed order, returning the first failure. */
  function Validate(p: Params): (r: Outcome<ParamError>)
    ensures r.Pass? <==> WellFormed(p)
  {
    var denom := ValidateMintDenom(p.mintDenom);
    if denom.Fail? then denom else
    var provisions := ValidateGenesisDailyProvisions(p.genesisDailyProvisions);
    if provisions.Fail? then provisions else
    var period := ValidateReductionPeriodInSeconds(p.reductionPeriodInSeconds);
    if period.Fail? then period else
    var factor := ValidateReductionFactor(p.reductionFactor);
    if factor.Fail? then factor else
    var proportions := ValidateDistributionProportions(p.distributionProportions);
    if proportions.Fail? then proportions else
    var next := ValidateNextRewardsReductionTime(p.nextRewardsReductionTime);
    if next.Fail? then next else
    ValidateMintingRewardsDistributionStartTime(p.mintingRewardsDistributionStartTime)
  }

  /**
   * `Validate` succeeds exactly when every check passes, and otherwise
   * reports the failure of the first check, in declaration order, that fails.
   */
  lemma ValidateReportsFirstFailure(p: Params)
    ensures Validate(p).Pass? <==> forall i :: 0 <= i < 7 ==> Checks(p)[i].Pass?
    ensures Validate(p).Fail? ==>
      exists i :: IsFirstFailing(Checks(p), (o: Outcome<ParamError>) => o.Pass?, i) && Validate(p) == Checks(p)[i]
  {
    var cs := Checks(p);
    var ok := (o: Outcome<ParamError>) => o.Pass?;
    if cs[0].Fail? {
      assert IsFirstFailing(cs, ok, 0);
    } else if cs[1].Fail? {
      assert IsFirstFailing(cs, ok, 1);
    } else if cs[2].Fail? {
      assert IsFirstFailing(cs, ok, 2);
    } else if cs[3].Fail? {
      assert IsFirstFailing(cs, ok, 3);
    } else if cs[4].Fail? {
      assert IsFirstFailing(cs, ok, 4);
    } else if cs[5].Fail? {
      assert IsFirstFailing(cs, ok, 5);
    } else if cs[6].Fail? {
      assert IsFirstFailing(cs, ok, 6);
    }
  }

  /** The defaults pass every check. */
  lemma DefaultParamsAreValid()
    ensures Validate(DefaultParams()) == Pass
  {
    var d := DefaultBondDenom;
    assert !IsSpace(d[0]);
    assert IsValidDenomSyntax(d) by {
      assert forall i :: 1 <= i < |d| ==> IsAsciiLetter(d[i]);
    }
  }

  /** A staking share above one passes validation (there is no upper bound). */
  lemma StakingAboveOneIsAccepted(s: int)
    requires s > NewDec(1)
    ensures ValidateDistributionProportions(DistributionProportions(s)) == Pass
  {
  }
}
