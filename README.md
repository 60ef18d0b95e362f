# Acrechain minting: genesis allocation and the emission schedule

A Dafny model of two consensus-critical parts of the Acrechain node and the
state rules around them.

- **Genesis supply allocator** (`PrepareGenesis`): every genesis validator
  is credited 120 ACRE, and the credits are summed as they are made. The
  strategic reserve gets the 350 million ACRE supply minus that sum. Each
  address gets one base account with account number 0 and sequence 0. The
  mint parameters are the defaults plus the launch schedule.
  Module `GenesisAllocator`, `genesis_allocator.dfy`.
- **Mint parameters** (`x/mint/types`): `NewParams`, `DefaultParams`, the
  seven field checks, and `Validate`, which returns the first failing
  check. Module `MintTypes`, `params.dfy`.
- **Mint keeper**: a class over the module's part of the keyed store. It
  holds the params, the minter at `MinterKey` (absent on a fresh store),
  and two counters for the external pools. It has getters and setters,
  `InitGenesis`, `ExportGenesis` and the per-block `EndBlocker`. Module
  `MintKeeper`, `keeper.dfy`.
- **Emission step**: `EndBlock` is the per-block step as a pure function
  of the state and the block time. `RunBlocks` applies it to a run of
  blocks. Lemmas state what one block and a run of blocks guarantee.
  Module `Emission`, `emission.dfy`.
- **Decimals**: an SDK `Dec` is an `int` d standing for d / 10^18. `Mul`
  rounds half to even at the 18th digit. Conversion to whole coin units
  truncates. Module `FixedPoint`, `fixed_point.dfy`.
  Module `Results`, `results.dfy`, holds the option, result and outcome
  types.

The `EndBlocker` implementation file is not part of this model. Its
behaviour is taken from the keeper test `x/mint/keeper/abci_test.go`:

- Before the distribution start time, a block does nothing.
- While the last mint time is 0, a block only records its own time.
- Each later block mints ⌊rate × elapsed / 86400⌋ whole units.
- Of that mint, ⌊minted × staking⌋ goes to staking rewards. The remainder
  goes to the community pool.
- At or past `NextRewardsReductionTime`, the rate is first multiplied by
  the reduction factor, and the boundary moves to block time + period.
  Minting then uses the reduced rate.

This formula reproduces both exact pool figures the test asserts:
7610342592592592592 and 5020390801481481481481. If the community share
were instead ⌊minted × 0.8⌋, the second figure would be one unit lower.
Minting at the full rate before reducing would add 7595121907407407407408
units at the boundary block, leaving the pool at 7602732250000000000000.
The test asserts 5020390801481481481481, so the model reduces first
(`MintKeeper.MintBeforeReduceMissesFourthBlock`).

The code has no guard against the validator credits exceeding the supply:
`Coins.Sub` at `cmd/acred/genesis.go:209` panics on a negative result. The
model returns `NegativeReserve` in that case.

Modelling assumptions:

- Block time is a parameter. In the test scenario, a symbolic `now` stands
  for the clock.
- Bech32 decoding and re-encoding are function parameters of the
  allocator.
- A block whose minted amount or either share would be negative panics
  and writes nothing. The SDK refuses negative coin amounts. This happens
  when the staking share is above 1 or when block time runs backwards.

## Model

| member | source | states |
|---|---|---|
| `GenesisAllocator.AllocateGenesis` | cmd/acred/genesis.go:116-210 | an undecodable reserve, or the first undecodable validator, is the error and nothing else is returned; otherwise it succeeds iff N × 120 ACRE ≤ supply (else `NegativeReserve`, the `Coins.Sub` panic); balances are the validators in list order with 120 ACRE each, then the reserve with supply − N × 120 ACRE; accounts are the reserve first, then the validators in order, all with number 0 and sequence 0; balances sum exactly to the supply |
| `GenesisAllocator.SumValidatorBalances` | cmd/acred/genesis.go:191-204 | the running total after the loop is N × 120 × 10^18 |
| `GenesisAllocator.GenesisMintParams` | cmd/acred/genesis.go:99-104 | mint params are the defaults except denom = base denom, start time 1671033600, next reduction 1676390400; every other field unchanged; they pass `Validate` |
| `GenesisAllocator.BaseDenomIsValid` | cmd/acred/genesis.go:102 | the base denomination is non-blank and satisfies the SDK denomination syntax |
| `GenesisAllocator.GenesisValidatorCount` | cmd/acred/genesis.go:127-189 | the list holds 61 validators, leaving 349,992,680 ACRE for the reserve |
| `GenesisAllocator.PrepareGenesis` | cmd/acred/genesis.go:88-210 | succeeds iff every address decodes and the credits fit in the supply; an undecodable reserve, or else the first undecodable validator, is the error returned, and credits beyond the supply give `NegativeReserve`; on success genesis time 1669042800, the genesis mint params, supply 350M ACRE, balances = the validators in list order with 120 ACRE each then the reserve's re-encoded address with the rest, summing to the supply; accounts = the decoded reserve first, then each validator's decoded address in list order, all with number 0 and sequence 0 |
| `GenesisAllocator.LaunchGenesis` | cmd/acred/genesis.go:120-210 | for the actual reserve and 61 validators: 62 balances, the reserve's being 349,992,680 × 10^18, all summing to 350,000,000 × 10^18 |
| `MintTypes.NewParams` | x/mint/types/params.go:31-47 | each argument lands in its own field (the factor is the third argument, the period the fourth) |
| `MintTypes.DefaultParams` | x/mint/types/params.go:49-63 | denom `stake`, provisions 821917 × 10^18 a day, period 31536000 s (365 days), factor 0.6666, staking 0.25, both times 0 |
| `MintTypes.DefaultGenesisState` | cmd/acred/genesis.go:100-101 | the default mint genesis state holds the default params |
| `MintTypes.TrimSpaceEmptyIffBlank` | x/mint/types/params.go:121 | `strings.TrimSpace(s) == ""` exactly when every character of s is white space (including s empty) |
| `MintTypes.ValidateMintDenom` | x/mint/types/params.go:115-129 | accepts iff non-blank and valid SDK denomination syntax; an empty or all-white-space denom gets the blank error, otherwise a syntax failure gets the invalid-denom error |
| `MintTypes.ValidateGenesisDailyProvisions` | x/mint/types/params.go:131-142 | rejects iff negative; zero is accepted |
| `MintTypes.ValidateReductionPeriodInSeconds` | x/mint/types/params.go:144-155 | accepts iff strictly positive |
| `MintTypes.ValidateReductionFactor` | x/mint/types/params.go:157-172 | accepts iff 0 ≤ f ≤ 1, both ends included; above 1 and negative get distinct errors |
| `MintTypes.ValidateDistributionProportions` | x/mint/types/params.go:174-185 | rejects iff the staking share is negative |
| `MintTypes.ValidateNextRewardsReductionTime` | x/mint/types/params.go:187-198 | rejects iff negative |
| `MintTypes.ValidateMintingRewardsDistributionStartTime` | x/mint/types/params.go:200-211 | rejects iff negative |
| `MintTypes.Validate` | x/mint/types/params.go:65-93 | passes iff every field meets its condition (the independent `WellFormed` predicate) |
| `MintTypes.ValidateReportsFirstFailure` | x/mint/types/params.go:67-93 | passes iff all seven checks pass; otherwise returns the failure of the first failing check in the order denom, provisions, period, factor, proportions, next reduction, start time |
| `MintTypes.DefaultParamsAreValid` | x/mint/types/params.go:49-63 | the defaults pass every check |
| `MintTypes.StakingAboveOneIsAccepted` | x/mint/types/params.go:180-182 | a staking share above 1 passes: there is no upper bound |
| `FixedPoint.Mul` | x/mint/types/params.go:54 | the decimal product is within half a unit in the 18th digit of the exact product, equals it when exact, and is non-negative for a non-negative product |
| `FixedPoint.TruncateInt` | x/mint/keeper/abci_test.go:72 | the whole part of a decimal, rounded toward zero |
| `FixedPoint.MulByFractionBounded` | x/mint/types/params.go:163-169 | a non-negative rate times a factor in [0, 1] stays in [0, rate] |
| `Emission.EndBlock` | x/mint/keeper/abci_test.go:10-88 | no contract of its own: the block step (pre-start no-op; missing minter panics; the first active block only records its time; otherwise reduce at the boundary, then mint for the elapsed time, split, record the time; a negative amount panics); its behaviour is stated by the lemmas below |
| `Emission.RunBlocks` | x/mint/keeper/abci_test.go:36-87 | no contract of its own: consecutive `EndBlocker` calls, stopping at the first panic; stated by `RunBlocksRecordsLastTime` and `RunBlocksIsMonotone` |
| `Emission.MintedAmount` | x/mint/keeper/abci_test.go:61-72 | the minted whole units are the largest m with m × 86400 × 10^18 ≤ rate × elapsed |
| `Emission.StakingShare` | x/mint/keeper/abci_test.go:61-72 | the staking share is ⌊minted × staking⌋, and at most the mint when staking ≤ 1 |
| `Emission.BeforeStartIsNoop` | x/mint/keeper/abci_test.go:36-46 | a block before the start time leaves the minter, params and both pools unchanged |
| `Emission.FirstActiveBlockOnlyStamps` | x/mint/keeper/abci_test.go:48-59 | the first active block only sets the last mint time; rate, params and pools are unchanged |
| `Emission.ActiveBlockRecordsTime` | x/mint/keeper/abci_test.go:55-81 | after every successful active block, the last mint time is that block's time |
| `Emission.ParamsChangeOnlyInNextReductionTime` | x/mint/keeper/abci_test.go:82-85 | a block changes no parameter except the next reduction time |
| `Emission.SingleReductionAtBoundary` | x/mint/keeper/abci_test.go:74-87 | at or past the boundary the rate is multiplied by the factor once and the boundary becomes block time + period; before it neither moves; the pools grow together by the amount minted at the reduced rate |
| `Emission.ReductionMovesBoundaryPastBlock` | x/mint/keeper/abci_test.go:83 | with a positive period the new boundary lies after the block, so the same time cannot reduce twice |
| `Emission.ActiveBlockMintsAndSplits` | x/mint/keeper/abci_test.go:61-87 | with a non-negative rate, monotone time, factor and staking in [0, 1], a block never panics, neither pool shrinks, the rate stays in [0, old rate], and a minting block adds to the two pools together exactly the amount minted at the new rate for the elapsed time |
| `Emission.SuccessfulBlockIsMonotone` | x/mint/keeper/abci_test.go:61-87 | a successful block never lowers a pool and, with factor in [0, 1], never raises the rate or makes it negative |
| `Emission.RunBlocksRecordsLastTime` | x/mint/keeper/abci_test.go:55-81 | after any successful run of blocks ending in an active one, the last mint time is the last block's time |
| `Emission.RunBlocksIsMonotone` | x/mint/keeper/abci_test.go:61-87 | over any successful run, neither pool shrinks and the rate stays between 0 and its starting value |
| `MintKeeper.Keeper.GetParams` | x/mint/keeper/params_test.go:23-25 | returns the stored params |
| `MintKeeper.Keeper.SetParams` | x/mint/keeper/params_test.go:23-25 | stores the params as given |
| `MintKeeper.ParamsGetSet` | x/mint/keeper/params_test.go:10-26 | `SetParams` then `GetParams` returns params equal to those set |
| `MintKeeper.Keeper.GetNextReductionTime` | x/mint/keeper/info.go:9-12 | returns the stored params' next reduction time |
| `MintKeeper.Keeper.SetNextReductionTime` | x/mint/keeper/info.go:15-19 | changes only the next reduction time, which then reads back as t |
| `MintKeeper.Keeper.GetMinter` | x/mint/keeper/info.go:22-31 | returns the stored minter; panics (`MinterNotSet`) when nothing is stored |
| `MintKeeper.Keeper.SetMinter` | x/mint/keeper/info.go:34-38 | stores the minter, so a later `GetMinter` returns it |
| `MintKeeper.Keeper.InitGenesis` | x/mint/keeper/genesis.go:10-31 | an absent state panics with nothing written; otherwise the rate is the genesis provisions whatever the block time, the last mint time is 0 unless block time > start time (strictly), then the block time; stored params equal the imported ones |
| `MintKeeper.Keeper.ExportGenesis` | x/mint/keeper/genesis.go:34-38 | exports exactly the stored params and nothing of the minter |
| `MintKeeper.ReimportExported` | x/mint/keeper/genesis.go:10-38 | export then import into a fresh store gives rate = genesis provisions (not the runtime rate) and the start-time rule for the last mint time |
| `MintKeeper.Keeper.EndBlocker` | x/mint/keeper/abci_test.go:10-88 | the new state is `EndBlock` of the old one (a panic leaves it unchanged); pre-start blocks change nothing; active blocks record their time; the first active block leaves rate, params and pool alone; a boundary block multiplies the rate by the factor and moves the boundary to block time + period in the stored params |
| `MintKeeper.OneSecondAtFullRate` | x/mint/keeper/abci_test.go:61-72 | one second at 821917 ACRE/day mints 9512928240740740740 units, 7610342592592592592 of them to the community pool at staking 0.2 |
| `MintKeeper.BoundaryBlockAtReducedRate` | x/mint/keeper/abci_test.go:74-87 | the reduced rate is exactly 0.66 × 821917 ACRE and 998 s at it adds 5012780458888888888889 units to the pool |
| `MintKeeper.MintBeforeReduceMissesFourthBlock` | x/mint/keeper/abci_test.go:74-87 | minting 998 s at the unreduced rate would add 7595121907407407407408 and end the pool at 7602732250000000000000, not the asserted 5020390801481481481481, so the step reduces before it mints |
| `MintKeeper.TestThirdBlock` | x/mint/keeper/abci_test.go:61-72 | the third block of the test: the pool becomes 7610342592592592592, the rate and boundary stay |
| `MintKeeper.TestFourthBlock` | x/mint/keeper/abci_test.go:74-87 | the fourth block: rate × 0.66, boundary now + 2001, pool + 5012780458888888888889 |
| `MintKeeper.TestEndBlocker` | x/mint/keeper/abci_test.go:10-88 | the whole test run on the keeper: every intermediate assertion holds, and the pool is 7610342592592592592 after the third block and 5020390801481481481481 after the fourth |

## Left out

- Emission.MintedAmount: floors the exact quotient rate × elapsed / 86400. The SDK's decimal division first rounds to 18 digits, so the two differ only when the exact quotient is within 5 × 10^-19 below a whole unit. The `EndBlocker` implementation file is not part of this model, so its exact decimal operations are inferred from the test's figures.
- MintKeeper.Keeper.EndBlocker: models the step from the test alone. The first active block (last mint time 0) is taken to only record its time and return, so it evaluates no reduction. Telemetry, events and the order relative to other modules' end-blockers are not modelled.
- The community pool and the bonded-stake rewards are two integer counters. The distribution keeper and fee collector behind them, and the `DecCoins` denomination bookkeeping, are external.
- Times, the period and coin amounts are unbounded integers. Go's `int64` overflow of `blockTime + period` is not modelled.
- Bech32 decoding (`AccAddressFromBech32`) and re-encoding (`.String()`) are opaque function parameters.
- `sdk.ValidateDenom` is restated as the SDK's denomination pattern (a letter, then 2 to 127 letters, digits or `/ : . _ -`). The SDK source is not part of this model.
- File and CLI plumbing are not modelled: `GenerateGenesisCmd`, reading and writing the genesis file, `ValidateGenesis`, JSON marshalling and `PackAccounts`. The allocator returns the values it would have marshalled.
- Consensus parameters and the other modules' genesis settings are not modelled: staking, distribution, gov, slashing, crisis and ICA. They are static configuration.
- The codec's `MustMarshal`/`MustUnmarshal` is assumed to round-trip, so the stored minter is the minter value itself. Params `String()` (YAML) is not modelled.
- `ParamKeyTable`/`ParamSetPairs` are not modelled. This includes the validation the SDK's param subspace runs on each `SetParams`: `SetParams` stores what it is given.
- `GetModuleAccount` (module-account creation during `InitGenesis`) is not modelled; it belongs to the external account keeper.
- The "invalid parameter type" branches of the field checks cannot occur with typed fields.
- The store key constants of `x/mint/types/keys.go` are not needed: the minter field stands for the value at `MinterKey`.
- MintKeeper.Keeper.constructor: a fresh keeper starts with the default params. This stands in for whatever a fresh param subspace holds, which is not part of this model.
- A balance carries an amount of the base denomination only. An amount of 0 stands for the empty coin set that `Coins.Sub` leaves when the credits use up the whole supply.
