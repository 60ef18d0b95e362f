/**
 * The chain's genesis supply allocation: every genesis validator is credited
 * a fixed amount, the strategic reserve receives the rest of the supply, one
 * base account is recorded per address, and the mint module's parameters are
 * set for the launch schedule.
 */
module GenesisAllocator {
  import opened Results
  import opened MintTypes

  /** `appparams.BaseDenom`. */
  const BaseDenom: string := "aacre"

  /** Monday, November 21, 2022, 15:00 UTC. */
  const GenesisTime: int := 1669042800
  /** Wednesday, December 14, 2022, 16:00 UTC. */
  const DistributionStartTime: int := 1671033600
  /** Tuesday, February 14, 2023, 16:00 UTC. */
  const FirstReductionTime: int := 1676390400

  /** 350 million ACRE, in base units. */
  const TotalSupply: nat := 350_000_000 * DecimalReduction
  /** 120 ACRE, in base units: the credit of each genesis validator. */
  const ValidatorInitialCoins: nat := 120 * DecimalReduction

  const StrategicReserve: string := "acre1zasg70674vau3zaxh3ygysf8lgscz50al84jww"

  const GenesisValidators: seq<string> := [
    "acre12g66na08jrr8957uv7ftlmt0xw56j8qf0vgknz", "acre1chtemgelehwh5k7nqv6wpgmmn46z33gttsw4mu",
    "acre1kqlnqxf8clakdm8dqlxyjc7qcvvd88m080ftau", "acre1muhcvklnqrjv6eguw8chshm23pwp2zp0gyew92",
    "acre1j9r5gufue4lw3fmws74lmzqex389s6azu86xjx", "acre18p32srqkjjqax6f99ql9ucwczc2aemmer33yde",
    "acre1dgeda9nt3fqsfwgmf7hm5xpffsefh4x7pptarn", "acre1nq9utvcs99tqj680670vf60vmpypl0njuvstea",
    "acre1f9nrky5rvs96rmsk7te4jesv92qsm25d9h0p0v", "acre1asr74pcdvpwkvtsla6tqqmhuyhewtnl5hze86q",
    "acre1csn8s4g52upaadcxum4sqnxprtc683ukr5uzk8", "acre1qknphqq8vkekyw447kdcjjj58qxk36uxtaz9yw",
    "acre1cy2pzmnfwg6njx502uttjrkmuf4hjtjey9suhk", "acre1mxhx8ar3f2thtntdsrn4sgv68duxvcxq28gw43",
    "acre1ddceyf8tcd7jxwrzaryuckwuzjhge93spcglca", "acre1rvrecs7f3pdlplq75nhqtmegruthhsn8lcrndl",
    "acre1e76jsstf39zanx846vptzwdegcced09as0qjqp", "acre17j2z96kwktql80ql9qa3ljg9zj0jvue5ljzzxt",
    "acre1ws43egqv720nglj53ks2qqv3z6lzrz3a4g9z2n", "acre1ygll7dmlsufgs6yarrnm8ljsed4tpafeg2cxu8",
    "acre1tf33ygp6v4pp7ak3jqzx2kg559xk9ln27h0x7t", "acre1wdn6p3ngzmqjmk2mzvmagfu7lhmetamcevhkjm",
    "acre1qt6yf3fvz250uddj04rxglfd40v8nruq0rh6py", "acre12mq0cjukdx3v2texmg07pr9c4v0ca67cqgyfkf",
    "acre157dds6jpnvzfnnez599d0ukjvgu2r944cnm7hg", "acre15avy39shq7cllgvrvuyfm2c4w4kgkgu86dyqhv",
    "acre1fgs9uuxjwrclak88e633nw75j6ckxmdx09v0pw", "acre1veyw56cksj64737w5exp4x366hqqsarlrvg57m",
    "acre1ax3m50pulmjude2nw2emrt79jxjkpwrldwvnej", "acre1ke8tvwj0vdk72m80y5rzu97t2fy9wu3npaelug",
    "acre14ye7l35ary0musqs4dn6aj79u3lg5gpfxthwaj", "acre16ta5jvmvj90l3zgry98p3gafqnn8e3aq00987r",
    "acre1llprqt8prvf364tgggx8as6yxcw46g4mjzsxrm", "acre1zgpquw7zaphz8n4qn6lgstfaac9zxwk8jl8eey",
    "acre1p4rah2cttcuqffky7gk4a4auv8hhtmmqvv25ha", "acre106ukr5w6a95kmtgh4xc9a3n5xcw2rpzqwlszv8",
    "acre1wevs2p8t2khs3zp9qs3s7cx4qxu2mz6zfjej6q", "acre1rals2gachf9555wj5puhm7l4wnkevwjefwwgt5",
    "acre1c3qf72rlsxn6ttf9v56a2x8tzwu6dhqkm3yj7u", "acre1dnwj3dgdfaazgrjtjjffq9cvjft3e9lnvmr700",
    "acre1guxlxgr5flga44vvg7skqp0r5y67a5xnree00c", "acre1gr0kmjvkgsf8ph5x9y5f0q6e3f9atzcuk5rqss",
    "acre1p6rtyjs3dr9eaknsqavskyz7dzjnesjxwmn5qc", "acre1aev5mdduh578z5z894kk2cauxqntjfj6hx4s84",
    "acre19jkd68j79mulnx6pgyqgjwatrvhgdl0clxg59n", "acre1yppufjenpmk2xueazr9zysgh52f7h3rsv206vn",
    "acre1lj9tn3huf8zm3ncegmefv0rzwmhj3gz7tmdkn2", "acre1fac8t87smt4e2j355glhr3qungqk578mkj4agp",
    "acre1kskw99wharjx3gdgz8afw30rs7h4fgm7ath2re", "acre17gc07hawajnfg7e4539pmps0zfkwrdf4tg8t9m",
    "acre1hwy0kh4g4at7degm9yfrusukv97ua8lhqv6jga", "acre146q22dq5c39nwfrn5dgd8uxjjrmptpvc5agkam",
    "acre1y4pfpkwpy6myskp7pne256k6smh2rjtaaf0xv9", "acre1tc94c0ljexukfjrf35ukdjr0puutvxmy9v6yjz",
    "acre1x0m2j2xxgmsj2dmyajcx0jmyjzkd0t9n2xr8ca", "acre16v8tgcl2a72zpg74us65wv7626mcnu22xjslmq",
    "acre1rl5h39q804mxypn5gyy0a2uzyrqeydg2eqhteh", "acre12242xw27r9v2dplr9hhy3ftpgn55tehg73ajk8",
    "acre1xgymy6z8futd73g9y9gdgndqj3d4zspuc43e8a", "acre1hvn8advpjvhkdldjqfayqz54p6sgm5djf380xy",
    "acre1sn80um2chzav6mytlfjthlvaf97ta77hfec6ng"
  ]

  /** A decoded account address (the bytes behind a bech32 string). */
  datatype AccAddress = AccAddress(bytes: seq<bv8>)

  /** A genesis balance: an address and its amount of `BaseDenom`; an amount of 0 is the empty coin set. */
  datatype Balance = Balance(address: string, amount: int)

  /** A base account with no public key. */
  datatype BaseAccount = BaseAccount(address: AccAddress, accountNumber: nat, sequence: nat)

  datatype GenesisError =
    | InvalidAddress(address: string)   // an address that does not decode
    | NegativeReserve                   // the credits exceed the supply (`Coins.Sub` panics)

  datatype Allocation = Allocation(balances: seq<Balance>, accounts: seq<BaseAccount>)

  /** What the allocator contributes to the application's genesis document. */
  datatype AppGenesis = AppGenesis(
    genesisTime: int,
    mint: GenesisState,
    supply: nat,
    balances: seq<Balance>,
    accounts: seq<BaseAccount>)

  /** Total of the amounts: the sum of the front plus the last. */
  function SumBalances(bs: seq<Balance>): (total: int)
  {
    if bs == [] then 0 else SumBalances(bs[..|bs| - 1]) + bs[|bs| - 1].amount
  }

  /** One balance of `ValidatorInitialCoins` per validator, in list order. */
  function ValidatorBalances(vs: seq<string>): (bs: seq<Balance>)
    ensures |bs| == |vs|
  {
    seq(|vs|, i requires 0 <= i < |vs| => Balance(vs[i], ValidatorInitialCoins))
  }

  predicate AllParse(vs: seq<string>, parse: string -> Option<AccAddress>)
  {
    forall i :: 0 <= i < |vs| ==> parse(vs[i]).Some?
  }

  /** One fresh base account per validator, in list order. */
  function ValidatorAccounts(vs: seq<string>, parse: string -> Option<AccAddress>): (accs: seq<BaseAccount>)
    requires AllParse(vs, parse)
    ensures |accs| == |vs|
  {
    seq(|vs|, i requires 0 <= i < |vs| => BaseAccount(parse(vs[i]).value, 0, 0))
  }

  /** The validator credits add up to one credit per validator. */
  lemma {:induction false} SumValidatorBalances(vs: seq<string>)
    ensures SumBalances(ValidatorBalances(vs)) == |vs| * ValidatorInitialCoins
    decreases |vs|
  {
    if vs != [] {
      var front := vs[..|vs| - 1];
      assert ValidatorBalances(vs)[..|vs| - 1] == ValidatorBalances(front);
      SumValidatorBalances(front);
    }
  }

  /**
   * The allocation loop. `parse` and `encode` stand for bech32 decoding and
   * re-encoding. The reserve is decoded first; then each validator in turn
   * gets a balance, is decoded and gets an account; finally the reserve is
   * credited the supply minus all validator credits. A failed decoding
   * returns the error and nothing else.
   */
  method AllocateGenesis(
    reserve: string, validators: seq<string>,
    parse: string -> Option<AccAddress>, encode: AccAddress -> string)
    returns (r: Result<Allocation, GenesisError>)
    ensures parse(reserve).None? ==> r == Err(InvalidAddress(reserve))
    ensures parse(reserve).Some? ==>
      forall i :: IsFirstFailing(validators, (v: string) => parse(v).Some?, i) ==>
        r == Err(InvalidAddress(validators[i]))
    ensures parse(reserve).Some? && AllParse(validators, parse) ==>
      (r.Ok? <==> |validators| * ValidatorInitialCoins <= TotalSupply)
    ensures (parse(reserve).Some? && AllParse(validators, parse)
             && |validators| * ValidatorInitialCoins > TotalSupply) ==> r == Err(NegativeReserve)
    ensures r.Ok? ==> parse(reserve).Some? && AllParse(validators, parse)
    ensures r.Ok? ==>
      && r.value.balances == ValidatorBalances(validators)
           + [Balance(encode(parse(reserve).value), TotalSupply - |validators| * ValidatorInitialCoins)]
      && r.value.accounts == [BaseAccount(parse(reserve).value, 0, 0)] + ValidatorAccounts(validators, parse)
    ensures r.Ok? ==> SumBalances(r.value.balances) == TotalSupply
  {
    var accounts: seq<BaseAccount> := [];
    var reserveAddr := parse(reserve);
    if reserveAddr.None? {
      return Err(InvalidAddress(reserve));
    }
    accounts := accounts + [BaseAccount(reserveAddr.value, 0, 0)];

    var balances: seq<Balance> := [];
    var total := 0;
    var i := 0;
    while i < |validators|
      invariant 0 <= i <= |validators|
      invariant AllParse(validators[..i], parse)
      invariant balances == ValidatorBalances(validators[..i])
      invariant accounts == [BaseAccount(reserveAddr.value, 0, 0)] + ValidatorAccounts(validators[..i], parse)
      invariant total == i * ValidatorInitialCoins
      invariant SumBalances(balances) == total
    {
      var address := validators[i];
      balances := balances + [Balance(address, ValidatorInitialCoins)];
      var addr := parse(address);
      if addr.None? {
        assert IsFirstFailing(validators, (v: string) => parse(v).Some?, i) by {
          forall j | 0 <= j < i ensures parse(validators[j]).Some? {
            assert validators[..i][j] == validators[j];
          }
        }
        return Err(InvalidAddress(address));
      }
      assert balances[..|balances| - 1] == ValidatorBalances(validators[..i]);
      total := total + ValidatorInitialCoins;
      accounts := accounts + [BaseAccount(addr.value, 0, 0)];
      assert validators[..i + 1] == validators[..i] + [address];
      i := i + 1;
    }
    assert validators[..i] == validators;

    if total > TotalSupply {
      return Err(NegativeReserve);
    }
    var rest := balances;
    balances := balances + [Balance(encode(reserveAddr.value), TotalSupply - total)];
    assert balances[..|balances| - 1] == rest;
    r := Ok(Allocation(balances, accounts));
  }

  lemma BaseDenomIsValid()
    ensures !IsBlank(BaseDenom) && IsValidDenomSyntax(BaseDenom)
  {
    assert !IsSpace(BaseDenom[0]);
  }

  /**
   * The mint parameters written at genesis: the defaults with the base
   * denomination and the launch schedule's start and first reduction times.
   */
  function GenesisMintParams(): (p: Params)
    ensures p.mintDenom == BaseDenom
    ensures p.mintingRewardsDistributionStartTime == DistributionStartTime
    ensures p.nextRewardsReductionTime == FirstReductionTime
    ensures var d := DefaultParams();
      && p.genesisDailyProvisions == d.genesisDailyProvisions
      && p.reductionPeriodInSeconds == d.reductionPeriodInSeconds
      && p.reductionFactor == d.reductionFactor
      && p.distributionProportions == d.distributionProportions
    ensures Validate(p) == Pass
  {
    BaseDenomIsValid();
    DefaultParams().(
      mintDenom := BaseDenom,
      mintingRewardsDistributionStartTime := DistributionStartTime,
      nextRewardsReductionTime := FirstReductionTime)
  }

  /** 61 genesis validators, so the reserve keeps 350,000,000 - 61 * 120 = 349,992,680 ACRE. */
  lemma GenesisValidatorCount()
    ensures |GenesisValidators| == 61
    ensures TotalSupply - |GenesisValidators| * ValidatorInitialCoins == 349_992_680 * DecimalReduction
  {
  }

  /**
   * `PrepareGenesis`, restricted to what this model covers: the genesis time,
   * the mint genesis state, and the bank supply, balances and accounts built
   * by `AllocateGenesis` for the given reserve and validator list.
   */
  method PrepareGenesis(
    reserve: string, validators: seq<string>,
    parse: string -> Option<AccAddress>, encode: AccAddress -> string)
    returns (r: Result<AppGenesis, GenesisError>)
    ensures r.Ok? <==> (parse(reserve).Some? && AllParse(validators, parse)
                        && |validators| * ValidatorInitialCoins <= TotalSupply)
    ensures r.Ok? ==>
      && r.value.genesisTime == GenesisTime
      && r.value.mint.params == GenesisMintParams()
      && r.value.supply == TotalSupply
      && SumBalances(r.value.balances) == r.value.supply
      && |r.value.balances| == |validators| + 1 && |r.value.accounts| == |validators| + 1
      && r.value.balances[|validators|]
         == Balance(encode(parse(reserve).value), TotalSupply - |validators| * ValidatorInitialCoins)
      && (forall j :: 0 <= j < |validators| ==> r.value.balances[j] == Balance(validators[j], ValidatorInitialCoins))
      && (forall a :: a in r.value.accounts ==> a.accountNumber == 0 && a.sequence == 0)
    ensures r.Ok? ==>
      && r.value.balances == ValidatorBalances(validators)
           + [Balance(encode(parse(reserve).value), TotalSupply - |validators| * ValidatorInitialCoins)]
      && r.value.accounts == [BaseAccount(parse(reserve).value, 0, 0)] + ValidatorAccounts(validators, parse)
    ensures parse(reserve).None? ==> r == Err(InvalidAddress(reserve))
    ensures parse(reserve).Some? ==>
      forall i :: IsFirstFailing(validators, (v: string) => parse(v).Some?, i) ==>
        r == Err(InvalidAddress(validators[i]))
    ensures (parse(reserve).Some? && AllParse(validators, parse)
             && |validators| * ValidatorInitialCoins > TotalSupply) ==> r == Err(NegativeReserve)
  {
    var mint := GenesisState(GenesisMintParams());
    var alloc := AllocateGenesis(reserve, validators, parse, encode);
    if alloc.Err? {
      return Err(alloc.error);
    }
    r := Ok(AppGenesis(GenesisTime, mint, TotalSupply, alloc.value.balances, alloc.value.accounts));
  }

  /**
   * The chain's actual genesis: the strategic reserve and the 61 validators
   * above. When every address decodes, the reserve holds 349,992,680 ACRE.
   */
  method LaunchGenesis(parse: string -> Option<AccAddress>, encode: AccAddress -> string)
    returns (r: Result<AppGenesis, GenesisError>)
    ensures r.Ok? ==> (
      && |r.value.balances| == 62
      && r.value.balances[61].amount == 349_992_680 * DecimalReduction
      && SumBalances(r.value.balances) == 350_000_000 * DecimalReduction)
  {
    GenesisValidatorCount();
    r := PrepareGenesis(StrategicReserve, GenesisValidators, parse, encode);
  }
}
