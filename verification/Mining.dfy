/** Liquidity mining: farms (global pools) reward yield pools, yield pools reward NFT-keyed deposits.
    Storage is a value and every call a function to the next storage or an error; a failed call leaves
    storage alone (the calls are transactional). `MiningPallet` runs the same calls in place. */
module Mining {
  import opened Basics
  import opened Ledgers
  import opened NftIds

  type PoolId = nat
  type NftId = nat
  type Key = (PoolId, AccountId)  // farm, AMM account

  datatype Curve = Curve(initialReward: nat, scale: nat)

  datatype Farm = Farm(
    owner: nat,
    updatedAt: nat,
    totalSharesZ: nat,
    accRpz: nat,
    currency: AssetId,
    accRewards: nat,
    paidRewards: nat,
    yieldPerMillion: nat,
    plannedPeriods: nat,
    blocksPerPeriod: nat,
    incentivized: AssetId,
    maxReward: nat,
    livePools: nat)

  datatype Pool = Pool(
    id: PoolId,
    updatedAt: nat,
    totalShares: nat,
    totalValued: nat,
    accRpvs: nat,
    accRpz: nat,
    curve: Option<Curve>,
    stake: nat,
    multiplier: nat,
    canceled: bool)

  datatype Stake = Stake(
    shares: nat,
    valued: nat,
    accRpvs: nat,
    claimed: nat,
    enteredAt: nat,
    updatedAt: nat)

  datatype Meta = Meta(pair: AssetPair, count: nat, farm: PoolId)

  /** What a farm was created with and what has flowed since; the source does not store it. */
  datatype Audit = Audit(created: nat, totalRewards: nat, accrued: nat, moved: nat)

  datatype State = State(
    farms: map<PoolId, Farm>,
    pools: map<Key, Pool>,
    deposits: map<NftId, Stake>,
    meta: map<PoolId, Meta>,
    poolSeq: nat,
    nftSeq: nat,
    owners: map<NftId, nat>,      // NFT owners
    ledger: Ledger,
    amms: set<AccountId>,         // AMM pools that exist
    block: nat,
    audit: map<PoolId, Audit>,
    rounding: map<PoolId, nat>)   // deposits of a pool when its multiplier was last set

  /** Where a checked subtraction can fail. The source reports all of these as `Overflow`. */
  datatype Site =
    | Clock | EnteredAt | RpzOrder | RpvsOrder | Claimed | Unclaimable
    | FarmAccrued | FarmStake | PoolStake | PoolShares | PoolValued | PoolCount | NftCount

  datatype Error =
    | Overflow
    | Underflow(site: Site)
    | BalanceTooLow(payer: AccountId)
    | InsufficientBalanceInGlobalPool
    | InvalidPoolId | InvalidNftId | NftIdOverflow | NftExists
    | InvalidPlannedYieldingPeriods | InvalidBlocksPerPeriod | InvalidYieldPerPeriod | InvalidTotalRewards
    | InsufficientRewardCurrencyBalance | InsufficientAmmSharesBalance
    | Forbidden | FarmNotFound | FarmIsNotEmpty | RewardBalanceIsNotZero
    | LiquidityPoolAlreadyExists | LiquidityPoolNotFound | LiquidityPoolMetadataNotFound
    | InvalidMultiplier | InvalidInitialRewardPercentage | AmmPoolDoesNotExist | MissingIncentivizedAsset
    | NftDoesNotExist | NotDepositOwner | CantFindDepositOwner | InvalidDepositAmount
    | LiquidityMiningCanceled | LiquidityMiningIsNotCanceled | DoubleClaimInThePeriod

  /** Runtime parameters, the share token of an AMM and the loyalty curve of the math library. */
  datatype Config = Config(
    minTotalRewards: nat,
    minPlannedPeriods: nat,
    shareToken: AccountId -> AssetId,
    loyalty: (Curve, nat) -> Option<nat>)

  /** Loyalty is at most one and never falls as periods pass. */
  ghost predicate Lawful(cfg: Config) {
    forall c, p: nat, q: nat :: p <= q && cfg.loyalty(c, p).Some? && cfg.loyalty(c, q).Some? ==>
      cfg.loyalty(c, p).value <= cfg.loyalty(c, q).value <= FIXED_ONE
  }

  function Initial(ledger: Ledger): State {
    State(map[], map[], map[], map[], 0, 0, map[], ledger, {}, 0, map[], map[])
  }

  // Checked arithmetic with the pallet's errors.

  function Add(a: nat, b: nat): Result<nat, Error> { Require(CheckedAdd(a, b), Overflow) }
  function Sub(a: nat, b: nat, site: Site): Result<nat, Error> { Require(CheckedSub(a, b), Underflow(site)) }
  function Mul(a: nat, b: nat): Result<nat, Error> { Require(CheckedMul(a, b), Overflow) }

  function FixedMulInt(fixed: nat, n: nat): Result<nat, Error> {
    if FixedMul(fixed, n) <= MAX_U128 then Ok(FixedMul(fixed, n)) else Err(Overflow)
  }

  // The math library.

  function AccumulatedRps(acc: nat, shares: nat, reward: nat): Result<nat, Error> {
    var perShare :- Require(CheckedDiv(reward, shares), Overflow);
    Add(acc, perShare)
  }

  function GlobalShares(valued: nat, multiplier: nat): Result<nat, Error> { FixedMulInt(multiplier, valued) }

  function RewardPerPeriod(farm: Farm): Result<nat, Error> {
    var uncapped :- FixedMulInt(farm.yieldPerMillion * (FIXED_ONE / 1_000_000), farm.totalSharesZ);
    Ok(Min(uncapped, farm.maxReward))
  }

  /** Claimable now and, if the deposit left now, forfeited. */
  function UserReward(d: Stake, poolRpvs: nat, loyalty: nat): Result<(nat, nat), Error> {
    var delta :- Sub(poolRpvs, d.accRpvs, RpvsOrder);
    var most :- Mul(delta, d.valued);
    var claimable :- FixedMulInt(loyalty, most);
    var unclaimable :- Sub(most, claimable, Unclaimable);
    var reward :- Sub(claimable, d.claimed, Claimed);
    Ok((reward, unclaimable))
  }

  function LoyaltyMultiplier(cfg: Config, periods: nat, curve: Option<Curve>): Result<nat, Error> {
    if curve.None? || curve.value.initialReward == FIXED_ONE then Ok(FIXED_ONE)
    else Require(cfg.loyalty(curve.value, periods), Overflow)
  }

  // Small pieces of the pallet.

  function AmmOf(pair: AssetPair): AccountId { XykPair(pair.Lo(), pair.Hi()) }

  /** A storage map read with a default: the share token of an AMM that does not exist is asset 0. */
  function ShareToken(cfg: Config, s: State, pair: AssetPair): AssetId {
    if AmmOf(pair) in s.amms then cfg.shareToken(AmmOf(pair)) else 0
  }

  function PotOf(id: PoolId): Result<AccountId, Error> {
    if id == 0 then Err(InvalidPoolId) else Ok(MiningPool(id))
  }

  function Period(block: nat, blocksPerPeriod: nat): Result<nat, Error> {
    Require(CheckedDiv(block, blocksPerPeriod), Overflow)
  }

  function NextPoolId(poolSeq: nat): Result<PoolId, Error> {
    if poolSeq + 1 <= MAX_U32 then Ok(poolSeq + 1) else Err(Overflow)
  }

  function NextNftSeq(nftSeq: nat): Result<nat, Error> {
    var next :- Add(nftSeq, 1);
    if next <= MAX_NFT_SEQUENCE then Ok(next) else Err(NftIdOverflow)
  }

  function Pay(l: Ledger, asset: AssetId, from: AccountId, to: AccountId, amount: nat): Result<Ledger, Error> {
    Require(Transfer(l, asset, from, to, amount), BalanceTooLow(from))
  }

  /** The deposits whose NFT id decodes to `pool`. */
  function DepositsOf(deposits: map<NftId, Stake>, pool: PoolId): map<NftId, Stake> {
    map n | n in deposits && DecodePool(n) == Some(pool) :: deposits[n]
  }

  // Accrual.

  /** Rewards accrued by a farm up to `now`: `periods * rate`, capped by what the farm account holds. */
  function UpdateGlobalPool(farm: Farm, farmId: PoolId, ledger: Ledger, now: nat, rate: nat): Result<(Farm, nat), Error>
  {
    if farm.updatedAt == now || farm.totalSharesZ == 0 then Ok((farm, 0))
    else
      var periods :- Sub(now, farm.updatedAt, Clock);
      var pot :- PotOf(farmId);
      var gross :- Mul(periods, rate);
      var reward := Min(gross, Free(ledger, farm.currency, pot));
      if reward == 0 then Ok((farm.(updatedAt := now), 0))
      else
        var rpz :- AccumulatedRps(farm.accRpz, farm.totalSharesZ, reward);
        var acc :- Add(farm.accRewards, reward);
        Ok((farm.(accRpz := rpz, accRewards := acc, updatedAt := now), reward))
  }

  function MaybeUpdateFarm(farm: Farm, farmId: PoolId, ledger: Ledger, now: nat): Result<(Farm, nat), Error> {
    if farm.totalSharesZ != 0 && farm.updatedAt != now then
      var rate :- RewardPerPeriod(farm);
      UpdateGlobalPool(farm, farmId, ledger, now, rate)
    else Ok((farm, 0))
  }

  function ClaimFromGlobalPool(farm: Farm, pool: Pool): Result<(Farm, Pool, nat), Error> {
    var delta :- Sub(farm.accRpz, pool.accRpz, RpzOrder);
    var reward :- Mul(delta, pool.stake);
    var paid :- Add(farm.paidRewards, reward);
    var left :- Sub(farm.accRewards, reward, FarmAccrued);
    Ok((farm.(paidRewards := paid, accRewards := left), pool.(accRpz := farm.accRpz), reward))
  }

  /** Returns the pool, the ledger and the amount moved from the farm's account to the pool's. */
  function UpdateLiqPool(pool: Pool, rewards: nat, now: nat, farmId: PoolId, currency: AssetId, ledger: Ledger)
    : Result<(Pool, Ledger, nat), Error>
  {
    if pool.updatedAt == now || pool.totalValued == 0 then Ok((pool, ledger, 0))
    else
      var rpvs :- AccumulatedRps(pool.accRpvs, pool.totalValued, rewards);
      var farmPot :- PotOf(farmId);
      :- Need(Free(ledger, currency, farmPot) >= rewards, InsufficientBalanceInGlobalPool);
      var poolPot :- PotOf(pool.id);
      var ledger' :- Pay(ledger, currency, farmPot, poolPot, rewards);
      Ok((pool.(accRpvs := rpvs, updatedAt := now), ledger', rewards))
  }

  datatype Accrual = Accrual(farm: Farm, pool: Pool, ledger: Ledger, accrued: nat, moved: nat)

  function MaybeUpdatePools(farm: Farm, farmId: PoolId, pool: Pool, ledger: Ledger, now: nat): Result<Accrual, Error> {
    if pool.canceled || pool.totalShares == 0 || pool.updatedAt == now then Ok(Accrual(farm, pool, ledger, 0, 0))
    else
      var (farm1, accrued) :- MaybeUpdateFarm(farm, farmId, ledger, now);
      var (farm2, pool1, rewards) :- ClaimFromGlobalPool(farm1, pool);
      var (pool2, ledger', moved) :- UpdateLiqPool(pool1, rewards, now, farmId, farm2.currency, ledger);
      Ok(Accrual(farm2, pool2, ledger', accrued, moved))
  }

  // The accrual steps as changes of storage.

  function AuditAfter(a: Audit, accrued: nat, moved: nat): Audit {
    Audit(a.created, a.totalRewards, a.accrued + accrued, a.moved + moved)
  }

  function Booked(s: State, farmId: PoolId, accrued: nat, moved: nat): State
    requires farmId in s.audit
  {
    s.(audit := s.audit[farmId := AuditAfter(s.audit[farmId], accrued, moved)])
  }

  predicate Stored(s: State, key: Key) {
    key in s.pools && key.0 in s.farms && key.0 in s.audit
  }

  function Committed(s: State, key: Key, u: Accrual): State
    requires Stored(s, key)
  {
    Booked(s, key.0, u.accrued, u.moved)
    .(farms := s.farms[key.0 := u.farm], pools := s.pools[key := u.pool], ledger := u.ledger)
  }

  function Touch(s: State, key: Key, now: nat): (r: Result<State, Error>)
    requires Stored(s, key)
    ensures r.Ok? ==>
              var s' := r.value;
              s' == s.(farms := s'.farms, pools := s'.pools, ledger := s'.ledger, audit := s'.audit) && Stored(s', key)
  {
    var u :- MaybeUpdatePools(s.farms[key.0], key.0, s.pools[key], s.ledger, now);
    Ok(Committed(s, key, u))
  }

  function TouchFarm(s: State, farmId: PoolId, now: nat): (r: Result<State, Error>)
    requires farmId in s.farms && farmId in s.audit
    ensures r.Ok? ==> farmId in r.value.farms
  {
    var (farm, accrued) :- MaybeUpdateFarm(s.farms[farmId], farmId, s.ledger, now);
    Ok(Booked(s, farmId, accrued, 0).(farms := s.farms[farmId := farm]))
  }

  /** Pays a deposit out of its pool's account; a second claim in a period pays nothing. Also returns the
      reward and what the depositor forfeits by leaving now. */
  function DoClaim(cfg: Config, s: State, key: Key, nft: NftId, who: nat,
                   now: nat): (r: Result<(State, nat, nat), Error>)
    requires Stored(s, key) && nft in s.deposits
    ensures r.Ok? ==>
              var s' := r.value.0;
              s' == s.(deposits := s'.deposits, ledger := s'.ledger) && s'.deposits.Keys == s.deposits.Keys
  {
    var d, pool := s.deposits[nft], s.pools[key];
    var periods :- Sub(now, d.enteredAt, EnteredAt);
    if d.updatedAt == now then Ok((s, 0, 0))
    else
      var loyalty :- LoyaltyMultiplier(cfg, periods, pool.curve);
      var (reward, unclaimable) :- UserReward(d, pool.accRpvs, loyalty);
      var claimed :- Add(d.claimed, reward);
      var pot :- PotOf(pool.id);
      var ledger' :- Pay(s.ledger, s.farms[key.0].currency, pot, User(who), reward);
      Ok((s.(deposits := s.deposits[nft := d.(claimed := claimed, updatedAt := now)], ledger := ledger'),
          reward, unclaimable))
  }

  // What the calls write.

  function WithFarm(s: State, id: PoolId, farm: Farm, a: Audit, ledger: Ledger): State {
    s.(poolSeq := id, farms := s.farms[id := farm], ledger := ledger, audit := s.audit[id := a])
  }

  function WithoutFarm(s: State, id: PoolId): State { s.(farms := s.farms - {id}) }

  function WithPool(s: State, key: Key, pair: AssetPair, pool: Pool): State
    requires key.0 in s.farms
  {
    var farm := s.farms[key.0];
    s.(poolSeq := pool.id,
       meta := s.meta[pool.id := Meta(pair, 0, key.0)],
       pools := s.pools[key := pool],
       farms := s.farms[key.0 := farm.(livePools := farm.livePools + 1)],
       rounding := s.rounding[pool.id := 0])
  }

  function NewPool(id: PoolId, now: nat, curve: Option<Curve>, multiplier: nat): Pool {
    Pool(id, now, 0, 0, 0, 0, curve, 0, multiplier, false)
  }

  function WithoutPool(s: State, key: Key, ledger: Ledger): State
    requires key in s.pools && key.0 in s.farms && s.farms[key.0].livePools > 0
  {
    var farm, id := s.farms[key.0], s.pools[key].id;
    var unused := id in s.meta && s.meta[id].count == 0;
    s.(farms := s.farms[key.0 := farm.(livePools := farm.livePools - 1)],
       pools := s.pools - {key},
       meta := if unused then s.meta - {id} else s.meta,
       ledger := ledger)
  }

  /** Metadata after one NFT of pool `id` is gone; the last one takes the metadata of a removed pool with it. */
  function MetaAfterExit(meta: map<PoolId, Meta>, id: PoolId, stored: bool): map<PoolId, Meta>
    requires id in meta && meta[id].count > 0
  {
    if meta[id].count == 1 && !stored then meta - {id} else meta[id := meta[id].(count := meta[id].count - 1)]
  }

  // Calls.

  function FindFarm(s: State, farmId: PoolId): Result<Farm, Error> {
    if farmId in s.farms then Ok(s.farms[farmId]) else Err(FarmNotFound)
  }

  function CreateFarm(cfg: Config, s: State, totalRewards: nat, planned: nat, blocksPerPeriod: nat,
                      incentivized: AssetId, currency: AssetId, owner: nat, yieldPerMillion: nat): Result<State, Error>
  {
    var funds := Free(s.ledger, currency, User(owner));
    :- Need(totalRewards >= cfg.minTotalRewards, InvalidTotalRewards);
    :- Need(planned >= cfg.minPlannedPeriods, InvalidPlannedYieldingPeriods);
    :- Need(blocksPerPeriod != 0, InvalidBlocksPerPeriod);
    :- Need(yieldPerMillion != 0, InvalidYieldPerPeriod);
    :- Need(funds >= totalRewards, InsufficientRewardCurrencyBalance);
    var maxReward :- Require(CheckedDiv(totalRewards, planned), Overflow);
    var now :- Period(s.block, blocksPerPeriod);
    var id :- NextPoolId(s.poolSeq);
    var farm := Farm(owner, now, 0, 0, currency, 0, 0, yieldPerMillion, planned, blocksPerPeriod, incentivized,
                     maxReward, 0);
    var ledger' :- Pay(s.ledger, currency, User(owner), MiningPool(id), totalRewards);
    Ok(WithFarm(s, id, farm, Audit(now, totalRewards, 0, 0), ledger'))
  }

  function DestroyFarm(s: State, who: nat, farmId: PoolId): Result<State, Error> {
    var farm :- FindFarm(s, farmId);
    :- Need(who == farm.owner, Forbidden);
    :- Need(farm.livePools == 0, FarmIsNotEmpty);
    var pot :- PotOf(farmId);
    :- Need(Free(s.ledger, farm.currency, pot) == 0, RewardBalanceIsNotZero);
    Ok(WithoutFarm(s, farmId))
  }

  function WithdrawUndistributed(s: State, who: nat, farmId: PoolId): Result<State, Error> {
    var farm :- FindFarm(s, farmId);
    :- Need(who == farm.owner, Forbidden);
    :- Need(farm.livePools == 0, FarmIsNotEmpty);
    var pot :- PotOf(farmId);
    var ledger' :- Pay(s.ledger, farm.currency, pot, User(who), Free(s.ledger, farm.currency, pot));
    Ok(s.(ledger := ledger'))
  }

  function InsertPool(s: State, key: Key, pair: AssetPair, now: nat, curve: Option<Curve>, multiplier: nat)
    : Result<State, Error>
    requires key.0 in s.farms
  {
    var id :- NextPoolId(s.poolSeq);
    :- Need(s.farms[key.0].livePools + 1 <= MAX_U32, Overflow);
    Ok(WithPool(s, key, pair, NewPool(id, now, curve, multiplier)))
  }

  function AddLiquidityPool(s: State, who: nat, farmId: PoolId, pair: AssetPair, multiplier: nat, curve: Option<Curve>)
    : Result<State, Error>
  {
    var key := (farmId, AmmOf(pair));
    :- Need(multiplier != 0, InvalidMultiplier);
    :- Need(curve.Some? ==> curve.value.initialReward < FIXED_ONE, InvalidInitialRewardPercentage);
    :- Need(AmmOf(pair) in s.amms, AmmPoolDoesNotExist);
    :- Need(farmId in s.farms && farmId in s.audit, FarmNotFound);
    var farm := s.farms[farmId];
    :- Need(who == farm.owner, Forbidden);
    :- Need(pair.assetIn == farm.incentivized || pair.assetOut == farm.incentivized, MissingIncentivizedAsset);
    :- Need(key !in s.pools, LiquidityPoolAlreadyExists);
    var now :- Period(s.block, farm.blocksPerPeriod);
    var s1 :- TouchFarm(s, farmId, now);
    InsertPool(s1, key, pair, now, curve, multiplier)
  }

  /** The pool at `key` gets a new stake in its farm and is (or stops being) canceled. */
  function Restaked(s: State, key: Key, totalSharesZ: nat, pool: Pool): State
    requires Stored(s, key)
  {
    s.(farms := s.farms[key.0 := s.farms[key.0].(totalSharesZ := totalSharesZ)],
       pools := s.pools[key := pool],
       rounding := s.rounding[pool.id := |DepositsOf(s.deposits, pool.id)|])
  }

  function UpdateLiquidityPool(s: State, who: nat, farmId: PoolId, pair: AssetPair,
                               multiplier: nat): Result<State, Error>
  {
    var key := (farmId, AmmOf(pair));
    :- Need(multiplier != 0, InvalidMultiplier);
    :- Need(key in s.pools, LiquidityPoolNotFound);
    :- Need(!s.pools[key].canceled, LiquidityMiningCanceled);
    :- Need(Stored(s, key), FarmNotFound);
    :- Need(who == s.farms[farmId].owner, Forbidden);
    var now :- Period(s.block, s.farms[farmId].blocksPerPeriod);
    var s1 :- Touch(s, key, now);
    var pool := s1.pools[key];
    var stake :- GlobalShares(pool.totalValued, multiplier);
    var rest :- Sub(s1.farms[farmId].totalSharesZ, pool.stake, FarmStake);
    var total :- Add(rest, stake);
    Ok(Restaked(s1, key, total, pool.(stake := stake, multiplier := multiplier)))
  }

  function CancelLiquidityPool(s: State, who: nat, farmId: PoolId, pair: AssetPair): Result<State, Error> {
    var key := (farmId, AmmOf(pair));
    :- Need(key in s.pools, LiquidityPoolNotFound);
    :- Need(!s.pools[key].canceled, LiquidityMiningCanceled);
    :- Need(Stored(s, key), FarmNotFound);
    :- Need(who == s.farms[farmId].owner, Forbidden);
    var now :- Period(s.block, s.farms[farmId].blocksPerPeriod);
    var s1 :- Touch(s, key, now);
    var pool := s1.pools[key];
    var rest :- Sub(s1.farms[farmId].totalSharesZ, pool.stake, FarmStake);
    Ok(Restaked(s1, key, rest, pool.(stake := 0, multiplier := 0, canceled := true)))
  }

  function ResumeLiquidityPool(s: State, who: nat, farmId: PoolId, pair: AssetPair,
                               multiplier: nat): Result<State, Error>
  {
    var key := (farmId, AmmOf(pair));
    :- Need(multiplier != 0, InvalidMultiplier);
    :- Need(key in s.pools, LiquidityPoolNotFound);
    :- Need(s.pools[key].canceled, LiquidityMiningIsNotCanceled);
    :- Need(Stored(s, key), FarmNotFound);
    :- Need(who == s.farms[farmId].owner, Forbidden);
    var now :- Period(s.block, s.farms[farmId].blocksPerPeriod);
    var s1 :- TouchFarm(s, farmId, now);
    var pool := s1.pools[key];
    var stake :- GlobalShares(pool.totalValued, multiplier);
    var total :- Add(s1.farms[farmId].totalSharesZ, stake);
    Ok(Restaked(s1, key, total,
                pool.(accRpz := s1.farms[farmId].accRpz, updatedAt := now, stake := stake, canceled := false,
                      multiplier := multiplier)))
  }

  function RemoveLiquidityPool(s: State, who: nat, farmId: PoolId, pair: AssetPair): Result<State, Error> {
    var key := (farmId, AmmOf(pair));
    :- Need(key in s.pools, LiquidityPoolNotFound);
    var pool := s.pools[key];
    :- Need(pool.canceled, LiquidityMiningIsNotCanceled);
    :- Need(farmId in s.farms, FarmNotFound);
    var farm := s.farms[farmId];
    :- Need(who == farm.owner, Forbidden);
    :- Need(farm.livePools > 0, Underflow(PoolCount));
    var farmPot :- PotOf(farmId);
    var poolPot :- PotOf(pool.id);
    var ledger' :- Pay(s.ledger, farm.currency, poolPot, farmPot, Free(s.ledger, farm.currency, poolPot));
    Ok(WithoutPool(s, key, ledger'))
  }

  /** The second half of a deposit, after accrual: value the shares, take them in and mint the NFT. */
  function Enter(s: State, key: Key, who: nat, token: AssetId, amount: nat, now: nat): Result<State, Error>
    requires Stored(s, key)
  {
    var farm, pool := s.farms[key.0], s.pools[key];
    var valued :- Mul(amount, Free(s.ledger, farm.incentivized, key.1));
    var stake :- GlobalShares(valued, pool.multiplier);
    var totalShares :- Add(pool.totalShares, amount);
    var totalValued :- Add(pool.totalValued, valued);
    var poolStake :- Add(pool.stake, stake);
    var totalSharesZ :- Add(farm.totalSharesZ, stake);
    var ledger' :- Pay(s.ledger, token, User(who), MiningPallet, amount);
    :- Need(pool.id != 0, InvalidPoolId);
    var seq' :- NextNftSeq(s.nftSeq);
    var nft := EncodeId(pool.id, seq');
    :- Need(nft !in s.owners, NftExists);
    :- Need(pool.id in s.meta, LiquidityPoolMetadataNotFound);
    var m := s.meta[pool.id];
    :- Need(m.count + 1 <= MAX_U64, Overflow);
    Ok(s.(farms := s.farms[key.0 := farm.(totalSharesZ := totalSharesZ)],
          pools := s.pools[key := pool.(totalShares := totalShares, totalValued := totalValued, stake := poolStake)],
          deposits := s.deposits[nft := Stake(amount, valued, pool.accRpvs, 0, now, now)],
          owners := s.owners[nft := who],
          meta := s.meta[pool.id := m.(count := m.count + 1)],
          nftSeq := seq',
          ledger := ledger'))
  }

  function DepositShares(cfg: Config, s: State, who: nat, farmId: PoolId, pair: AssetPair,
                         amount: nat): Result<State, Error>
  {
    var key, token := (farmId, AmmOf(pair)), ShareToken(cfg, s, pair);
    :- Need(amount != 0, InvalidDepositAmount);
    :- Need(Free(s.ledger, token, User(who)) >= amount, InsufficientAmmSharesBalance);
    :- Need(key in s.pools, LiquidityPoolNotFound);
    :- Need(!s.pools[key].canceled, LiquidityMiningCanceled);
    :- Need(Stored(s, key), FarmNotFound);
    var now :- Period(s.block, s.farms[farmId].blocksPerPeriod);
    var s1 :- Touch(s, key, now);
    Enter(s1, key, who, token, amount, now)
  }

  function ClaimRewards(cfg: Config, s: State, who: nat, nft: NftId): Result<State, Error> {
    var id :- Require(DecodePool(nft), InvalidNftId);
    :- Need(id in s.meta, LiquidityPoolNotFound);
    var m := s.meta[id];
    var key := (m.farm, AmmOf(m.pair));
    :- Need(nft in s.deposits, NftDoesNotExist);
    :- Need(nft in s.owners, CantFindDepositOwner);
    :- Need(s.owners[nft] == who, NotDepositOwner);
    :- Need(key in s.pools, LiquidityPoolNotFound);
    :- Need(!s.pools[key].canceled, LiquidityMiningCanceled);
    :- Need(Stored(s, key), FarmNotFound);
    var now :- Period(s.block, s.farms[m.farm].blocksPerPeriod);
    :- Need(s.deposits[nft].updatedAt != now, DoubleClaimInThePeriod);
    var s1 :- Touch(s, key, now);
    var (s2, _, _) :- DoClaim(cfg, s1, key, nft, who, now);
    Ok(s2)
  }

  /** Takes a deposit out of its stored pool; `unclaimable` goes back to the farm. */
  function Leave(s: State, key: Key, nft: NftId, unclaimable: nat): (r: Result<State, Error>)
    requires Stored(s, key) && nft in s.deposits
    ensures r.Ok? ==>
              var s' := r.value;
              s' == s.(farms := s'.farms, pools := s'.pools, ledger := s'.ledger)
  {
    var d, farm, pool := s.deposits[nft], s.farms[key.0], s.pools[key];
    var farmPot :- PotOf(key.0);
    var poolPot :- PotOf(pool.id);
    var totalShares :- Sub(pool.totalShares, d.shares, PoolShares);
    var totalValued :- Sub(pool.totalValued, d.valued, PoolValued);
    var stake :- if pool.canceled then Ok(0) else GlobalShares(d.valued, pool.multiplier);
    var poolStake :- Sub(pool.stake, stake, PoolStake);
    var totalSharesZ :- Sub(farm.totalSharesZ, stake, FarmStake);
    var ledger' :- Pay(s.ledger, farm.currency, poolPot, farmPot, unclaimable);
    Ok(s.(farms := s.farms[key.0 := farm.(totalSharesZ := totalSharesZ)],
          pools := s.pools[key := pool.(totalShares := totalShares, totalValued := totalValued, stake := poolStake)],
          ledger := ledger'))
  }

  /** The pool's part of a withdrawal: accrue unless canceled, claim, leave. */
  function Exit(cfg: Config, s: State, key: Key, nft: NftId, who: nat): (r: Result<State, Error>)
    requires Stored(s, key) && nft in s.deposits
    ensures r.Ok? ==> r.value.meta == s.meta && r.value.amms == s.amms && r.value.owners == s.owners
  {
    hide Touch, DoClaim, Leave;
    var now :- Period(s.block, s.farms[key.0].blocksPerPeriod);
    var s1 :- if s.pools[key].canceled then Ok(s) else Touch(s, key, now);
    var (s2, _, unclaimable) :- DoClaim(cfg, s1, key, nft, who, now);
    Leave(s2, key, nft, unclaimable)
  }

  /** The end of a withdrawal: return the LP shares (none once the AMM is gone), burn the NFT, drop the deposit. */
  function Depart(cfg: Config, s: State, who: nat, nft: NftId, id: PoolId, shares: nat,
                  stored: bool): Result<State, Error>
    requires id in s.meta
  {
    var amm := AmmOf(s.meta[id].pair);
    var ledger' :- if amm in s.amms then Pay(s.ledger, cfg.shareToken(amm), MiningPallet, User(who), shares)
                   else Ok(s.ledger);
    :- Need(s.meta[id].count > 0, Underflow(NftCount));
    Ok(s.(deposits := s.deposits - {nft}, owners := s.owners - {nft}, meta := MetaAfterExit(s.meta, id, stored),
          ledger := ledger'))
  }

  function WithdrawShares(cfg: Config, s: State, who: nat, nft: NftId): Result<State, Error> {
    hide Exit, DecodePool;
    var owner :- if nft in s.owners then Ok(s.owners[nft]) else Err(CantFindDepositOwner);
    :- Need(owner == who, NotDepositOwner);
    var id :- Require(DecodePool(nft), InvalidNftId);
    :- Need(id in s.meta, LiquidityPoolNotFound);
    var m := s.meta[id];
    var key := (m.farm, AmmOf(m.pair));
    :- Need(nft in s.deposits, NftDoesNotExist);
    :- Need(key in s.pools ==> Stored(s, key), FarmNotFound);
    var s1 :- if key in s.pools then Exit(cfg, s, key, nft, who) else Ok(s);
    Depart(cfg, s1, who, nft, id, s.deposits[nft].shares, key in s.pools)
  }
}
