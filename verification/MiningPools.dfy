/** What one yield pool owes its deposits. A `View` is a pool together with its deposits and the balance of its
    account; each lemma says that one kind of change to a pool keeps it solvent and its totals exact. */
module MiningPools {
  import opened Basics
  import opened Sums
  import opened Rounding
  import opened Mining

  /** `slack` counts the deposits the pool had when its multiplier was last set. */
  datatype View = View(pool: Pool, deps: map<NftId, Stake>, funds: nat, slack: nat)

  ghost function Weigh(deps: map<NftId, Stake>, f: Stake -> int): map<NftId, int> {
    map n | n in deps :: f(deps[n])
  }

  /** The sum of `f` over all deposits. */
  ghost function Total(deps: map<NftId, Stake>, f: Stake -> int): int {
    Sum(Weigh(deps, f))
  }

  function SharesFn(): Stake -> int { (d: Stake) => d.shares }
  function ValuedFn(): Stake -> int { (d: Stake) => d.valued }
  function StakeFn(multiplier: nat): Stake -> int { (d: Stake) => FixedMul(multiplier, d.valued) }

  /** Everything a deposit has earned, loyalty aside, when its pool's accumulator stands at `rpvs`. */
  function Most(rpvs: nat, d: Stake): int { (rpvs - d.accRpvs) * d.valued }

  function OwedFn(rpvs: nat): Stake -> int { (d: Stake) => Most(rpvs, d) - d.claimed }

  /** Claims so far stay within what loyalty allowed at the last claim. */
  predicate Vested(cfg: Config, curve: Option<Curve>, rpvs: nat, d: Stake)
    requires d.enteredAt <= d.updatedAt
  {
    var loyalty := LoyaltyMultiplier(cfg, d.updatedAt - d.enteredAt, curve);
    d.claimed == 0 || (loyalty.Ok? && Most(rpvs, d) >= 0 && d.claimed <= FixedMul(loyalty.value, Most(rpvs, d)))
  }

  predicate DepositOK(cfg: Config, curve: Option<Curve>, rpvs: nat, d: Stake, now: nat) {
    && d.accRpvs <= rpvs
    && d.enteredAt <= d.updatedAt <= now
    && Vested(cfg, curve, rpvs, d)
  }

  ghost predicate DepositsOK(cfg: Config, curve: Option<Curve>, rpvs: nat, deps: map<NftId, Stake>, now: nat) {
    forall n {:trigger DepositOK(cfg, curve, rpvs, deps[n], now)} ::
      n in deps ==> DepositOK(cfg, curve, rpvs, deps[n], now)
  }

  ghost predicate TotalsOK(v: View) {
    && v.pool.totalShares == Total(v.deps, SharesFn())
    && v.pool.totalValued == Total(v.deps, ValuedFn())
  }

  /** The stake covers the rounded stakes of the deposits, and exceeds them by at most `slack`. */
  ghost predicate StakeOK(v: View) {
    if v.pool.canceled then v.pool.stake == 0
    else
      var exact := Total(v.deps, StakeFn(v.pool.multiplier));
      exact <= v.pool.stake <= exact + v.slack && v.pool.stake <= MAX_U128
  }

  ghost predicate Solvent(v: View) {
    Total(v.deps, OwedFn(v.pool.accRpvs)) <= v.funds
  }

  ghost predicate PoolOK(cfg: Config, v: View, now: nat) {
    && TotalsOK(v)
    && StakeOK(v)
    && Solvent(v)
    && v.pool.updatedAt <= now
    && DepositsOK(cfg, v.pool.curve, v.pool.accRpvs, v.deps, now)
  }

  // Totals when one deposit enters, leaves or changes, whatever is totalled.

  lemma TotalOnEntry(deps: map<NftId, Stake>, f: Stake -> int, nft: NftId, d: Stake)
    requires nft !in deps
    ensures Total(deps[nft := d], f) == Total(deps, f) + f(d)
  {
    assert Weigh(deps[nft := d], f) == Weigh(deps, f)[nft := f(d)];
    SumInsert(Weigh(deps, f), nft, f(d));
  }

  lemma TotalOnChange(deps: map<NftId, Stake>, f: Stake -> int, nft: NftId, d: Stake)
    requires nft in deps
    ensures Total(deps[nft := d], f) == Total(deps, f) - f(deps[nft]) + f(d)
  {
    assert Weigh(deps[nft := d], f) == Weigh(deps, f)[nft := f(d)];
    SumUpdate(Weigh(deps, f), nft, f(d));
  }

  lemma TotalOnExit(deps: map<NftId, Stake>, f: Stake -> int, nft: NftId)
    requires nft in deps
    ensures Total(deps - {nft}, f) == Total(deps, f) - f(deps[nft])
  {
    assert Weigh(deps - {nft}, f) == Weigh(deps, f) - {nft};
    SumRemove(Weigh(deps, f), nft);
  }

  lemma TotalNonNegative(deps: map<NftId, Stake>, f: Stake -> int)
    requires forall n :: n in deps ==> 0 <= f(deps[n])
    ensures 0 <= Total(deps, f)
    ensures forall n :: n in deps ==> f(deps[n]) <= Total(deps, f)
  {
    SumNonNegative(Weigh(deps, f));
    forall n | n in deps
      ensures f(deps[n]) <= Total(deps, f)
    {
      SumAtLeast(Weigh(deps, f), n);
      assert Weigh(deps, f)[n] == f(deps[n]);
    }
  }

  // One deposit.

  lemma LoyaltyLaw(cfg: Config, curve: Option<Curve>, p: nat, q: nat)
    requires Lawful(cfg) && p <= q
    requires LoyaltyMultiplier(cfg, p, curve).Ok? && LoyaltyMultiplier(cfg, q, curve).Ok?
    ensures LoyaltyMultiplier(cfg, p, curve).value <= LoyaltyMultiplier(cfg, q, curve).value <= FIXED_ONE
  {
  }

  lemma MostGrows(rpvs: nat, rpvs': nat, d: Stake)
    requires d.accRpvs <= rpvs <= rpvs'
    ensures 0 <= Most(rpvs, d) <= Most(rpvs', d)
    ensures Most(rpvs', d) == Most(rpvs, d) + (rpvs' - rpvs) * d.valued
  {
    MulMonotone(0, rpvs - d.accRpvs, d.valued);
    MulMonotone(rpvs - d.accRpvs, rpvs' - d.accRpvs, d.valued);
    Distribute(d.valued, rpvs - d.accRpvs, rpvs' - rpvs);
  }

  /** Nobody has been paid more than was earned. */
  lemma OwedNonNegative(cfg: Config, curve: Option<Curve>, rpvs: nat, d: Stake, now: nat)
    requires Lawful(cfg) && DepositOK(cfg, curve, rpvs, d, now)
    ensures 0 <= OwedFn(rpvs)(d)
  {
    MostGrows(rpvs, rpvs, d);
    if d.claimed != 0 {
      var periods := d.updatedAt - d.enteredAt;
      LoyaltyLaw(cfg, curve, periods, periods);
      FixedMulBelow(LoyaltyMultiplier(cfg, periods, curve).value, Most(rpvs, d));
    }
  }

  lemma DepositSurvivesAccrual(cfg: Config, curve: Option<Curve>, rpvs: nat, rpvs': nat, d: Stake, now: nat, now': nat)
    requires DepositOK(cfg, curve, rpvs, d, now) && now <= now' && rpvs <= rpvs'
    ensures DepositOK(cfg, curve, rpvs', d, now')
  {
    MostGrows(rpvs, rpvs', d);
    if d.claimed != 0 {
      var loyalty := LoyaltyMultiplier(cfg, d.updatedAt - d.enteredAt, curve).value;
      FixedMulMonotone(loyalty, loyalty, Most(rpvs, d), Most(rpvs', d));
    }
  }

  lemma DepositsSurvive(cfg: Config, curve: Option<Curve>, rpvs: nat, rpvs': nat, deps: map<NftId, Stake>, now: nat,
                        now': nat)
    requires DepositsOK(cfg, curve, rpvs, deps, now) && now <= now' && rpvs <= rpvs'
    ensures DepositsOK(cfg, curve, rpvs', deps, now')
  {
    forall n | n in deps
      ensures DepositOK(cfg, curve, rpvs', deps[n], now')
    {
      DepositSurvivesAccrual(cfg, curve, rpvs, rpvs', deps[n], now, now');
    }
  }

  lemma OwedTotals(cfg: Config, curve: Option<Curve>, rpvs: nat, deps: map<NftId, Stake>, now: nat)
    requires Lawful(cfg) && DepositsOK(cfg, curve, rpvs, deps, now)
    ensures 0 <= Total(deps, OwedFn(rpvs))
    ensures forall n :: n in deps ==> 0 <= OwedFn(rpvs)(deps[n]) <= Total(deps, OwedFn(rpvs))
  {
    forall n | n in deps
      ensures 0 <= OwedFn(rpvs)(deps[n])
    {
      OwedNonNegative(cfg, curve, rpvs, deps[n], now);
    }
    TotalNonNegative(deps, OwedFn(rpvs));
  }

  /** The arithmetic of a claim at `now`: nothing underflows, and the claimed total becomes the loyalty share of
      everything earned, whatever was claimed before. */
  lemma ClaimArithmetic(cfg: Config, curve: Option<Curve>, rpvs: nat, d: Stake, loyalty: nat, now: nat)
    requires Lawful(cfg) && DepositOK(cfg, curve, rpvs, d, now)
    requires LoyaltyMultiplier(cfg, now - d.enteredAt, curve) == Ok(loyalty)
    ensures 0 <= Most(rpvs, d)
    ensures d.claimed <= FixedMul(loyalty, Most(rpvs, d)) <= Most(rpvs, d)
    ensures Most(rpvs, d) > MAX_U128 ==> UserReward(d, rpvs, loyalty) == Err(Overflow)
    ensures Most(rpvs, d) <= MAX_U128 ==>
              UserReward(d, rpvs, loyalty) ==
              Ok((FixedMul(loyalty, Most(rpvs, d)) - d.claimed, Most(rpvs, d) - FixedMul(loyalty, Most(rpvs, d))))
  {
    var most := Most(rpvs, d);
    MostGrows(rpvs, rpvs, d);
    LoyaltyLaw(cfg, curve, now - d.enteredAt, now - d.enteredAt);
    FixedMulBelow(loyalty, most);
    if d.claimed != 0 {
      LoyaltyLaw(cfg, curve, d.updatedAt - d.enteredAt, now - d.enteredAt);
      FixedMulMonotone(LoyaltyMultiplier(cfg, d.updatedAt - d.enteredAt, curve).value, loyalty, most, most);
    }
  }

  lemma ClaimVests(cfg: Config, curve: Option<Curve>, rpvs: nat, d: Stake, loyalty: nat, now: nat)
    requires Lawful(cfg) && DepositOK(cfg, curve, rpvs, d, now)
    requires LoyaltyMultiplier(cfg, now - d.enteredAt, curve) == Ok(loyalty)
    ensures var total := (ClaimArithmetic(cfg, curve, rpvs, d, loyalty, now); FixedMul(loyalty, Most(rpvs, d)));
            DepositOK(cfg, curve, rpvs, d.(claimed := total, updatedAt := now), now)
  {
    ClaimArithmetic(cfg, curve, rpvs, d, loyalty, now);
    assert Most(rpvs, d.(claimed := FixedMul(loyalty, Most(rpvs, d)), updatedAt := now)) == Most(rpvs, d);
  }

  // The whole pool.

  /** Owed amounts grow by the per-share reward times the valued shares: never by more than was paid in. */
  lemma OwedAfterAccrual(cfg: Config, curve: Option<Curve>, deps: map<NftId, Stake>, rpvs: nat, rpvs': nat, now: nat)
    requires rpvs <= rpvs'
    requires DepositsOK(cfg, curve, rpvs, deps, now)
    ensures Total(deps, OwedFn(rpvs')) == Total(deps, OwedFn(rpvs)) + (rpvs' - rpvs) * Total(deps, ValuedFn())
  {
    var f := rpvs' - rpvs;
    var scaled := map n | n in deps :: f * deps[n].valued;
    var valued := Weigh(deps, ValuedFn());
    forall n | n in deps
      ensures Scaled(f, valued[n], scaled[n])
    {
    }
    SumScale(valued, f, scaled);
    var before, after := Weigh(deps, OwedFn(rpvs)), Weigh(deps, OwedFn(rpvs'));
    forall n | n in deps
      ensures after[n] == before[n] + scaled[n]
    {
      assert DepositOK(cfg, curve, rpvs, deps[n], now);
      MostGrows(rpvs, rpvs', deps[n]);
    }
    SumAdd(before, scaled, after);
  }

  lemma AccrualSolvent(cfg: Config, curve: Option<Curve>, deps: map<NftId, Stake>, rpvs: nat, perShare: nat,
                       reward: nat, funds: nat, now: nat)
    requires DepositsOK(cfg, curve, rpvs, deps, now)
    requires Total(deps, OwedFn(rpvs)) <= funds
    requires perShare * Total(deps, ValuedFn()) <= reward
    ensures Total(deps, OwedFn(rpvs + perShare)) <= funds + reward
  {
    OwedAfterAccrual(cfg, curve, deps, rpvs, rpvs + perShare, now);
  }

  /** A pool that receives `reward` and spreads its floored share stays solvent. */
  lemma AccrualKeeps(cfg: Config, v: View, v': View, reward: nat, perShare: nat, now: nat, now': nat)
    requires PoolOK(cfg, v, now) && now <= now'
    requires perShare * v.pool.totalValued <= reward
    requires v' == v.(pool := v.pool.(accRpvs := v.pool.accRpvs + perShare,
                                      updatedAt := now', accRpz := v'.pool.accRpz),
                      funds := v.funds + reward)
    ensures PoolOK(cfg, v', now')
  {
    AccrualSolvent(cfg, v.pool.curve, v.deps, v.pool.accRpvs, perShare, reward, v.funds, now);
    DepositsSurvive(cfg, v.pool.curve, v.pool.accRpvs, v'.pool.accRpvs, v.deps, now, now');
  }

  /** Time passing, donations to the account and changes of fields no deposit depends on. */
  lemma DriftKeeps(cfg: Config, v: View, v': View, now: nat, now': nat)
    requires PoolOK(cfg, v, now) && now <= now'
    requires v'.deps == v.deps && v.funds <= v'.funds
    requires v'.pool == v.pool.(accRpz := v'.pool.accRpz, updatedAt := v'.pool.updatedAt,
                                stake := v'.pool.stake, multiplier := v'.pool.multiplier, canceled := v'.pool.canceled)
    requires v'.pool.updatedAt <= now' && StakeOK(v')
    ensures PoolOK(cfg, v', now')
  {
    DepositsSurvive(cfg, v.pool.curve, v.pool.accRpvs, v.pool.accRpvs, v.deps, now, now');
  }

  lemma FreshDeposit(cfg: Config, curve: Option<Curve>, rpvs: nat, d: Stake, now: nat)
    requires d == Stake(d.shares, d.valued, rpvs, 0, now, now)
    ensures OwedFn(rpvs)(d) == 0
    ensures DepositOK(cfg, curve, rpvs, d, now)
  {
  }

  lemma ChangedDeposits(cfg: Config, curve: Option<Curve>, rpvs: nat, deps: map<NftId, Stake>, nft: NftId, d: Stake,
                        now: nat)
    requires DepositsOK(cfg, curve, rpvs, deps, now)
    requires DepositOK(cfg, curve, rpvs, d, now)
    ensures DepositsOK(cfg, curve, rpvs, deps[nft := d], now)
  {
  }

  lemma PaidOwed(rpvs: nat, m: nat, d: Stake, d': Stake, reward: nat, now: nat)
    requires d' == d.(claimed := d.claimed + reward, updatedAt := now)
    ensures OwedFn(rpvs)(d') == OwedFn(rpvs)(d) - reward
    ensures StakeFn(m)(d') == StakeFn(m)(d)
  {
  }

  /** A new deposit starts with nothing owed and enters every total. */
  lemma EntryKeeps(cfg: Config, v: View, v': View, nft: NftId, d: Stake, stake: nat, now: nat)
    requires PoolOK(cfg, v, now) && !v.pool.canceled
    requires nft !in v.deps
    requires d == Stake(d.shares, d.valued, v.pool.accRpvs, 0, now, now)
    requires stake == StakeFn(v.pool.multiplier)(d) && v.pool.stake + stake <= MAX_U128
    requires v' == v.(pool := v.pool.(totalShares := v.pool.totalShares + d.shares,
                                      totalValued := v.pool.totalValued + d.valued,
                                      stake := v.pool.stake + stake),
                      deps := v.deps[nft := d])
    ensures PoolOK(cfg, v', now)
  {
    TotalOnEntry(v.deps, SharesFn(), nft, d);
    TotalOnEntry(v.deps, ValuedFn(), nft, d);
    TotalOnEntry(v.deps, StakeFn(v.pool.multiplier), nft, d);
    TotalOnEntry(v.deps, OwedFn(v.pool.accRpvs), nft, d);
    FreshDeposit(cfg, v.pool.curve, v.pool.accRpvs, d, now);
    ChangedDeposits(cfg, v.pool.curve, v.pool.accRpvs, v.deps, nft, d, now);
  }

  /** Paying a claim out of the pool's account keeps the pool solvent. */
  lemma ClaimKeeps(cfg: Config, v: View, v': View, nft: NftId, reward: nat, now: nat)
    requires Lawful(cfg) && PoolOK(cfg, v, now) && nft in v.deps
    requires reward <= OwedFn(v.pool.accRpvs)(v.deps[nft])
    requires reward <= v.funds ==>
               v' == v.(deps := v.deps[nft := v.deps[nft].(claimed := v.deps[nft].claimed + reward, updatedAt := now)],
                        funds := v.funds - reward) &&
               DepositOK(cfg, v.pool.curve, v.pool.accRpvs, v'.deps[nft], now)
    ensures reward <= v.funds && PoolOK(cfg, v', now)
  {
    OwedTotals(cfg, v.pool.curve, v.pool.accRpvs, v.deps, now);
    var d, d' := v.deps[nft], v'.deps[nft];
    TotalOnChange(v.deps, SharesFn(), nft, d');
    TotalOnChange(v.deps, ValuedFn(), nft, d');
    TotalOnChange(v.deps, StakeFn(v.pool.multiplier), nft, d');
    TotalOnChange(v.deps, OwedFn(v.pool.accRpvs), nft, d');
    PaidOwed(v.pool.accRpvs, v.pool.multiplier, d, d', reward, now);
    ChangedDeposits(cfg, v.pool.curve, v.pool.accRpvs, v.deps, nft, d', now);
  }

  /** A leaving deposit takes its own summands out of every total: the checked subtractions cannot fail, and
      what it forfeits can be paid back to the farm. */
  lemma ExitFits(cfg: Config, v: View, nft: NftId, now: nat)
    requires Lawful(cfg) && PoolOK(cfg, v, now) && nft in v.deps
    ensures v.deps[nft].shares <= v.pool.totalShares
    ensures v.deps[nft].valued <= v.pool.totalValued
    ensures !v.pool.canceled ==> StakeFn(v.pool.multiplier)(v.deps[nft]) <= v.pool.stake
    ensures 0 <= OwedFn(v.pool.accRpvs)(v.deps[nft]) <= v.funds
  {
    TotalNonNegative(v.deps, SharesFn());
    TotalNonNegative(v.deps, ValuedFn());
    TotalNonNegative(v.deps, StakeFn(v.pool.multiplier));
    OwedTotals(cfg, v.pool.curve, v.pool.accRpvs, v.deps, now);
  }

  lemma ExitKeeps(cfg: Config, v: View, v': View, nft: NftId, stake: nat, unclaimable: nat, now: nat)
    requires Lawful(cfg) && PoolOK(cfg, v, now) && nft in v.deps
    requires v.deps[nft].shares <= v.pool.totalShares && v.deps[nft].valued <= v.pool.totalValued
    requires stake == if v.pool.canceled then 0 else StakeFn(v.pool.multiplier)(v.deps[nft])
    requires stake <= v.pool.stake
    requires unclaimable <= OwedFn(v.pool.accRpvs)(v.deps[nft]) && unclaimable <= v.funds
    requires v' == View(v.pool.(totalShares := v.pool.totalShares - v.deps[nft].shares,
                                totalValued := v.pool.totalValued - v.deps[nft].valued,
                                stake := v.pool.stake - stake),
                        v.deps - {nft}, v.funds - unclaimable, v.slack)
    ensures PoolOK(cfg, v', now)
  {
    TotalOnExit(v.deps, SharesFn(), nft);
    TotalOnExit(v.deps, ValuedFn(), nft);
    TotalOnExit(v.deps, StakeFn(v.pool.multiplier), nft);
    TotalOnExit(v.deps, OwedFn(v.pool.accRpvs), nft);
  }

  ghost predicate RoundsBetween(g: nat -> int, a: nat, b: nat) {
    g(a) + g(b) <= g(a + b) <= g(a) + g(b) + 1
  }

  ghost predicate RoundsTo(f: Stake -> int, g: nat -> int, d: Stake) { f(d) == g(d.valued) }

  lemma RoundStep(g: nat -> int, a: nat, b: nat, total: nat, f: int, n: int)
    requires RoundsBetween(g, a, b) && total == a + b
    requires f <= g(b) <= f + n
    ensures f + g(a) <= g(total) <= f + g(a) + n + 1
  {
  }

  lemma {:induction false} RoundedTotal(deps: map<NftId, Stake>, g: nat -> int, f: Stake -> int)
    requires g(0) == 0
    requires forall a: nat, b: nat :: RoundsBetween(g, a, b)
    requires forall n {:trigger RoundsTo(f, g, deps[n])} :: n in deps ==> RoundsTo(f, g, deps[n])
    ensures 0 <= Total(deps, ValuedFn())
    ensures Total(deps, f) <= g(Total(deps, ValuedFn())) <= Total(deps, f) + |deps|
    decreases |deps|
  {
    if deps == map[] {
      assert Weigh(deps, ValuedFn()) == map[] && Weigh(deps, f) == map[];
    } else {
      var n := Pick(deps);
      var rest := deps - {n};
      assert rest.Keys == deps.Keys - {n};
      assert |rest| == |deps| - 1;
      assert forall k :: k in rest ==> rest[k] == deps[k];
      RoundedTotal(rest, g, f);
      TotalOnExit(deps, ValuedFn(), n);
      TotalOnExit(deps, f, n);
      assert RoundsTo(f, g, deps[n]);
      RoundStep(g, deps[n].valued, Total(rest, ValuedFn()), Total(deps, ValuedFn()), Total(rest, f), |rest|);
    }
  }

  /** Rounding once over the total gains at most one unit per deposit over rounding each deposit. */
  lemma StakeRounding(deps: map<NftId, Stake>, m: nat)
    ensures 0 <= Total(deps, ValuedFn())
    ensures Total(deps, StakeFn(m)) <= FixedMul(m, Total(deps, ValuedFn())) <= Total(deps, StakeFn(m)) + |deps|
  {
    var g := (x: nat) => FixedMul(m, x) as int;
    forall a: nat, b: nat
      ensures RoundsBetween(g, a, b)
    {
      FixedMulSplit(m, a, b);
    }
    RoundedTotal(deps, g, StakeFn(m));
  }
}
