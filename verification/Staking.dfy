/** The reward projection for a prospective stake, over the reals. */
module Staking {
  import opened Prelude

  const SECONDS_PER_DAY := 86400.0
  const SECONDS_IN_YEAR := 365.25 * 24.0 * 3600.0

  /** What the contract reports; a figure that cannot be read is 0. */
  datatype Stats = Stats(totalStaked: real, rewardRate: real, timeUntilEnd: real)

  datatype Tier = Tier(id: int, multiplier: Option<real>)

  datatype Projection =
    | ContractUnavailable
    | TierNotFound
    | NotEmitting
    | PeriodEnded
    | NotFinite              // the weighted pool is empty: the share is 0 / 0
    | Projected(rewards: real, totalValue: real, apr: Option<real>)

  function FindTier(tiers: seq<Tier>, id: int): Option<Tier> {
    if tiers == [] then None else if tiers[0].id == id then Some(tiers[0]) else FindTier(tiers[1..], id)
  }

  /** `tier.multiplier || 1` */
  function Multiplier(t: Tier): real {
    if t.multiplier.Some? && t.multiplier.value != 0.0 then t.multiplier.value else 1.0
  }

  function Min(a: real, b: real): real {
    if a <= b then a else b
  }

  function Accruing(s: Stats, duration: real): real {
    Min(duration * SECONDS_PER_DAY, s.timeUntilEnd)
  }

  /** What the contract emits in the time that counts. */
  function Emitted(s: Stats, duration: real): real {
    s.rewardRate * Accruing(s, duration)
  }

  function Weight(principal: real, multiplier: real): real {
    principal * multiplier
  }

  /** The weighted share of a stake, with the stake itself in the pool. */
  function Share(weight: real, others: real): real
    requires others + weight != 0.0
  {
    weight / (others + weight)
  }

  function Portion(all: real, share: real): real {
    all * share
  }

  function Apr(rewardRate: real, share: real, principal: real): Option<real> {
    if principal > 0.0 then Some(rewardRate * SECONDS_IN_YEAR * share / principal * 100.0) else None
  }

  function Project(s: Stats, multiplier: real, principal: real, duration: real): Projection {
    var weight := Weight(principal, multiplier);
    if s.rewardRate <= 0.0 then NotEmitting
    else if s.timeUntilEnd <= 0.0 then PeriodEnded
    else if s.totalStaked + weight == 0.0 then NotFinite
    else
      var share := Share(weight, s.totalStaked);
      var rewards := Portion(Emitted(s, duration), share);
      Projected(rewards, principal + rewards, Apr(s.rewardRate, share, principal))
  }

  function CalculateProjectedRewards(stats: Option<Stats>, tiers: seq<Tier>, tierId: int, principal: real, duration: real): Projection {
    if stats.None? then ContractUnavailable
    else
      var tier := FindTier(tiers, tierId);
      if tier.None? then TierNotFound else Project(stats.value, Multiplier(tier.value), principal, duration)
  }

  // ---------------------------------------------------------------- fractions

  lemma FractionsOrdered(a: real, b: real, c: real, d: real)
    requires b > 0.0 && d > 0.0
    ensures a * d <= c * b <==> a / b <= c / d
    ensures a * d < c * b <==> a / b < c / d
  {
    var q, r := a / b, c / d;
    assert a * d == q * (b * d) && c * b == r * (b * d);
  }

  lemma PortionGrowsWithShare(all: real, x: real, y: real)
    requires all >= 0.0 && x <= y
    ensures Portion(all, x) <= Portion(all, y)
  {
  }

  lemma PortionGrowsWithAll(x: real, y: real, share: real)
    requires share >= 0.0 && x <= y
    ensures Portion(x, share) <= Portion(y, share)
  {
  }

  lemma PortionBounded(all: real, share: real)
    requires all >= 0.0 && 0.0 <= share <= 1.0
    ensures 0.0 <= Portion(all, share) <= all
  {
    PortionGrowsWithShare(all, 0.0, share);
    PortionGrowsWithShare(all, share, 1.0);
  }

  lemma PortionAdds(all: real, x: real, y: real)
    ensures Portion(all, x + y) == Portion(all, x) + Portion(all, y)
  {
  }

  lemma PortionsOrdered(rate: real, x: real, y: real, share: real)
    requires rate > 0.0 && share > 0.0 && x < y
    ensures Portion(rate * x, share) < Portion(rate * y, share)
  {
    var a, b := rate * x, rate * y;
    assert b - a == rate * (y - x) > 0.0;
    assert Portion(b, share) - Portion(a, share) == (b - a) * share > 0.0;
  }

  lemma PortionsEqualExactly(rate: real, x: real, y: real, share: real)
    requires rate > 0.0 && share >= 0.0
    ensures Portion(rate * x, share) == Portion(rate * y, share) <==> share == 0.0 || x == y
  {
    if share > 0.0 && x < y {
      PortionsOrdered(rate, x, y, share);
    } else if share > 0.0 && y < x {
      PortionsOrdered(rate, y, x, share);
    }
  }

  lemma WeightGrows(multiplier: real, x: real, y: real)
    requires multiplier > 0.0 && 0.0 <= x <= y
    ensures 0.0 <= Weight(x, multiplier) <= Weight(y, multiplier)
    ensures x > 0.0 ==> Weight(x, multiplier) > 0.0
    ensures x < y ==> Weight(x, multiplier) < Weight(y, multiplier)
  {
    assert Weight(y, multiplier) - Weight(x, multiplier) == (y - x) * multiplier;
  }

  lemma WeightAdds(multiplier: real, x: real, y: real)
    ensures Weight(x + y, multiplier) == Weight(x, multiplier) + Weight(y, multiplier)
  {
  }

  lemma EmittedGrows(s: Stats, duration: real, longer: real)
    requires s.rewardRate > 0.0 && s.timeUntilEnd > 0.0 && 0.0 <= duration <= longer
    ensures 0.0 <= Emitted(s, duration) <= Emitted(s, longer)
  {
    PortionGrowsWithShare(s.rewardRate, Accruing(s, duration), Accruing(s, longer));
    PortionGrowsWithShare(s.rewardRate, 0.0, Accruing(s, duration));
  }

  lemma CrossProducts(x: real, y: real, others: real)
    requires others >= 0.0 && x <= y
    ensures x * (others + y) <= y * (others + x)
  {
    PortionGrowsWithShare(others, x, y);
    assert x * (others + y) == Portion(others, x) + x * y;
    assert y * (others + x) == Portion(others, y) + x * y;
  }

  lemma ShareBounded(x: real, others: real)
    requires others >= 0.0 && x >= 0.0 && others + x > 0.0
    ensures 0.0 <= Share(x, others) <= 1.0
    ensures Share(x, others) == 0.0 <==> x == 0.0
  {
    FractionsOrdered(0.0, 1.0, x, others + x);
    FractionsOrdered(x, others + x, 1.0, 1.0);
  }

  lemma ShareGrows(x: real, y: real, others: real)
    requires others >= 0.0 && 0.0 <= x <= y && others + x > 0.0
    ensures 0.0 <= Share(x, others) <= Share(y, others) <= 1.0
  {
    ShareBounded(x, others);
    ShareBounded(y, others);
    CrossProducts(x, y, others);
    FractionsOrdered(x, others + x, y, others + y);
  }

  /** In a larger pool the same weight has a smaller fraction. */
  lemma LargerPool(x: real, pool: real, more: real)
    requires x >= 0.0 && pool > 0.0 && more >= 0.0
    ensures x / (pool + more) <= x / pool
  {
    PortionGrowsWithShare(x, pool, pool + more);
    FractionsOrdered(x, pool + more, x, pool);
  }

  lemma FractionsAdd(a: real, b: real, pool: real)
    requires pool > 0.0
    ensures a / pool + b / pool == (a + b) / pool
  {
  }

  lemma ShareSubadditive(x: real, y: real, others: real)
    requires others >= 0.0 && x >= 0.0 && y >= 0.0 && others + x > 0.0 && others + y > 0.0
    ensures Share(x + y, others) <= Share(x, others) + Share(y, others)
  {
    LargerPool(x, others + x, y);
    LargerPool(y, others + y, x);
    FractionsAdd(x, y, others + x + y);
  }

  // ---------------------------------------------------------------- the projection

  /** A pool with a running period, and a stake with something in it or something beside it. */
  predicate Running(s: Stats, multiplier: real, principal: real) {
    && s.rewardRate > 0.0 && s.timeUntilEnd > 0.0 && s.totalStaked >= 0.0 && multiplier > 0.0 && principal >= 0.0
    && s.totalStaked + Weight(principal, multiplier) > 0.0
  }

  /** Rewards lie between nothing and everything the contract emits in the time that counts. */
  lemma RewardsWithinEmission(s: Stats, multiplier: real, principal: real, duration: real)
    requires Running(s, multiplier, principal) && duration >= 0.0
    ensures 0.0 <= Project(s, multiplier, principal, duration).rewards <= Emitted(s, duration)
    ensures Emitted(s, duration) <= s.rewardRate * s.timeUntilEnd
  {
    WeightGrows(multiplier, principal, principal);
    ShareBounded(Weight(principal, multiplier), s.totalStaked);
    EmittedGrows(s, duration, duration);
    PortionBounded(Emitted(s, duration), Share(Weight(principal, multiplier), s.totalStaked));
    PortionGrowsWithShare(s.rewardRate, Accruing(s, duration), s.timeUntilEnd);
  }

  /** More staked never projects less. */
  lemma RewardsGrowWithStake(s: Stats, multiplier: real, principal: real, more: real, duration: real)
    requires Running(s, multiplier, principal) && principal <= more && 0.0 <= duration
    ensures Running(s, multiplier, more)
    ensures Project(s, multiplier, principal, duration).rewards <= Project(s, multiplier, more, duration).rewards
  {
    var x, y := Weight(principal, multiplier), Weight(more, multiplier);
    WeightGrows(multiplier, principal, more);
    ShareGrows(x, y, s.totalStaked);
    EmittedGrows(s, duration, duration);
    PortionGrowsWithShare(Emitted(s, duration), Share(x, s.totalStaked), Share(y, s.totalStaked));
  }

  /** Staked for longer never projects less. */
  lemma RewardsGrowWithDuration(s: Stats, multiplier: real, principal: real, duration: real, longer: real)
    requires Running(s, multiplier, principal) && 0.0 <= duration <= longer
    ensures Project(s, multiplier, principal, duration).rewards <= Project(s, multiplier, principal, longer).rewards
  {
    WeightGrows(multiplier, principal, principal);
    ShareBounded(Weight(principal, multiplier), s.totalStaked);
    EmittedGrows(s, duration, longer);
    PortionGrowsWithAll(Emitted(s, duration), Emitted(s, longer), Share(Weight(principal, multiplier), s.totalStaked));
  }

  /** Two durations project the same exactly when they agree up to the end of the period, or nothing is staked. */
  lemma DurationMattersExactly(s: Stats, multiplier: real, principal: real, a: real, b: real)
    requires Running(s, multiplier, principal)
    ensures Project(s, multiplier, principal, a).rewards == Project(s, multiplier, principal, b).rewards
      <==> (principal == 0.0 || a == b || (a * SECONDS_PER_DAY >= s.timeUntilEnd && b * SECONDS_PER_DAY >= s.timeUntilEnd))
  {
    WeightGrows(multiplier, principal, principal);
    ShareBounded(Weight(principal, multiplier), s.totalStaked);
    PortionsEqualExactly(s.rewardRate, Accruing(s, a), Accruing(s, b), Share(Weight(principal, multiplier), s.totalStaked));
  }

  /** Splitting a stake never projects less in total. */
  lemma SplittingNeverLoses(s: Stats, multiplier: real, a: real, b: real, duration: real)
    requires Running(s, multiplier, a) && Running(s, multiplier, b) && duration >= 0.0
    ensures Running(s, multiplier, a + b)
    ensures Project(s, multiplier, a + b, duration).rewards
      <= Project(s, multiplier, a, duration).rewards + Project(s, multiplier, b, duration).rewards
  {
    var x, y := Weight(a, multiplier), Weight(b, multiplier);
    WeightGrows(multiplier, a, a);
    WeightGrows(multiplier, b, b);
    WeightAdds(multiplier, a, b);
    ShareSubadditive(x, y, s.totalStaked);
    var both, one, other := Share(x + y, s.totalStaked), Share(x, s.totalStaked), Share(y, s.totalStaked);
    EmittedGrows(s, duration, duration);
    PortionGrowsWithShare(Emitted(s, duration), both, one + other);
    PortionAdds(Emitted(s, duration), one, other);
  }

  lemma AprProducts(rewardRate: real, weight: real, others: real, principal: real, multiplier: real)
    requires principal > 0.0 && weight == Weight(principal, multiplier) && others + weight > 0.0
    ensures var apr := Apr(rewardRate, Share(weight, others), principal).value;
      && apr * principal == rewardRate * SECONDS_IN_YEAR * Share(weight, others) * 100.0
      && apr * (others + weight) == rewardRate * SECONDS_IN_YEAR * multiplier * 100.0
  {
    var share := Share(weight, others);
    var yearly := rewardRate * SECONDS_IN_YEAR * share / principal;
    assert yearly * principal == rewardRate * SECONDS_IN_YEAR * share;
    assert share * (others + weight) == principal * multiplier;
    assert yearly * (others + weight) * principal == rewardRate * SECONDS_IN_YEAR * multiplier * principal;
  }

  /**
   * The displayed rate is a year's emission, by the projected share, per token staked; and it is what one weighted
   * token of the whole pool earns.
   */
  lemma AprMeaning(s: Stats, multiplier: real, principal: real, duration: real)
    requires Running(s, multiplier, principal)
    ensures var apr := Project(s, multiplier, principal, duration).apr;
      var weight := Weight(principal, multiplier);
      && (apr.Some? <==> principal > 0.0)
      && (apr.Some? ==> apr.value * principal == s.rewardRate * 31_557_600.0 * Share(weight, s.totalStaked) * 100.0)
      && (apr.Some? ==> apr.value * (s.totalStaked + weight) == s.rewardRate * 31_557_600.0 * multiplier * 100.0)
  {
    if principal > 0.0 {
      AprProducts(s.rewardRate, Weight(principal, multiplier), s.totalStaked, principal, multiplier);
    }
  }

  lemma QuotientsFall(a: real, x: real, b: real, y: real, k: real)
    requires a * x == k && b * y == k && k > 0.0 && 0.0 < x < y
    ensures b < a
  {
    assert a == k / x && b == k / y;
    FractionsOrdered(k, y, k, x);
  }

  /** A greater stake shows a smaller rate, whatever else is staked. */
  lemma AprFalls(s: Stats, multiplier: real, principal: real, more: real, duration: real)
    requires Running(s, multiplier, principal) && 0.0 < principal < more
    ensures Project(s, multiplier, more, duration).apr.Some? && Project(s, multiplier, principal, duration).apr.Some?
    ensures Project(s, multiplier, more, duration).apr.value < Project(s, multiplier, principal, duration).apr.value
  {
    WeightGrows(multiplier, principal, more);
    AprMeaning(s, multiplier, principal, duration);
    AprMeaning(s, multiplier, more, duration);
    QuotientsFall(
      Project(s, multiplier, principal, duration).apr.value, s.totalStaked + Weight(principal, multiplier),
      Project(s, multiplier, more, duration).apr.value, s.totalStaked + Weight(more, multiplier),
      s.rewardRate * SECONDS_IN_YEAR * multiplier * 100.0);
  }

  // ---------------------------------------------------------------- what the figures mean

  /** The tier a request names: the first of that id; without a multiplier of its own it counts once. */
  ghost predicate Counts(tiers: seq<Tier>, k: nat, id: int, multiplier: real) {
    && k < |tiers| && tiers[k].id == id && (forall j :: 0 <= j < k ==> tiers[j].id != id)
    && multiplier == match tiers[k].multiplier
                     case None => 1.0
                     case Some(m) => if m == 0.0 then 1.0 else m
  }

  lemma {:induction false} TierFound(tiers: seq<Tier>, k: nat, id: int, multiplier: real)
    requires Counts(tiers, k, id, multiplier)
    ensures FindTier(tiers, id) == Some(tiers[k]) && Multiplier(tiers[k]) == multiplier
  {
    if k > 0 {
      TierFound(tiers[1..], k - 1, id, multiplier);
    }
  }

  lemma ShareOfPool(all: real, weight: real, others: real)
    requires others + weight != 0.0
    ensures Portion(all, Share(weight, others)) * (others + weight) == all * weight
  {
    var share := Share(weight, others);
    assert share * (others + weight) == weight;
    assert all * share * (others + weight) == all * (share * (others + weight));
  }

  /**
   * The rewards shown are to the emission of the time that counts, up to the end of the period, as the stake's weight is
   * to the whole pool's, itself included; the total is the stake and its rewards.
   */
  lemma ProjectionMeans(s: Stats, tiers: seq<Tier>, k: nat, tierId: int, multiplier: real, principal: real, duration: real)
    requires Counts(tiers, k, tierId, multiplier) && Running(s, multiplier, principal)
    ensures var p := CalculateProjectedRewards(Some(s), tiers, tierId, principal, duration);
      var seconds := if duration * 86400.0 <= s.timeUntilEnd then duration * 86400.0 else s.timeUntilEnd;
      && p.Projected?
      && p.rewards * (s.totalStaked + principal * multiplier) == s.rewardRate * seconds * (principal * multiplier)
      && p.totalValue == principal + p.rewards
  {
    TierFound(tiers, k, tierId, multiplier);
    ShareOfPool(Emitted(s, duration), Weight(principal, multiplier), s.totalStaked);
  }

  // ---------------------------------------------------------------- conservation

  datatype Staker = Staker(principal: real, multiplier: real)

  function WeightOf(k: Staker): real {
    Weight(k.principal, k.multiplier)
  }

  function PoolOf(stakers: seq<Staker>): real {
    if stakers == [] then 0.0 else WeightOf(stakers[0]) + PoolOf(stakers[1..])
  }

  /** What the contract reports to one staker of a pool when its total is the weighted stake of all the others. */
  function SeenBy(k: Staker, s: Stats, pool: real): Stats {
    s.(totalStaked := pool - WeightOf(k))
  }

  /** The rewards projected for the stakers of a pool, each for itself, added up. */
  function AllProjected(stakers: seq<Staker>, s: Stats, pool: real, duration: real): real
    requires s.rewardRate > 0.0 && s.timeUntilEnd > 0.0 && pool > 0.0
  {
    if stakers == [] then 0.0 else
      var k := stakers[0];
      Project(SeenBy(k, s, pool), k.multiplier, k.principal, duration).rewards + AllProjected(stakers[1..], s, pool, duration)
  }

  lemma ProjectedPart(k: Staker, s: Stats, pool: real, duration: real)
    requires s.rewardRate > 0.0 && s.timeUntilEnd > 0.0 && pool > 0.0
    ensures Project(SeenBy(k, s, pool), k.multiplier, k.principal, duration).rewards == Portion(Emitted(s, duration), WeightOf(k) / pool)
  {
    assert SeenBy(k, s, pool).totalStaked + WeightOf(k) == pool;
    assert Emitted(SeenBy(k, s, pool), duration) == Emitted(s, duration);
  }

  lemma {:induction false} ProjectedParts(stakers: seq<Staker>, s: Stats, pool: real, duration: real)
    requires s.rewardRate > 0.0 && s.timeUntilEnd > 0.0 && pool > 0.0
    ensures AllProjected(stakers, s, pool, duration) == Portion(Emitted(s, duration), PoolOf(stakers) / pool)
  {
    if stakers != [] {
      var first, rest := WeightOf(stakers[0]), PoolOf(stakers[1..]);
      ProjectedPart(stakers[0], s, pool, duration);
      ProjectedParts(stakers[1..], s, pool, duration);
      PortionAdds(Emitted(s, duration), first / pool, rest / pool);
      FractionsAdd(first, rest, pool);
    }
  }

  lemma WholePool(pool: real)
    requires pool > 0.0
    ensures pool / pool == 1.0
  {
  }

  /**
   * Projected separately, the stakers of a pool are promised what the contract emits in the time that counts, all of
   * it and no more. This takes the reported total to be weighted like the stakes, and each staker to be left out of it.
   */
  lemma {:induction false} EmissionIsShared(stakers: seq<Staker>, s: Stats, pool: real, duration: real)
    requires s.rewardRate > 0.0 && s.timeUntilEnd > 0.0 && PoolOf(stakers) == pool > 0.0
    ensures AllProjected(stakers, s, pool, duration) == Emitted(s, duration)
  {
    ProjectedParts(stakers, s, pool, duration);
    WholePool(pool);
  }

  lemma {:induction false} FindTierFirst(tiers: seq<Tier>, id: int)
    ensures FindTier(tiers, id).None? <==> forall t :: t in tiers ==> t.id != id
    ensures FindTier(tiers, id).Some? ==> FindTier(tiers, id).value in tiers && FindTier(tiers, id).value.id == id
  {
    if tiers != [] && tiers[0].id != id {
      FindTierFirst(tiers[1..], id);
      assert forall t :: t in tiers <==> t == tiers[0] || t in tiers[1..];
    }
  }

  /**
   * A number is given exactly for an emitting contract in its period, a known tier, and a pool that is not empty; else
   * the first reason that applies is.
   */
  lemma ProjectedExactly(stats: Option<Stats>, tiers: seq<Tier>, tierId: int, principal: real, duration: real)
    requires stats.Some? ==> stats.value.totalStaked >= 0.0
    requires principal >= 0.0 && forall t :: t in tiers ==> Multiplier(t) > 0.0
    ensures CalculateProjectedRewards(stats, tiers, tierId, principal, duration).Projected? <==>
      (stats.Some? && stats.value.rewardRate > 0.0 && stats.value.timeUntilEnd > 0.0
      && (exists t :: t in tiers && t.id == tierId)
      && (stats.value.totalStaked > 0.0 || principal > 0.0))
    ensures var p := CalculateProjectedRewards(stats, tiers, tierId, principal, duration);
      && (stats.None? <==> p == ContractUnavailable)
      && (stats.Some? ==>
            && (p == TierNotFound <==> forall t :: t in tiers ==> t.id != tierId)
            && (p == NotEmitting <==> p != TierNotFound && stats.value.rewardRate <= 0.0)
            && (p == PeriodEnded <==> p != TierNotFound && stats.value.rewardRate > 0.0 && stats.value.timeUntilEnd <= 0.0))
  {
    FindTierFirst(tiers, tierId);
    var tier := FindTier(tiers, tierId);
    if tier.Some? {
      WeightGrows(Multiplier(tier.value), principal, principal);
    }
  }
}
