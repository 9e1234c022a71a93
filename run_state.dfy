/**
 * The run record and its single state cell (src/hooks/useGameState.js):
 * the initial record, and the shallow merge `{ ...prev, ...updates }`.
 * The cell itself (restart, updateGameState) is a field of the `Game`
 * class; this module holds the values those methods store.
 */
module RunState {
  import opened Wrappers
  import opened Config

  /** The gameState record. */
  datatype RunState = RunState(
    gold: int,
    baseHP: int,
    baseDamage: int,
    round: int,
    maxRounds: int,
    rerolls: int,
    powerups: map<PowerupKey, int>,
    prices: map<PowerupKey, int>,
    purchaseCount: int)

  const NO_POWERUPS: map<PowerupKey, int> :=
    map[LoadedDice := 0, DoubleDown := 0, PointBoost := 0, AceSaver := 0,
        HighRoller := 0, WildDie := 0, ExtraReroll := 0, LuckyClover := 0,
        DevilsWard := 0, FirstStrike := 0]

  /** createInitialState */
  function CreateInitialState(): (s: RunState)
    ensures Valid(s)
  {
    CatalogTablesAgree();
    NoPowerupsTable();
    RunState(STARTING_GOLD, STARTING_HP, STARTING_DAMAGE, 1, MAX_ROUNDS, STARTING_REROLLS,
             NO_POWERUPS, INITIAL_PRICES, 0)
  }

  /**
   * `powerups[k]` read as a number: a key missing from the table counts as 0,
   * the way `undefined > 0` is false; every valid record has all ten keys.
   */
  function Count(powerups: map<PowerupKey, int>, k: PowerupKey): int
  {
    if k in powerups then powerups[k] else 0
  }

  /**
   * What every reachable run record satisfies: both tables hold every
   * catalog key, no negative count or gold, every price at least its initial
   * price, and the base stats never below their starting values.
   */
  predicate Valid(s: RunState)
  {
    && s.gold >= 0
    && s.baseHP >= STARTING_HP
    && s.baseDamage >= STARTING_DAMAGE
    && s.round >= 1
    && s.maxRounds == MAX_ROUNDS
    && s.rerolls == STARTING_REROLLS
    && (forall k: PowerupKey :: k in s.powerups && k in s.prices)
    && (forall k :: k in s.powerups ==> s.powerups[k] >= 0)
    && (forall k :: k in s.prices && k in INITIAL_PRICES ==> s.prices[k] >= INITIAL_PRICES[k])
    && s.purchaseCount >= 0
  }

  /**
   * The initial record: 20 gold, 50 HP, 5 damage, round 1 of 5, one reroll,
   * no purchases, every powerup count 0 and the catalog's initial prices.
   */
  lemma InitialState()
    ensures var s := CreateInitialState();
      && s.gold == 20 && s.baseHP == 50 && s.baseDamage == 5 && s.round == 1
      && s.maxRounds == 5 && s.rerolls == 1 && s.purchaseCount == 0
      && (forall k :: k in s.powerups ==> s.powerups[k] == 0)
      && s.prices == INITIAL_PRICES
      && Valid(s)
  {
    CatalogTablesAgree();
    NoPowerupsTable();
  }

  /** The empty powerup table has every catalog key, each with count 0. */
  lemma NoPowerupsTable()
    ensures forall k: PowerupKey :: k in NO_POWERUPS && NO_POWERUPS[k] == 0
  {
    forall k: PowerupKey ensures k in NO_POWERUPS && NO_POWERUPS[k] == 0 {
      match k
      case LoadedDice =>
      case DoubleDown =>
      case PointBoost =>
      case AceSaver =>
      case HighRoller =>
      case WildDie =>
      case ExtraReroll =>
      case LuckyClover =>
      case DevilsWard =>
      case FirstStrike =>
    }
  }

  /** In a valid record every price is positive. */
  lemma ValidPricesPositive(s: RunState)
    requires Valid(s)
    ensures forall k :: k in s.prices ==> s.prices[k] > 0
  {
    CatalogTablesAgree();
    forall k | k in s.prices ensures s.prices[k] > 0 {
      InitialPricePositive(k);
    }
  }

  /**
   * Validity survives growth: a record with the same base stats, round and
   * tables over the same keys, whose gold and purchase count are non-negative
   * and whose counts and prices have not dropped, is valid again.
   */
  lemma ValidUnderGrowth(s: RunState, t: RunState)
    requires Valid(s)
    requires t.baseHP >= s.baseHP && t.baseDamage >= s.baseDamage && t.round >= s.round
    requires t.maxRounds == s.maxRounds && t.rerolls == s.rerolls
    requires t.gold >= 0 && t.purchaseCount >= 0
    requires t.powerups.Keys == s.powerups.Keys && t.prices.Keys == s.prices.Keys
    requires forall k :: k in s.powerups ==> t.powerups[k] >= s.powerups[k]
    requires forall k :: k in s.prices ==> t.prices[k] >= s.prices[k]
    ensures Valid(t)
  {
  }

  /** The argument of updateGameState: the fields present in the object literal. */
  datatype Update = Update(
    gold: Option<int>,
    baseHP: Option<int>,
    baseDamage: Option<int>,
    round: Option<int>,
    maxRounds: Option<int>,
    rerolls: Option<int>,
    powerups: Option<map<PowerupKey, int>>,
    prices: Option<map<PowerupKey, int>>,
    purchaseCount: Option<int>)

  const NO_UPDATE := Update(None, None, None, None, None, None, None, None, None)

  /** `{ ...prev, ...updates }` */
  function Merge(prev: RunState, updates: Update): (s: RunState)
    ensures updates == NO_UPDATE ==> s == prev
  {
    RunState(
      updates.gold.GetOr(prev.gold),
      updates.baseHP.GetOr(prev.baseHP),
      updates.baseDamage.GetOr(prev.baseDamage),
      updates.round.GetOr(prev.round),
      updates.maxRounds.GetOr(prev.maxRounds),
      updates.rerolls.GetOr(prev.rerolls),
      updates.powerups.GetOr(prev.powerups),
      updates.prices.GetOr(prev.prices),
      updates.purchaseCount.GetOr(prev.purchaseCount))
  }

  /** `{ ...first, ...second }` on two update objects. */
  function Combine(first: Update, second: Update): Update
  {
    Update(
      if second.gold.Some? then second.gold else first.gold,
      if second.baseHP.Some? then second.baseHP else first.baseHP,
      if second.baseDamage.Some? then second.baseDamage else first.baseDamage,
      if second.round.Some? then second.round else first.round,
      if second.maxRounds.Some? then second.maxRounds else first.maxRounds,
      if second.rerolls.Some? then second.rerolls else first.rerolls,
      if second.powerups.Some? then second.powerups else first.powerups,
      if second.prices.Some? then second.prices else first.prices,
      if second.purchaseCount.Some? then second.purchaseCount else first.purchaseCount)
  }

  /** An update overwrites exactly the fields it carries; an empty update changes nothing. */
  lemma MergeOverwritesPresentFields(prev: RunState, updates: Update)
    ensures var s := Merge(prev, updates);
      && (updates.gold.Some? ==> s.gold == updates.gold.value)
      && (updates.gold.None? ==> s.gold == prev.gold)
      && (updates.baseHP.Some? ==> s.baseHP == updates.baseHP.value)
      && (updates.baseHP.None? ==> s.baseHP == prev.baseHP)
      && (updates.baseDamage.Some? ==> s.baseDamage == updates.baseDamage.value)
      && (updates.baseDamage.None? ==> s.baseDamage == prev.baseDamage)
      && (updates.round.Some? ==> s.round == updates.round.value)
      && (updates.round.None? ==> s.round == prev.round)
      && (updates.maxRounds.Some? ==> s.maxRounds == updates.maxRounds.value)
      && (updates.maxRounds.None? ==> s.maxRounds == prev.maxRounds)
      && (updates.rerolls.Some? ==> s.rerolls == updates.rerolls.value)
      && (updates.rerolls.None? ==> s.rerolls == prev.rerolls)
      && (updates.powerups.Some? ==> s.powerups == updates.powerups.value)
      && (updates.powerups.None? ==> s.powerups == prev.powerups)
      && (updates.prices.Some? ==> s.prices == updates.prices.value)
      && (updates.prices.None? ==> s.prices == prev.prices)
      && (updates.purchaseCount.Some? ==> s.purchaseCount == updates.purchaseCount.value)
      && (updates.purchaseCount.None? ==> s.purchaseCount == prev.purchaseCount)
    ensures Merge(prev, NO_UPDATE) == prev
  {
  }

  /** Two merges in a row are one merge of the combined update. */
  lemma MergeCompose(prev: RunState, first: Update, second: Update)
    ensures Merge(Merge(prev, first), second) == Merge(prev, Combine(first, second))
  {
  }
}
