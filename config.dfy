/**
 * Game constants, the powerup catalog and the closed-form formulas
 * (src/constants/gameConfig.js).
 *
 * The floating-point multipliers of the source are exact rationals here:
 * ENEMY_DAMAGE_MULTIPLIER 0.8 = 4/5 (the price rates live in Economy).
 */
module Config {

  const STARTING_GOLD := 20
  const STARTING_HP := 50
  const STARTING_DAMAGE := 5
  const STARTING_REROLLS := 1
  const MAX_ROUNDS := 5

  /** ENEMY_DAMAGE_MULTIPLIER = 0.8 = ENEMY_DAMAGE_NUM / ENEMY_DAMAGE_DEN */
  const ENEMY_DAMAGE_NUM := 4
  const ENEMY_DAMAGE_DEN := 5

  /**
   * The dice logic adds GAME_CONFIG.TRIPS_BONUS to every trips value, but the
   * configuration record never defines it. This model assumes 0.
   */
  const TRIPS_BONUS := 0

  /** The catalog keys, in the declaration order of INITIAL_PRICES. */
  datatype PowerupKey =
    | LoadedDice | DoubleDown | PointBoost | AceSaver | HighRoller
    | WildDie | ExtraReroll | LuckyClover | DevilsWard | FirstStrike

  const CATALOG: seq<PowerupKey> :=
    [LoadedDice, DoubleDown, PointBoost, AceSaver, HighRoller,
     WildDie, ExtraReroll, LuckyClover, DevilsWard, FirstStrike]

  const INITIAL_PRICES: map<PowerupKey, int> :=
    map[LoadedDice := 25, DoubleDown := 30, PointBoost := 15, AceSaver := 35,
        HighRoller := 40, WildDie := 25, ExtraReroll := 12, LuckyClover := 30,
        DevilsWard := 30, FirstStrike := 20]

  /** The rule-bearing part of a POWERUP_INFO entry (names, icons and texts are left out). */
  datatype PowerupInfo = PowerupInfo(stackable: bool, consumable: bool)

  const POWERUP_INFO: map<PowerupKey, PowerupInfo> :=
    map[LoadedDice := PowerupInfo(false, false),
        DoubleDown := PowerupInfo(false, false),
        PointBoost := PowerupInfo(true, false),
        AceSaver := PowerupInfo(false, false),
        HighRoller := PowerupInfo(false, false),
        WildDie := PowerupInfo(true, false),
        ExtraReroll := PowerupInfo(true, false),
        LuckyClover := PowerupInfo(true, false),
        DevilsWard := PowerupInfo(true, false),
        FirstStrike := PowerupInfo(true, true)]

  /** `POWERUP_INFO[key]?.stackable || false` */
  predicate Stackable(k: PowerupKey) {
    k in POWERUP_INFO && POWERUP_INFO[k].stackable
  }

  predicate Consumable(k: PowerupKey) {
    k in POWERUP_INFO && POWERUP_INFO[k].consumable
  }

  /** Every key of the enumeration, as a set. */
  const ALL_KEYS: set<PowerupKey> :=
    {LoadedDice, DoubleDown, PointBoost, AceSaver, HighRoller,
     WildDie, ExtraReroll, LuckyClover, DevilsWard, FirstStrike}

  /** The position of a key in the catalog order. */
  function CatalogIndex(k: PowerupKey): (i: nat)
    ensures i < |CATALOG| && CATALOG[i] == k
  {
    match k
    case LoadedDice => 0
    case DoubleDown => 1
    case PointBoost => 2
    case AceSaver => 3
    case HighRoller => 4
    case WildDie => 5
    case ExtraReroll => 6
    case LuckyClover => 7
    case DevilsWard => 8
    case FirstStrike => 9
  }

  /** The catalog enumerates every key exactly once: ten keys, not eleven. */
  lemma CatalogIsEnumeration()
    ensures |CATALOG| == 10
    ensures forall i :: 0 <= i < |CATALOG| ==> CatalogIndex(CATALOG[i]) == i
    ensures forall i, j :: 0 <= i < j < |CATALOG| ==> CATALOG[i] != CATALOG[j]
    ensures forall k: PowerupKey :: k in CATALOG && k in ALL_KEYS
  {
    forall i | 0 <= i < |CATALOG| ensures CatalogIndex(CATALOG[i]) == i {
      if i == 0 {} else if i == 1 {} else if i == 2 {} else if i == 3 {} else if i == 4 {}
      else if i == 5 {} else if i == 6 {} else if i == 7 {} else if i == 8 {} else {}
    }
    forall k: PowerupKey ensures k in CATALOG && k in ALL_KEYS {
      assert CATALOG[CatalogIndex(k)] == k;
      match k
      case LoadedDice =>
      case DoubleDown =>
      case PointBoost =>
      case AceSaver =>
      case HighRoller =>
      case WildDie =>
      case ExtraReroll =>
      case LuckyClover =>
      case DevilsWard =>
      case FirstStrike =>
    }
  }

  /** INITIAL_PRICES and POWERUP_INFO are keyed by the same ten keys, and every initial price is positive. */
  lemma CatalogTablesAgree()
    ensures forall k: PowerupKey :: k in INITIAL_PRICES && k in POWERUP_INFO
    ensures INITIAL_PRICES.Keys == POWERUP_INFO.Keys == ALL_KEYS
    ensures forall k :: k in INITIAL_PRICES ==> INITIAL_PRICES[k] > 0
  {
    forall k: PowerupKey ensures k in INITIAL_PRICES && k in POWERUP_INFO {
      match k
      case LoadedDice =>
      case DoubleDown =>
      case PointBoost =>
      case AceSaver =>
      case HighRoller =>
      case WildDie =>
      case ExtraReroll =>
      case LuckyClover =>
      case DevilsWard =>
      case FirstStrike =>
    }
  }

  /** Every initial price is positive. */
  lemma InitialPricePositive(k: PowerupKey)
    requires k in INITIAL_PRICES
    ensures INITIAL_PRICES[k] > 0
  {
  }

  /** Exactly six keys stack, and First Strike is the only consumable. */
  lemma StackableAndConsumableKeys()
    ensures forall k :: Stackable(k) <==> k in {PointBoost, WildDie, ExtraReroll, LuckyClover, DevilsWard, FirstStrike}
    ensures forall k :: Consumable(k) <==> k == FirstStrike
  {
    forall k: PowerupKey
      ensures Stackable(k) <==> k in {PointBoost, WildDie, ExtraReroll, LuckyClover, DevilsWard, FirstStrike}
      ensures Consumable(k) <==> k == FirstStrike
    {
      match k
      case LoadedDice =>
      case DoubleDown =>
      case PointBoost =>
      case AceSaver =>
      case HighRoller =>
      case WildDie =>
      case ExtraReroll =>
      case LuckyClover =>
      case DevilsWard =>
      case FirstStrike =>
    }
  }

  /** ROLL_TYPES; INSTANT_LOSS is the source's 'cursed', NONE is 'none'. */
  datatype RollType = InstantWin | InstantLoss | Trips | Point | NoScore

  datatype Rewards = Rewards(gold: int, hp: int, damage: int)

  /** getVictoryRewards(round) */
  function VictoryRewards(round: int): (r: Rewards)
    ensures round >= 0 ==> r.gold > 0 && r.hp > 0 && r.damage > 0
  {
    Rewards(15 + round * 5, 3 + round / 2, 2 + round / 2)
  }

  /** The rewards grow with the round, component by component. */
  lemma VictoryRewardsMonotone(r1: int, r2: int)
    requires 0 <= r1 <= r2
    ensures VictoryRewards(r1).gold <= VictoryRewards(r2).gold
    ensures VictoryRewards(r1).hp <= VictoryRewards(r2).hp
    ensures VictoryRewards(r1).damage <= VictoryRewards(r2).damage
  {
    assert r1 / 2 <= r2 / 2 by { DivMonotone(r1, r2, 2); }
  }

  /** Round 3 pays 30 gold, 4 HP and 3 damage (2 + 3 / 2 = 3). */
  lemma VictoryRewardsRoundThree()
    ensures VictoryRewards(3) == Rewards(30, 4, 3)
  {
  }

  /** getEnemyHP(round, playerBaseHP); Dafny's `/` by a positive divisor is floor division, like Math.floor. */
  function EnemyHP(round: int, playerBaseHP: int): (hp: int)
    ensures round >= 0 && playerBaseHP >= STARTING_HP ==> hp >= 15 + 5 * round
  {
    (15 + round * 5) + (round * round * 2) + (playerBaseHP - STARTING_HP) / 2
  }

  /** The player-scaling term is the floor of (playerBaseHP - 50) / 2, also for negative numerators. */
  lemma EnemyHPFloor(round: int, playerBaseHP: int)
    ensures var scaling := EnemyHP(round, playerBaseHP) - (15 + 5 * round + 2 * round * round);
      2 * scaling <= playerBaseHP - STARTING_HP < 2 * scaling + 2
  {
  }

  /** Round 1 against the starting HP gives 22. */
  lemma EnemyHPRoundOne()
    ensures EnemyHP(1, STARTING_HP) == 22
  {
  }

  /** Enemies get strictly tougher every round, and never weaker as the player's base HP grows. */
  lemma EnemyHPMonotone(r1: int, r2: int, hp1: int, hp2: int)
    requires 0 <= r1 < r2
    requires hp1 <= hp2
    ensures EnemyHP(r1, hp1) < EnemyHP(r2, hp1)
    ensures EnemyHP(r1, hp1) <= EnemyHP(r1, hp2)
  {
    assert r1 * r1 <= r2 * r2 by { SquareMonotone(r1, r2); }
    DivMonotone(hp1 - STARTING_HP, hp2 - STARTING_HP, 2);
  }

  lemma DivMonotone(a: int, b: int, d: int)
    requires a <= b && d > 0
    ensures a / d <= b / d
  {
    var qa, ra := a / d, a % d;
    var qb, rb := b / d, b % d;
    assert a == d * qa + ra && 0 <= ra < d;
    assert b == d * qb + rb && 0 <= rb < d;
    if qa > qb {
      assert qa >= qb + 1;
      assert d * qa >= d * (qb + 1) by { MulMonotone(d, qb + 1, qa); }
      assert false;
    }
  }

  lemma MulMonotone(d: int, x: int, y: int)
    requires d >= 0 && x <= y
    ensures d * x <= d * y
  {
    assert d * y - d * x == d * (y - x);
  }

  lemma SquareMonotone(a: int, b: int)
    requires 0 <= a <= b
    ensures a * a <= b * b
  {
    assert a * a <= a * b <= b * b;
  }
}
