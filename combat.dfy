/**
 * The value-level rules of a fight: the combat record set when a round
 * begins, the enemy's unmodified roll and how it is read
 * (src/hooks/useCombat.js), and the damage and heal formulas of the player's
 * actions (src/components/Game.jsx).
 */
module Combat {
  import opened Config
  import opened Dice
  import opened RunState

  /** The `combat` record (`autoRerolls` is written once and never read, so it is left out). */
  datatype CombatStats = CombatStats(enemyHP: int, enemyMaxHP: int, playerHP: int, playerMaxHP: int, rerollsLeft: int)

  /** The record handleBeginCombat stores: a fresh enemy and a full-health player. */
  function CombatSetup(run: RunState): (c: CombatStats)
    ensures c.enemyHP == c.enemyMaxHP && c.playerHP == c.playerMaxHP == run.baseHP
  {
    var enemyHP := EnemyHP(run.round, run.baseHP);
    CombatStats(enemyHP, enemyHP, run.baseHP, run.baseHP, run.rerolls + Count(run.powerups, ExtraReroll))
  }

  /** A valid run starts every fight with both sides alive and no negative reroll count. */
  lemma CombatSetupPositive(run: RunState)
    requires Valid(run)
    ensures var c := CombatSetup(run);
      && c.enemyHP == c.enemyMaxHP > 0
      && c.playerHP == c.playerMaxHP == run.baseHP > 0
      && c.rerollsLeft >= STARTING_REROLLS
  {
    EnemyHPMonotone(0, run.round, STARTING_HP, run.baseHP);
  }

  // ---------------------------------------------------------------------------
  // The enemy's roll

  /** What performEnemyRoll reports to the turn loop. */
  datatype Outcome = Defeat | Victory | Reroll | Continue

  /** performEnemyRoll: rollDice(3, false, false) — no Loaded Dice, no High Roller. */
  function EnemyRoll(draw: DiceDraw): seq<int>
    requires DrawFits(draw, 3)
  {
    Rolled(3, false, false, draw)
  }

  /** analyzeCeeloRoll(enemyRoll, 0, false, false) — no Point Boost, no Ace Saver. */
  function EnemyResult(draw: DiceDraw): RollResult
    requires DrawFits(draw, 3)
  {
    AnalyzeCeeloRoll(EnemyRoll(draw), 0, false, false)
  }

  /** The enemy's dice are the raw draw, and its result never spends an Ace Saver. */
  lemma EnemyRollsUnmodified(draw: DiceDraw)
    requires DrawFits(draw, 3)
    ensures EnemyRoll(draw) == draw.faces
    ensures !EnemyResult(draw).usedAceSaver
  {
    RolledModifiers(3, false, false, draw);
    AnalyzeAceSaverFlag(EnemyRoll(draw), 0, false, false);
  }

  /** The enemy's roll read from the player's side: 4-5-6 defeats, 1-2-3 is a victory, no score rolls again. */
  function EnemyOutcome(r: RollResult): (o: Outcome)
    ensures o == Defeat <==> r.kind == InstantWin
    ensures o == Victory <==> r.kind == InstantLoss
    ensures o == Reroll <==> r.kind == NoScore
    ensures o == Continue <==> r.kind == Trips || r.kind == Point
  {
    match r.kind
    case InstantWin => Defeat
    case InstantLoss => Victory
    case NoScore => Reroll
    case _ => Continue
  }

  // ---------------------------------------------------------------------------
  // Damage and healing

  /** `Math.floor(baseDamage * 0.8)`, with 0.8 = 4/5. */
  function EnemyBaseDamage(baseDamage: int): (b: int)
    ensures ENEMY_DAMAGE_DEN * b <= ENEMY_DAMAGE_NUM * baseDamage < ENEMY_DAMAGE_DEN * b + ENEMY_DAMAGE_DEN
  {
    baseDamage * ENEMY_DAMAGE_NUM / ENEMY_DAMAGE_DEN
  }

  /** The player's attack: base damage times the value, doubled for trips with Double Down; nothing otherwise. */
  function AttackDamage(baseDamage: int, r: RollResult, doubleDown: bool): (damage: int)
    ensures r.kind != Trips && r.kind != Point ==> damage == 0
    ensures baseDamage >= 0 && r.value >= 0 ==> damage >= 0
  {
    var v := if r.kind == Trips && doubleDown then r.value * 2 else r.value;
    MulNonNegative(baseDamage, v);
    match r.kind
    case Trips => baseDamage * (if doubleDown then r.value * 2 else r.value)
    case Point => baseDamage * r.value
    case _ => 0
  }

  /** The enemy's hit: its base damage times the value for trips or a point, nothing otherwise. */
  function EnemyDamage(baseDamage: int, r: RollResult): (damage: int)
    ensures r.kind != Trips && r.kind != Point ==> damage == 0
    ensures baseDamage >= 0 && r.value >= 0 ==> damage >= 0
  {
    MulNonNegative(EnemyBaseDamage(baseDamage), r.value);
    if r.kind == Trips || r.kind == Point then EnemyBaseDamage(baseDamage) * r.value else 0
  }

  /** The player's defence: five HP per point of value for trips, three for a point, nothing otherwise. */
  function DefendHeal(r: RollResult): (heal: int)
    ensures r.kind != Trips && r.kind != Point ==> heal == 0
    ensures r.value >= 0 ==> heal >= 0
  {
    match r.kind
    case Trips => r.value * 5
    case Point => r.value * 3
    case _ => 0
  }

  /**
   * The enemy hits like a player who has four fifths of the base damage and
   * never has Double Down; and Double Down doubles exactly the trips attacks.
   */
  lemma EnemyDamageIsUndoubledAttack(baseDamage: int, r: RollResult)
    ensures EnemyDamage(baseDamage, r) == AttackDamage(EnemyBaseDamage(baseDamage), r, false)
    ensures r.kind == Trips ==> AttackDamage(baseDamage, r, true) == 2 * AttackDamage(baseDamage, r, false)
    ensures r.kind != Trips ==> AttackDamage(baseDamage, r, true) == AttackDamage(baseDamage, r, false)
  {
    if r.kind == Trips {
      assert baseDamage * (r.value * 2) == 2 * (baseDamage * r.value);
    }
  }

  /** With a non-negative value nothing heals or hurts negatively, and trips heal more than a point of the same value. */
  lemma ActionAmountsNonNegative(baseDamage: int, r: RollResult, doubleDown: bool)
    requires baseDamage >= 0 && r.value >= 0
    ensures AttackDamage(baseDamage, r, doubleDown) >= 0
    ensures EnemyDamage(baseDamage, r) >= 0
    ensures DefendHeal(r) >= 0
    ensures r.kind == Trips && r.value > 0 ==> DefendHeal(r) > DefendHeal(r.(kind := Point))
  {
    var v := if r.kind == Trips && doubleDown then r.value * 2 else r.value;
    assert baseDamage * v >= 0 by { MulMonotone(baseDamage, 0, v); }
    assert EnemyBaseDamage(baseDamage) * r.value >= 0 by { MulMonotone(r.value, 0, EnemyBaseDamage(baseDamage)); }
  }

  /** The outcome of an enemy hit on the player: the new HP and whether the player is defeated. */
  datatype Hit = Hit(playerHP: int, defeated: bool)

  /** Only a positive hit lands; a hit that takes the player to 0 or below leaves exactly 0 HP and defeats. */
  function EnemyHit(playerHP: int, damage: int): (h: Hit)
    ensures playerHP >= 0 ==> 0 <= h.playerHP <= playerHP
    ensures h.defeated <==> damage > 0 && playerHP - damage <= 0
  {
    if damage > 0 then
      var newPlayerHP := playerHP - damage;
      if newPlayerHP <= 0 then Hit(0, true) else Hit(newPlayerHP, false)
    else Hit(playerHP, false)
  }

  /** A hit never raises HP, never leaves it negative, and defeats exactly when it leaves 0 after a positive hit. */
  lemma EnemyHitClamps(playerHP: int, damage: int)
    requires playerHP >= 0
    ensures var h := EnemyHit(playerHP, damage);
      && 0 <= h.playerHP <= playerHP
      && h.playerHP == (if damage > 0 then Max(0, playerHP - damage) else playerHP)
      && (h.defeated <==> damage > 0 && h.playerHP == 0)
  {
  }

  function Max(a: int, b: int): int { if a >= b then a else b }

  lemma MulNonNegative(a: int, b: int)
    ensures a >= 0 && b >= 0 ==> a * b >= 0
  {
    if a >= 0 && b >= 0 {
      MulMonotone(a, 0, b);
    }
  }
}
