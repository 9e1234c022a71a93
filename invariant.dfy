/**
 * What every reachable game state satisfies, and a proof that each handler
 * of src/components/Game.jsx keeps it when called the way
 * src/components/screens/CombatScreen.jsx enables it.
 */
module Invariant {
  import opened Wrappers
  import opened Config
  import opened Dice
  import opened RunState
  import opened Economy
  import opened Combat
  import opened Sessions

  /**
   * A valid run record; a combat record on the combat screen; no negative HP
   * or reroll count; shown player dice are three faces with a non-negative
   * value; the action buttons only appear with a result to act on.
   */
  predicate Inv(s: Session)
  {
    && Valid(s.gameState)
    && (s.screen == CombatScreen ==> s.combat.Some?)
    && (s.combat.Some? ==> CombatSound(s.combat.value))
    && (s.rollResult.Some? ==> |s.dice| == 3 && AreFaces(s.dice) && s.rollResult.value.value >= 0)
    && (s.playerHasRolled ==> s.rollResult.Some?)
    && s.wildDieUsed >= 0
  }

  predicate CombatSound(c: CombatStats)
  {
    c.playerHP >= 0 && c.enemyHP >= 0 && c.rerollsLeft >= 0
  }

  /** The game starts in a state satisfying the invariant. */
  lemma InitialSessionInv()
    ensures Inv(InitialSession())
  {
    InitialState();
  }

  lemma RestartStepInv(s: Session)
    requires Inv(s)
    ensures Inv(RestartStep(s))
  {
    InitialState();
  }

  lemma StartRoundStepInv(s: Session)
    requires Inv(s)
    ensures Inv(StartRoundStep(s))
  {
  }

  lemma DefeatStepInv(s: Session)
    requires Inv(s)
    ensures Inv(DefeatStep(s))
  {
  }

  /** Collecting the rewards only raises gold, HP, damage and the round. */
  lemma VictoryStepInv(s: Session)
    requires Inv(s)
    ensures Inv(VictoryStep(s))
  {
    var g := s.gameState;
    var rewards := VictoryRewards(g.round);
    var t := VictoryStep(s).gameState;
    assert t == g.(gold := g.gold + rewards.gold, baseHP := g.baseHP + rewards.hp,
                   baseDamage := g.baseDamage + rewards.damage, round := g.round + 1);
    ValidUnderGrowth(g, t);
  }

  /** Spending a First Strike charge leaves every count non-negative. */
  lemma UseFirstStrikeStepInv(s: Session)
    requires Inv(s)
    ensures Inv(UseFirstStrikeStep(s))
  {
  }

  /** A purchase keeps the invariant, whether it goes through or is refused. */
  lemma BuyPowerupStepInv(s: Session, powerupKey: PowerupKey)
    requires Inv(s)
    ensures Inv(BuyPowerupStep(s, powerupKey))
  {
    if ProcessPowerupPurchase(powerupKey, s.gameState).Some? {
      PurchaseKeepsValid(powerupKey, s.gameState);
    }
  }

  /** The enemy's turn leaves the player's HP between 0 and what it was, and touches nothing else of the combat record. */
  lemma EnemyTurnSound(s: Session, draws: seq<DiceDraw>)
    requires s.combat.Some? && CombatSound(s.combat.value) && EnemyWillScore(draws)
    ensures var t := EnemyTurn(s, draws).session;
      && t.combat.Some?
      && t.combat.value == s.combat.value.(playerHP := t.combat.value.playerHP)
      && 0 <= t.combat.value.playerHP <= s.combat.value.playerHP
      && t == s.(enemyDice := t.enemyDice, enemyRollResult := t.enemyRollResult, combat := t.combat)
  {
    var r := EnemyResult(draws[FirstScoring(draws)]);
    EnemyHitClamps(s.combat.value.playerHP, EnemyDamage(s.gameState.baseDamage, r));
  }

  /** The enemy's turn keeps the invariant. */
  lemma EnemyTurnInv(s: Session, draws: seq<DiceDraw>)
    requires Inv(s) && s.combat.Some? && EnemyWillScore(draws)
    ensures Inv(EnemyTurn(s, draws).session)
  {
    EnemyTurnSound(s, draws);
  }

  lemma EnemyAnswersInv(s: Session, draws: seq<DiceDraw>)
    requires Inv(s) && s.combat.Some? && EnemyWillScore(draws)
    ensures Inv(EnemyAnswers(s, draws))
  {
    EnemyTurnInv(Cleared(s), draws);
    AnswerInv(EnemyTurn(Cleared(s), draws).session, EnemyTurn(Cleared(s), draws).reports);
  }

  lemma {:induction false} AnswerInv(s: Session, reports: seq<Outcome>)
    requires Inv(s)
    ensures Inv(Answer(s, reports))
    decreases |reports|
  {
    if reports != [] {
      AnswerInv(if reports[0] == Defeat then DefeatStep(s) else PlayerTurn(s), reports[1..]);
    }
  }

  lemma {:induction false} OpeningAnswerInv(s: Session, reports: seq<Outcome>)
    requires Inv(s)
    ensures Inv(OpeningAnswer(s, reports))
    decreases |reports|
  {
    if reports != [] {
      VictoryStepInv(s);
      var next := match reports[0]
        case Defeat => DefeatStep(s)
        case Victory => VictoryStep(s)
        case _ => PlayerTurn(s);
      OpeningAnswerInv(next, reports[1..]);
    }
  }

  /** Beginning combat sets up a sound combat record before either side acts. */
  lemma BeginCombatStepInv(s: Session, draws: seq<DiceDraw>)
    requires Inv(s) && EnemyWillScore(draws)
    ensures Inv(BeginCombatStep(s, draws))
  {
    CombatSetupPositive(s.gameState);
    assert Inv(Ready(s));
    if !s.playerGoesFirst {
      EnemyTurnInv(Ready(s), draws);
      OpeningAnswerInv(EnemyTurn(Ready(s), draws).session, EnemyTurn(Ready(s), draws).reports);
    }
  }

  /** The dice of a player roll are three faces. */
  lemma PlayerDiceShape(g: RunState, draw: DiceDraw, luck: LuckDraw)
    requires DrawFits(draw, 3) && LuckFits(luck)
    ensures |PlayerDice(g, draw, luck)| == 3 && AreFaces(PlayerDice(g, draw, luck))
  {
    var p := g.powerups;
    var loaded, high := Count(p, LoadedDice) > 0, Count(p, HighRoller) > 0;
    RolledShape(3, loaded, high, draw);
    LuckyDiceShape(Rolled(3, loaded, high, draw), Count(p, LuckyClover), Count(p, DevilsWard), luck);
  }

  lemma RollOutcomeInv(s: Session, d: seq<int>, r: RollResult)
    requires Inv(s) && |d| == 3 && AreFaces(d) && r.value >= 0
    ensures Inv(RollOutcome(ShowRoll(s, d, r), r.kind))
  {
    var shown := ShowRoll(s, d, r);
    assert Inv(shown);
    assert Inv(MarkRolled(shown));
    VictoryStepInv(MarkRolled(shown));
    DefeatStepInv(MarkRolled(shown));
    assert Inv(shown.(canPlayerRoll := true));
  }

  lemma PlayerRollStepInv(s: Session, draw: DiceDraw, luck: LuckDraw)
    requires Inv(s) && DrawFits(draw, 3) && LuckFits(luck)
    ensures Inv(PlayerRollStep(s, draw, luck))
  {
    if s.canPlayerRoll {
      var p := s.gameState.powerups;
      var d := PlayerDice(s.gameState, draw, luck);
      PlayerDiceShape(s.gameState, draw, luck);
      AnalyzeValueBounds(d, Count(p, PointBoost), Count(p, AceSaver) > 0, s.usedAceSaver);
      RollOutcomeInv(s, d, PlayerResult(s, d));
    }
  }

  /** An attack never leaves the enemy with negative HP; the enemy's answer keeps the invariant. */
  lemma AttackStepInv(s: Session, draws: seq<DiceDraw>)
    requires Inv(s) && CanAttackOrDefend(s) && EnemyWillScore(draws)
    ensures Inv(AttackStep(s, draws))
  {
    var damage := AttackDamage(s.gameState.baseDamage, s.rollResult.value, Count(s.gameState.powerups, DoubleDown) > 0);
    assert Inv(Struck(s, damage));
    VictoryStepInv(Struck(s, damage));
    EnemyAnswersInv(Struck(s, damage), draws);
  }

  /** Defending and the enemy's answer keep the invariant. */
  lemma DefendStepInv(s: Session, draws: seq<DiceDraw>)
    requires Inv(s) && CanAttackOrDefend(s) && EnemyWillScore(draws)
    ensures Inv(DefendStep(s, draws))
  {
    ActionAmountsNonNegative(s.gameState.baseDamage, s.rollResult.value, false);
    assert Inv(Healed(s, DefendHeal(s.rollResult.value)));
    EnemyAnswersInv(Healed(s, DefendHeal(s.rollResult.value)), draws);
  }

  /** A reroll keeps the invariant: the new roll has three faces. */
  lemma RerollStepInv(s: Session, draw: DiceDraw)
    requires Inv(s) && CanReroll(s) && DrawFits(draw, 3)
    ensures Inv(RerollStep(s, draw))
  {
    var p := s.gameState.powerups;
    var loaded, high := Count(p, LoadedDice) > 0, Count(p, HighRoller) > 0;
    RolledShape(3, loaded, high, draw);
    AnalyzeValueBounds(Rolled(3, loaded, high, draw), Count(p, PointBoost), false, false);
  }

  /** The wild die moves one die to the next face, so the dice stay faces. */
  lemma WildDieStepInv(s: Session, index: int, value: int)
    requires Inv(s) && CanUseWildDie(s, index, value)
    ensures Inv(WildDieStep(s, index, value))
  {
    var newDice := s.dice[index := value];
    assert AreFaces(newDice);
    AnalyzeValueBounds(newDice, Count(s.gameState.powerups, PointBoost), false, false);
  }
}
