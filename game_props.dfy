/**
 * What the handlers of src/components/Game.jsx do to a game, stated about
 * the step functions that specify the methods of `GameController.Game`:
 * turn order, who may act, what each action spends, and how a fight ends.
 */
module GameProperties {
  import opened Wrappers
  import opened Config
  import opened Dice
  import opened RunState
  import opened Economy
  import opened Combat
  import opened Sessions
  import opened Invariant

  // ---------------------------------------------------------------------------
  // The callbacks that answer the enemy's turn

  /**
   * The callback of an attack or a defence only moves the screen to the
   * defeat screen (on a 'defeat') or hands the turn back to the player: it
   * never touches the run record or the combat record.
   */
  lemma {:induction false} AnswerEffect(s: Session, reports: seq<Outcome>)
    ensures var t := Answer(s, reports);
      && t == s.(canPlayerRoll := t.canPlayerRoll, playerHasRolled := t.playerHasRolled, screen := t.screen)
      && t.screen == (if Defeat in reports then DefeatScreen else s.screen)
      && (reports != [] && Defeat !in reports ==> t.canPlayerRoll && !t.playerHasRolled)
    decreases |reports|
  {
    if reports != [] {
      var next := if reports[0] == Defeat then DefeatStep(s) else PlayerTurn(s);
      AnswerEffect(next, reports[1..]);
      assert reports == [reports[0]] + reports[1..];
    }
  }

  /** The callback of the opening enemy turn never touches the combat record or the turn-order flag. */
  lemma {:induction false} OpeningAnswerKeepsFight(s: Session, reports: seq<Outcome>)
    ensures var t := OpeningAnswer(s, reports);
      t.combat == s.combat && t.playerGoesFirst == s.playerGoesFirst && t.enemyDice == s.enemyDice
    decreases |reports|
  {
    if reports != [] {
      var next := match reports[0]
        case Defeat => DefeatStep(s)
        case Victory => VictoryStep(s)
        case _ => PlayerTurn(s);
      OpeningAnswerKeepsFight(next, reports[1..]);
    }
  }

  // ---------------------------------------------------------------------------
  // The enemy's turn

  /**
   * The reports of an enemy turn: a lone 'defeat' exactly for an enemy
   * 4-5-6, a lone 'victory' exactly for an enemy 1-2-3, and otherwise a
   * 'continue' followed by a 'defeat' exactly when the hit leaves the player
   * at 0 HP.
   */
  lemma EnemyTurnReports(s: Session, draws: seq<DiceDraw>)
    requires s.combat.Some? && EnemyWillScore(draws)
    ensures var r := EnemyResult(draws[FirstScoring(draws)]);
      var reports := EnemyTurn(s, draws).reports;
      && (reports == [Defeat] <==> r.kind == InstantWin)
      && (reports == [Victory] <==> r.kind == InstantLoss)
      && (Defeat in reports <==>
            r.kind == InstantWin
            || ((r.kind == Trips || r.kind == Point)
                && EnemyHit(s.combat.value.playerHP, EnemyDamage(s.gameState.baseDamage, r)).defeated))
      && reports != []
  {
  }

  /**
   * After the player attacks or defends, the enemy's turn and its callback:
   * the run record is never changed (in particular an enemy 1-2-3 grants no
   * victory), only the player's HP changes in the combat record, and the
   * player is defeated exactly by an enemy 4-5-6 or a fatal hit; otherwise the
   * turn is handed back with the player's dice put away.
   */
  lemma EnemyAnswersEffect(s: Session, draws: seq<DiceDraw>)
    requires s.combat.Some? && EnemyWillScore(draws) && s.screen != DefeatScreen
    ensures var r := EnemyResult(draws[FirstScoring(draws)]);
      var hit := EnemyHit(s.combat.value.playerHP, EnemyDamage(s.gameState.baseDamage, r));
      var t := EnemyAnswers(s, draws);
      && t.gameState == s.gameState
      && t.combat == Some(s.combat.value.(playerHP := if EnemyOutcome(r) == Continue then hit.playerHP else s.combat.value.playerHP))
      && t.enemyDice == EnemyRoll(draws[FirstScoring(draws)])
      && (t.screen == DefeatScreen <==> r.kind == InstantWin || (EnemyOutcome(r) == Continue && hit.defeated))
      && (t.screen != DefeatScreen ==> t.screen == s.screen && t.canPlayerRoll && !t.playerHasRolled && t.dice == [] && t.rollResult.None?)
  {
    var e := EnemyTurn(Cleared(s), draws);
    EnemyTurnReports(Cleared(s), draws);
    AnswerEffect(e.session, e.reports);
  }

  // ---------------------------------------------------------------------------
  // handleBeginCombat

  /**
   * Beginning combat flips the turn order for the next round and sets up a
   * fresh enemy with getEnemyHP's HP and the run's rerolls plus Extra Reroll;
   * when the player goes first the enemy has not rolled and the player may
   * roll, otherwise the enemy has rolled from the stream.
   */
  lemma BeginCombatEffect(s: Session, draws: seq<DiceDraw>)
    requires EnemyWillScore(draws)
    ensures var t := BeginCombatStep(s, draws);
      var g := s.gameState;
      && t.playerGoesFirst == !s.playerGoesFirst
      && t.combat.Some?
      && t.combat.value.enemyHP == t.combat.value.enemyMaxHP == EnemyHP(g.round, g.baseHP)
      && t.combat.value.playerMaxHP == g.baseHP
      && t.combat.value.rerollsLeft == g.rerolls + Count(g.powerups, ExtraReroll)
      && (s.playerGoesFirst ==>
            t.combat == Some(CombatSetup(g)) && t.screen == CombatScreen && t.canPlayerRoll
            && t.enemyDice == [] && t.dice == [] && !t.usedAceSaver && t.wildDieUsed == 0)
      && (!s.playerGoesFirst ==> t.enemyDice == EnemyRoll(draws[FirstScoring(draws)]))
  {
    if !s.playerGoesFirst {
      var e := EnemyTurn(Ready(s), draws);
      OpeningAnswerKeepsFight(e.session, e.reports);
    }
  }

  /**
   * An enemy 1-2-3 in the opening turn of a round wins that round for the
   * player, unlike one rolled after the player's action (EnemyAnswersEffect).
   */
  lemma OpeningEnemyInstantLoss(s: Session, draws: seq<DiceDraw>)
    requires EnemyWillScore(draws) && !s.playerGoesFirst
    requires EnemyResult(draws[FirstScoring(draws)]).kind == InstantLoss
    ensures var t := BeginCombatStep(s, draws);
      t.gameState.round == s.gameState.round + 1
      && t.gameState.gold == s.gameState.gold + VictoryRewards(s.gameState.round).gold
      && (t.screen == VictoryScreen <==> s.gameState.round >= s.gameState.maxRounds)
  {
    var e := EnemyTurn(Ready(s), draws);
    assert e.reports == [Victory];
    assert OpeningAnswer(e.session, e.reports) == VictoryStep(e.session);
  }

  /**
   * An enemy trips or point in the opening turn hits the player's fresh HP
   * and hands the turn over; the run ends on the defeat screen exactly when
   * the hit is fatal, and the fight goes on otherwise. The run record is kept.
   */
  lemma OpeningEnemyScores(s: Session, draws: seq<DiceDraw>)
    requires EnemyWillScore(draws) && !s.playerGoesFirst
    requires EnemyOutcome(EnemyResult(draws[FirstScoring(draws)])) == Continue
    ensures var g := s.gameState;
      var d := draws[FirstScoring(draws)];
      var hit := EnemyHit(g.baseHP, EnemyDamage(g.baseDamage, EnemyResult(d)));
      var t := BeginCombatStep(s, draws);
      && t.gameState == g
      && t.combat == Some(CombatSetup(g).(playerHP := hit.playerHP))
      && t.enemyDice == EnemyRoll(d) && t.enemyRollResult == Some(EnemyResult(d))
      && t.canPlayerRoll && !t.playerHasRolled
      && (t.screen == DefeatScreen <==> hit.defeated)
      && (!hit.defeated ==> t.screen == CombatScreen)
  {
    var e := EnemyTurn(Ready(s), draws);
    var d := draws[FirstScoring(draws)];
    var hit := EnemyHit(s.gameState.baseHP, EnemyDamage(s.gameState.baseDamage, EnemyResult(d)));
    assert e.reports == if hit.defeated then [Continue, Defeat] else [Continue];
    if hit.defeated {
      assert OpeningAnswer(e.session, e.reports) == OpeningAnswer(PlayerTurn(e.session), [Defeat]);
      assert OpeningAnswer(e.session, e.reports) == DefeatStep(PlayerTurn(e.session));
    } else {
      assert OpeningAnswer(e.session, e.reports) == PlayerTurn(e.session);
    }
  }

  /** An enemy 4-5-6 in the opening turn ends the run before the player acts. */
  lemma OpeningEnemyInstantWin(s: Session, draws: seq<DiceDraw>)
    requires EnemyWillScore(draws) && !s.playerGoesFirst
    requires EnemyResult(draws[FirstScoring(draws)]).kind == InstantWin
    ensures BeginCombatStep(s, draws).screen == DefeatScreen
    ensures !BeginCombatStep(s, draws).canPlayerRoll
  {
    var e := EnemyTurn(Ready(s), draws);
    assert e.reports == [Defeat];
    assert OpeningAnswer(e.session, e.reports) == DefeatStep(e.session);
  }

  // ---------------------------------------------------------------------------
  // handleRestart and handleUseFirstStrike

  /**
   * The first fight of a fresh game, and the next fight after a restart,
   * begin with the enemy's roll; a restart also brings back a fresh run record.
   */
  lemma RestartThenEnemyFirst(s: Session, draws: seq<DiceDraw>)
    requires EnemyWillScore(draws)
    ensures BeginCombatStep(InitialSession(), draws).enemyDice == EnemyRoll(draws[FirstScoring(draws)])
    ensures BeginCombatStep(InitialSession(), draws).playerGoesFirst
    ensures RestartStep(s).gameState == CreateInitialState()
    ensures RestartStep(s).screen == MenuScreen
    ensures BeginCombatStep(RestartStep(s), draws).enemyDice == EnemyRoll(draws[FirstScoring(draws)])
    ensures BeginCombatStep(RestartStep(s), draws).playerGoesFirst
  {
    BeginCombatEffect(InitialSession(), draws);
    BeginCombatEffect(RestartStep(s), draws);
  }

  /**
   * Using First Strike spends exactly one charge and nothing else of the
   * run; without a charge it does nothing.
   */
  lemma UseFirstStrikeEffect(s: Session)
    requires Valid(s.gameState)
    ensures var t := UseFirstStrikeStep(s);
      var p := s.gameState.powerups;
      if p[FirstStrike] > 0 then
        && t.playerGoesFirst
        && t.gameState == s.gameState.(powerups := t.gameState.powerups)
        && t.gameState.powerups[FirstStrike] == p[FirstStrike] - 1
        && (forall k :: k in p && k != FirstStrike ==> k in t.gameState.powerups && t.gameState.powerups[k] == p[k])
        && t == s.(gameState := t.gameState, playerGoesFirst := true)
      else t == s
  {
  }

  /** With a First Strike charge spent, the next fight opens with the player's turn and no enemy roll. */
  lemma FirstStrikeThenPlayerFirst(s: Session, draws: seq<DiceDraw>)
    requires Valid(s.gameState) && s.gameState.powerups[FirstStrike] > 0 && EnemyWillScore(draws)
    ensures var t := BeginCombatStep(UseFirstStrikeStep(s), draws);
      t.canPlayerRoll && t.enemyDice == [] && t.screen == CombatScreen && !t.playerGoesFirst
  {
    UseFirstStrikeEffect(s);
    BeginCombatEffect(UseFirstStrikeStep(s), draws);
  }

  // ---------------------------------------------------------------------------
  // handlePlayerRollDice

  /**
   * A roll is ignored unless rolling is enabled. Otherwise the dice and
   * their reading are shown, no reroll is spent, rolling stays enabled
   * exactly after no score, and the fight ends at once exactly on 4-5-6 (a
   * won round) or 1-2-3 (a lost run).
   */
  lemma PlayerRollEffect(s: Session, draw: DiceDraw, luck: LuckDraw)
    requires DrawFits(draw, 3) && LuckFits(luck) && s.screen == CombatScreen
    ensures !s.canPlayerRoll ==> PlayerRollStep(s, draw, luck) == s
    ensures s.canPlayerRoll ==>
      var d := PlayerDice(s.gameState, draw, luck);
      var r := PlayerResult(s, d);
      var t := PlayerRollStep(s, draw, luck);
      && t.dice == d && t.rollResult == Some(r)
      && t.combat == s.combat
      && (t.canPlayerRoll <==> r.kind == NoScore)
      && (t.screen == DefeatScreen <==> r.kind == InstantLoss)
      && (t.gameState.round == s.gameState.round + 1 <==> r.kind == InstantWin)
      && (t.screen == CombatScreen <==> r.kind != InstantWin && r.kind != InstantLoss)
  {
    if s.canPlayerRoll {
      var d := PlayerDice(s.gameState, draw, luck);
      var r := PlayerResult(s, d);
      RollOutcomeEffect(ShowRoll(s, d, r), r.kind);
    }
  }

  /** What the instant-outcome check does to a shown roll, by the roll's kind. */
  lemma RollOutcomeEffect(shown: Session, kind: RollType)
    requires shown.screen == CombatScreen && !shown.canPlayerRoll
    ensures var t := RollOutcome(shown, kind);
      && t.dice == shown.dice && t.rollResult == shown.rollResult && t.combat == shown.combat
      && (t.canPlayerRoll <==> kind == NoScore)
      && (t.screen == DefeatScreen <==> kind == InstantLoss)
      && (t.gameState.round == shown.gameState.round + 1 <==> kind == InstantWin)
      && (t.screen == CombatScreen <==> kind != InstantWin && kind != InstantLoss)
  {
  }

  /**
   * The Ace Saver turns 1-1-1 into 6-6-6 at most once per fight: once spent,
   * no later roll of the fight spends it, and a roll spends it exactly on
   * 1-1-1 with an Ace Saver owned and not yet spent.
   */
  lemma AceSaverAtMostOnce(s: Session, draw: DiceDraw, luck: LuckDraw)
    requires DrawFits(draw, 3) && LuckFits(luck) && s.canPlayerRoll
    ensures var d := PlayerDice(s.gameState, draw, luck);
      var t := PlayerRollStep(s, draw, luck);
      && t.rollResult.Some?
      && (t.rollResult.value.usedAceSaver <==>
            d == [1, 1, 1] && Count(s.gameState.powerups, AceSaver) > 0 && !s.usedAceSaver)
      && (s.usedAceSaver ==> t.usedAceSaver && !t.rollResult.value.usedAceSaver)
      && (t.usedAceSaver <==> s.usedAceSaver || t.rollResult.value.usedAceSaver)
  {
    var p := s.gameState.powerups;
    var d := PlayerDice(s.gameState, draw, luck);
    PlayerDiceShape(s.gameState, draw, luck);
    AnalyzeAceSaverFlag(d, Count(p, PointBoost), Count(p, AceSaver) > 0, s.usedAceSaver);
    var r := PlayerResult(s, d);
    assert PlayerRollStep(s, draw, luck) == RollOutcome(ShowRoll(s, d, r), r.kind);
  }

  // ---------------------------------------------------------------------------
  // handleAttack and handleDefend

  /**
   * An attack takes the enemy's HP to max(0, HP - damage). The round is won
   * exactly when HP - damage <= 0; otherwise the enemy answers, and the run
   * record is unchanged even when the enemy rolls 1-2-3.
   */
  lemma AttackEffect(s: Session, draws: seq<DiceDraw>)
    requires s.combat.Some? && s.rollResult.Some? && EnemyWillScore(draws) && s.screen == CombatScreen
    ensures var g := s.gameState;
      var damage := AttackDamage(g.baseDamage, s.rollResult.value, Count(g.powerups, DoubleDown) > 0);
      var t := AttackStep(s, draws);
      && t.combat.Some?
      && t.combat.value.enemyHP == Max(0, s.combat.value.enemyHP - damage)
      && (t.gameState.round == g.round + 1 <==> s.combat.value.enemyHP - damage <= 0)
      && (s.combat.value.enemyHP - damage > 0 ==> t.gameState == g)
  {
    var damage := AttackDamage(s.gameState.baseDamage, s.rollResult.value, Count(s.gameState.powerups, DoubleDown) > 0);
    if s.combat.value.enemyHP - damage > 0 {
      EnemyAnswersEffect(Struck(s, damage), draws);
    }
  }

  /**
   * A defence heals before the enemy acts, without a cap at the maximum HP;
   * it never wins the round and never touches the enemy's HP.
   */
  lemma DefendEffect(s: Session, draws: seq<DiceDraw>)
    requires s.combat.Some? && s.rollResult.Some? && EnemyWillScore(draws) && s.screen == CombatScreen
    ensures var c := s.combat.value;
      var healed := c.playerHP + DefendHeal(s.rollResult.value);
      var r := EnemyResult(draws[FirstScoring(draws)]);
      var t := DefendStep(s, draws);
      && t.gameState == s.gameState
      && t.combat.Some? && t.combat.value.enemyHP == c.enemyHP
      && t.combat.value.playerHP
         == (if EnemyOutcome(r) == Continue then EnemyHit(healed, EnemyDamage(s.gameState.baseDamage, r)).playerHP else healed)
  {
    EnemyAnswersEffect(Healed(s, DefendHeal(s.rollResult.value)), draws);
  }

  // ---------------------------------------------------------------------------
  // handleReroll and handleWildDie

  /**
   * A reroll with rerolls left spends exactly one and shows a fresh roll read
   * without Ace Saver and without the luck corrections (so a rerolled 1-1-1
   * is trips worth 1); it is only shown, so even a 4-5-6 or 1-2-3 does not
   * end the fight. Without rerolls it does nothing.
   */
  lemma RerollEffect(s: Session, draw: DiceDraw)
    requires s.combat.Some? && DrawFits(draw, 3)
    ensures var c := s.combat.value;
      var t := RerollStep(s, draw);
      if c.rerollsLeft > 0 then
        var p := s.gameState.powerups;
        && t.combat == Some(c.(rerollsLeft := c.rerollsLeft - 1))
        && t.dice == Rolled(3, Count(p, LoadedDice) > 0, Count(p, HighRoller) > 0, draw)
        && t.rollResult == Some(AnalyzeCeeloRoll(t.dice, Count(p, PointBoost), false, false))
        && !t.rollResult.value.usedAceSaver
        && (t.dice == [1, 1, 1] ==> t.rollResult.value == RollResult(Trips, 1 + TRIPS_BONUS, false))
        && t == s.(dice := t.dice, rollResult := t.rollResult, combat := t.combat)
      else t == s
  {
    if s.combat.value.rerollsLeft > 0 {
      var p := s.gameState.powerups;
      var d := Rolled(3, Count(p, LoadedDice) > 0, Count(p, HighRoller) > 0, draw);
      RolledShape(3, Count(p, LoadedDice) > 0, Count(p, HighRoller) > 0, draw);
      AnalyzeAceSaverFlag(d, Count(p, PointBoost), false, false);
    }
  }

  /**
   * A Wild Die click moves exactly the clicked die to a different face, keeps
   * the others, reads the dice again without Ace Saver, spends one charge,
   * never uses more charges than owned, and changes no other cell.
   */
  lemma WildDieEffect(s: Session, index: int, value: int)
    requires Inv(s) && CanUseWildDie(s, index, value)
    ensures var t := WildDieStep(s, index, value);
      && |t.dice| == 3
      && t.dice[index] == value != s.dice[index]
      && (forall j :: 0 <= j < 3 && j != index ==> t.dice[j] == s.dice[j])
      && t.wildDieUsed == s.wildDieUsed + 1 <= Count(s.gameState.powerups, WildDie)
      && t.rollResult == Some(AnalyzeCeeloRoll(t.dice, Count(s.gameState.powerups, PointBoost), false, false))
      && !t.rollResult.value.usedAceSaver
      && t == s.(dice := t.dice, rollResult := t.rollResult, wildDieUsed := t.wildDieUsed)
  {
  }

  // ---------------------------------------------------------------------------
  // handleVictory and handleBuyPowerup

  /**
   * A won round pays getVictoryRewards for the round just won and advances
   * the round; the run ends in victory exactly when that round was the last.
   */
  lemma VictoryEffect(s: Session)
    requires Valid(s.gameState)
    ensures var g := s.gameState;
      var w := VictoryRewards(g.round);
      var t := VictoryStep(s);
      && t.gameState == g.(gold := g.gold + w.gold, baseHP := g.baseHP + w.hp,
                           baseDamage := g.baseDamage + w.damage, round := g.round + 1)
      && w.gold > 0 && w.hp > 0 && w.damage > 0
      && (t.screen == VictoryScreen <==> g.round >= g.maxRounds)
      && (t.screen != VictoryScreen ==> t.screen == PreRoundScreen)
  {
    VictoryRewardsMonotone(1, s.gameState.round);
  }

  /**
   * Buying changes nothing exactly when the price is above the gold; a
   * purchase changes only the run record, and there adds one to the bought
   * powerup's count.
   */
  lemma BuyPowerupEffect(s: Session, powerupKey: PowerupKey)
    requires Valid(s.gameState)
    ensures var g := s.gameState;
      var t := BuyPowerupStep(s, powerupKey);
      && (t == s <==> g.gold < g.prices[powerupKey])
      && t == s.(gameState := t.gameState)
      && (g.gold >= g.prices[powerupKey] ==>
            t.gameState.powerups[powerupKey] == g.powerups[powerupKey] + 1
            && t.gameState.gold == g.gold - g.prices[powerupKey])
  {
    PurchaseRefusedIffUnaffordable(powerupKey, s.gameState);
    if s.gameState.gold >= s.gameState.prices[powerupKey] {
      PurchaseEffect(powerupKey, s.gameState);
    }
  }
}
