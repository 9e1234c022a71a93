/**
 * The game component and its two state hooks as one object
 * (src/components/Game.jsx, src/hooks/useGameState.js,
 * src/hooks/useCombat.js): every state cell is a field, every hook function
 * and every handler is a method. Each method is specified by the step
 * function of `Sessions` that it performs on `Snapshot()`; the properties of
 * those functions are proved in `Invariant` and `GameProperties`.
 *
 * Timers run to completion: a method performs its scheduled callbacks in the
 * order their timers fire.
 */
module GameController {
  import opened Wrappers
  import opened Config
  import opened Dice
  import opened RunState
  import opened Economy
  import opened Combat
  import opened Sessions

  class Game {
    var gameState: RunState
    var combat: Option<CombatStats>
    var dice: seq<int>
    var enemyDice: seq<int>
    var rollResult: Option<RollResult>
    var enemyRollResult: Option<RollResult>
    var canPlayerRoll: bool
    var playerHasRolled: bool
    var usedAceSaver: bool
    var wildDieUsed: int
    var screen: Screen
    var playerGoesFirst: bool

    /** The values of all state cells. */
    function Snapshot(): Session
      reads this
    {
      Session(gameState, combat, dice, enemyDice, rollResult, enemyRollResult,
              canPlayerRoll, playerHasRolled, usedAceSaver, wildDieUsed, screen, playerGoesFirst)
    }

    /** The cells as the hooks initialise them. */
    constructor()
      ensures Snapshot() == InitialSession()
    {
      gameState := CreateInitialState();
      combat := None;
      dice := [];
      enemyDice := [];
      rollResult := None;
      enemyRollResult := None;
      canPlayerRoll := false;
      playerHasRolled := false;
      usedAceSaver := false;
      wildDieUsed := 0;
      screen := MenuScreen;
      playerGoesFirst := false;
    }

    // -------------------------------------------------------------------------
    // useGameState

    method Restart()
      modifies this
      ensures Snapshot() == RestartState(old(Snapshot()))
    {
      gameState := CreateInitialState();
    }

    method UpdateGameState(updates: Update)
      modifies this
      ensures Snapshot() == UpdateState(old(Snapshot()), updates)
    {
      gameState := Merge(gameState, updates);
    }

    // -------------------------------------------------------------------------
    // useCombat

    method ResetCombatState()
      modifies this
      ensures Snapshot() == ResetCombat(old(Snapshot()))
    {
      dice := [];
      enemyDice := [];
      rollResult := None;
      enemyRollResult := None;
      canPlayerRoll := false;
      playerHasRolled := false;
      usedAceSaver := false;
      wildDieUsed := 0;
    }

    /** setCombat: store a combat record. */
    method SetCombat(c: CombatStats)
      modifies this
      ensures Snapshot() == old(Snapshot()).(combat := Some(c))
    {
      combat := Some(c);
    }

    method ExecutePlayerTurn()
      modifies this
      ensures Snapshot() == PlayerTurn(old(Snapshot()))
    {
      canPlayerRoll := true;
      playerHasRolled := false;
    }

    /** performEnemyRoll: one unmodified roll, shown, and what it means for the turn loop. */
    method PerformEnemyRoll(draw: DiceDraw) returns (outcome: Outcome, enemyResult: RollResult)
      requires DrawFits(draw, 3)
      modifies this
      ensures enemyResult == EnemyResult(draw)
      ensures outcome == EnemyOutcome(enemyResult)
      ensures Snapshot() == old(Snapshot()).(enemyDice := EnemyRoll(draw), enemyRollResult := Some(enemyResult))
    {
      var enemyRoll := RollDice(3, false, false, draw);
      enemyResult := AnalyzeCeeloRoll(enemyRoll, 0, false, false);
      enemyDice := enemyRoll;
      enemyRollResult := Some(enemyResult);
      if enemyResult.kind == InstantWin {
        outcome := Defeat;
      } else if enemyResult.kind == InstantLoss {
        outcome := Victory;
      } else if enemyResult.kind == NoScore {
        outcome := Reroll;
      } else {
        outcome := Continue;
      }
    }

    /**
     * The callback performEnemyRoll hands a scoring roll to: the enemy hits
     * for its base damage times the value; the player's HP stops at 0, and
     * then a defeat is reported after the 'continue'.
     */
    method EnemyStrikes(enemyResult: RollResult) returns (reports: seq<Outcome>)
      requires combat.Some?
      modifies this
      ensures var hit := EnemyHit(old(combat.value.playerHP), EnemyDamage(gameState.baseDamage, enemyResult));
        && Snapshot() == old(Snapshot()).(combat := Some(old(combat.value).(playerHP := hit.playerHP)))
        && reports == if hit.defeated then [Continue, Defeat] else [Continue]
    {
      var enemyDamage := 0;
      var enemyBaseDamage := gameState.baseDamage * ENEMY_DAMAGE_NUM / ENEMY_DAMAGE_DEN;
      if enemyResult.kind == Trips {
        enemyDamage := enemyBaseDamage * enemyResult.value;
      } else if enemyResult.kind == Point {
        enemyDamage := enemyBaseDamage * enemyResult.value;
      }
      reports := [Continue];
      if enemyDamage > 0 {
        var newPlayerHP := combat.value.playerHP - enemyDamage;
        if newPlayerHP <= 0 {
          combat := Some(combat.value.(playerHP := 0));
          reports := [Continue, Defeat];
        } else {
          combat := Some(combat.value.(playerHP := newPlayerHP));
        }
      }
    }

    /**
     * executeEnemyTurn: roll from the stream until a roll scores, then let a
     * trips or point roll hit; returns the results handed to the caller's
     * callback, in timer order.
     */
    method ExecuteEnemyTurn(draws: seq<DiceDraw>) returns (reports: seq<Outcome>)
      requires combat.Some? && EnemyWillScore(draws)
      modifies this
      ensures Snapshot() == EnemyTurn(old(Snapshot()), draws).session
      ensures reports == EnemyTurn(old(Snapshot()), draws).reports
    {
      FirstScoringIsFirst(draws);
      var i := 0;
      var outcome, result := PerformEnemyRoll(draws[0]);
      while outcome == Reroll
        invariant 0 <= i <= FirstScoring(draws)
        invariant result == EnemyResult(draws[i]) && outcome == EnemyOutcome(result)
        invariant Snapshot() == old(Snapshot()).(enemyDice := EnemyRoll(draws[i]), enemyRollResult := Some(result))
        decreases FirstScoring(draws) - i
      {
        i := i + 1;
        outcome, result := PerformEnemyRoll(draws[i]);
      }
      assert i == FirstScoring(draws);
      if outcome == Continue {
        reports := EnemyStrikes(result);
      } else {
        reports := [outcome];
      }
    }

    // -------------------------------------------------------------------------
    // Game.jsx

    method HandleStartRound()
      modifies this
      ensures Snapshot() == StartRoundStep(old(Snapshot()))
    {
      screen := PreRoundScreen;
    }

    method HandleVictory()
      modifies this
      ensures Snapshot() == VictoryStep(old(Snapshot()))
    {
      var rewards := VictoryRewards(gameState.round);
      var round, maxRounds := gameState.round, gameState.maxRounds;
      UpdateGameState(NO_UPDATE.(gold := Some(gameState.gold + rewards.gold),
                                 baseHP := Some(gameState.baseHP + rewards.hp),
                                 baseDamage := Some(gameState.baseDamage + rewards.damage),
                                 round := Some(gameState.round + 1)));
      if round >= maxRounds {
        screen := VictoryScreen;
      } else {
        screen := PreRoundScreen;
      }
    }

    method HandleDefeat()
      modifies this
      ensures Snapshot() == DefeatStep(old(Snapshot()))
    {
      screen := DefeatScreen;
    }

    /** The callback handleBeginCombat gives the enemy's opening turn, run once per report. */
    method AnswerOpening(reports: seq<Outcome>)
      modifies this
      ensures Snapshot() == OpeningAnswer(old(Snapshot()), reports)
    {
      ghost var target := OpeningAnswer(Snapshot(), reports);
      var k := 0;
      while k < |reports|
        invariant 0 <= k <= |reports|
        invariant OpeningAnswer(Snapshot(), reports[k..]) == target
      {
        assert reports[k..][1..] == reports[k + 1..];
        if reports[k] == Defeat {
          HandleDefeat();
        } else if reports[k] == Victory {
          HandleVictory();
        } else {
          ExecutePlayerTurn();
        }
        k := k + 1;
      }
      assert reports[k..] == [];
    }

    method HandleBeginCombat(draws: seq<DiceDraw>)
      requires EnemyWillScore(draws)
      modifies this
      ensures Snapshot() == BeginCombatStep(old(Snapshot()), draws)
    {
      ghost var s0 := Snapshot();
      var enemyHP := EnemyHP(gameState.round, gameState.baseHP);
      var totalRerolls := gameState.rerolls + Count(gameState.powerups, ExtraReroll);
      SetCombat(CombatStats(enemyHP, enemyHP, gameState.baseHP, gameState.baseHP, totalRerolls));
      assert Snapshot() == s0.(combat := Some(CombatSetup(s0.gameState)));
      ResetCombatState();
      assert Snapshot() == ResetCombat(s0.(combat := Some(CombatSetup(s0.gameState))));
      screen := CombatScreen;
      var playerFirst := playerGoesFirst;
      playerGoesFirst := !playerFirst;
      assert Snapshot() == Ready(s0);
      if playerFirst {
        ExecutePlayerTurn();
      } else {
        var reports := ExecuteEnemyTurn(draws);
        AnswerOpening(reports);
      }
    }

    method HandlePlayerRollDice(draw: DiceDraw, luck: LuckDraw)
      requires DrawFits(draw, 3) && LuckFits(luck)
      modifies this
      ensures Snapshot() == PlayerRollStep(old(Snapshot()), draw, luck)
    {
      if !canPlayerRoll {
        return;
      }
      ghost var s0 := Snapshot();
      canPlayerRoll := false;
      var playerDiceRoll := RollDice(3, Count(gameState.powerups, LoadedDice) > 0, Count(gameState.powerups, HighRoller) > 0, draw);
      playerDiceRoll := ApplyLuckModifiers(playerDiceRoll, Count(gameState.powerups, LuckyClover), Count(gameState.powerups, DevilsWard), luck);
      var playerResult := AnalyzeCeeloRoll(playerDiceRoll, Count(gameState.powerups, PointBoost),
                                           Count(gameState.powerups, AceSaver) > 0, usedAceSaver);
      assert playerDiceRoll == PlayerDice(s0.gameState, draw, luck);
      assert playerResult == PlayerResult(s0, playerDiceRoll);
      if playerResult.usedAceSaver {
        usedAceSaver := true;
      }
      dice := playerDiceRoll;
      rollResult := Some(playerResult);
      assert Snapshot() == ShowRoll(s0, playerDiceRoll, playerResult);
      SettleRoll(playerResult.kind);
    }

    /** The instant outcomes of a shown player roll. */
    method SettleRoll(kind: RollType)
      modifies this
      ensures Snapshot() == RollOutcome(old(Snapshot()), kind)
    {
      if kind == InstantWin {
        playerHasRolled := true;
        HandleVictory();
      } else if kind == InstantLoss {
        playerHasRolled := true;
        HandleDefeat();
      } else if kind == NoScore {
        canPlayerRoll := true;
      } else {
        playerHasRolled := true;
      }
    }

    /** The callback handleAttack and handleDefend give the enemy's turn, run once per report. */
    method AnswerEnemy(reports: seq<Outcome>)
      modifies this
      ensures Snapshot() == Answer(old(Snapshot()), reports)
    {
      ghost var target := Answer(Snapshot(), reports);
      var k := 0;
      while k < |reports|
        invariant 0 <= k <= |reports|
        invariant Answer(Snapshot(), reports[k..]) == target
      {
        assert reports[k..][1..] == reports[k + 1..];
        if reports[k] == Defeat {
          HandleDefeat();
        } else {
          ExecutePlayerTurn();
        }
        k := k + 1;
      }
      assert reports[k..] == [];
    }

    /** The player's dice are put away and the enemy takes its turn. */
    method EnemyReplies(draws: seq<DiceDraw>)
      requires combat.Some? && EnemyWillScore(draws)
      modifies this
      ensures Snapshot() == EnemyAnswers(old(Snapshot()), draws)
    {
      ghost var s0 := Snapshot();
      playerHasRolled := false;
      dice := [];
      rollResult := None;
      canPlayerRoll := false;
      assert Snapshot() == Cleared(s0);
      var reports := ExecuteEnemyTurn(draws);
      AnswerEnemy(reports);
    }

    method HandleAttack(draws: seq<DiceDraw>)
      requires combat.Some? && EnemyWillScore(draws)
      modifies this
      ensures Snapshot() == AttackStep(old(Snapshot()), draws)
    {
      if rollResult.None? {
        return;
      }
      ghost var s0 := Snapshot();
      var damage := AttackDamage(gameState.baseDamage, rollResult.value, Count(gameState.powerups, DoubleDown) > 0);
      var c := combat.value;
      SetCombat(c.(enemyHP := Max(0, c.enemyHP - damage)));
      assert Snapshot() == Struck(s0, damage);
      var enemyHP := c.enemyHP;
      if enemyHP - damage <= 0 {
        HandleVictory();
      } else {
        EnemyReplies(draws);
      }
    }

    method HandleDefend(draws: seq<DiceDraw>)
      requires combat.Some? && EnemyWillScore(draws)
      modifies this
      ensures Snapshot() == DefendStep(old(Snapshot()), draws)
    {
      if rollResult.None? {
        return;
      }
      ghost var s0 := Snapshot();
      var heal := DefendHeal(rollResult.value);
      var c := combat.value;
      SetCombat(c.(playerHP := c.playerHP + heal));
      assert Snapshot() == Healed(s0, heal);
      EnemyReplies(draws);
    }

    method HandleReroll(draw: DiceDraw)
      requires combat.Some? && DrawFits(draw, 3)
      modifies this
      ensures Snapshot() == RerollStep(old(Snapshot()), draw)
    {
      if combat.value.rerollsLeft > 0 {
        var newDice := RollDice(3, Count(gameState.powerups, LoadedDice) > 0, Count(gameState.powerups, HighRoller) > 0, draw);
        var result := AnalyzeCeeloRoll(newDice, Count(gameState.powerups, PointBoost), false, false);
        dice := newDice;
        rollResult := Some(result);
        combat := Some(combat.value.(rerollsLeft := combat.value.rerollsLeft - 1));
      }
    }

    method HandleWildDie(index: int, value: int)
      requires 0 <= index < |dice| == 3
      modifies this
      ensures Snapshot() == WildDieStep(old(Snapshot()), index, value)
    {
      if wildDieUsed < Count(gameState.powerups, WildDie) {
        var newDice := dice[index := value];
        dice := newDice;
        rollResult := Some(AnalyzeCeeloRoll(newDice, Count(gameState.powerups, PointBoost), false, false));
        wildDieUsed := wildDieUsed + 1;
      }
    }

    method HandleBuyPowerup(powerupKey: PowerupKey)
      requires powerupKey in gameState.prices && powerupKey in gameState.powerups
      requires gameState.purchaseCount >= 0
      modifies this
      ensures Snapshot() == BuyPowerupStep(old(Snapshot()), powerupKey)
    {
      var result := ProcessPowerupPurchase(powerupKey, gameState);
      if result.Some? {
        UpdateGameState(PurchaseUpdate(result.value));
      }
    }

    method HandleRestart()
      modifies this
      ensures Snapshot() == RestartStep(old(Snapshot()))
    {
      Restart();
      screen := MenuScreen;
      playerGoesFirst := false;
    }

    method HandleUseFirstStrike()
      modifies this
      ensures Snapshot() == UseFirstStrikeStep(old(Snapshot()))
    {
      var charges := Count(gameState.powerups, FirstStrike);
      if charges > 0 {
        UpdateGameState(NO_UPDATE.(powerups := Some(gameState.powerups[FirstStrike := charges - 1])));
        playerGoesFirst := true;
      }
    }
  }
}
