/**
 * The whole state of a running game as one value, and what each handler of
 * src/components/Game.jsx and each function of src/hooks/useCombat.js and
 * src/hooks/useGameState.js makes of it. The timers of the source become
 * synchronous steps: a handler's step includes everything its scheduled
 * callbacks do.
 *
 * The class `GameController.Game` holds these cells as fields; each of its
 * methods is specified by one of the step functions below.
 */
module Sessions {
  import opened Wrappers
  import opened Config
  import opened Dice
  import opened RunState
  import opened Economy
  import opened Combat

  /** The `screen` cell. */
  datatype Screen = MenuScreen | PreRoundScreen | CombatScreen | ShopScreen | VictoryScreen | DefeatScreen

  /** Every state cell of the game: the run record, the combat hook's cells, the screen and the turn-order flag. */
  datatype Session = Session(
    gameState: RunState,
    combat: Option<CombatStats>,
    dice: seq<int>,
    enemyDice: seq<int>,
    rollResult: Option<RollResult>,
    enemyRollResult: Option<RollResult>,
    canPlayerRoll: bool,
    playerHasRolled: bool,
    usedAceSaver: bool,
    wildDieUsed: int,
    screen: Screen,
    playerGoesFirst: bool)

  /** The cells as the hooks create them. */
  function InitialSession(): Session
  {
    Session(CreateInitialState(), None, [], [], None, None, false, false, false, 0, MenuScreen, false)
  }

  // ---------------------------------------------------------------------------
  // src/hooks/useGameState.js

  /** restart */
  function RestartState(s: Session): Session
  {
    s.(gameState := CreateInitialState())
  }

  /** updateGameState */
  function UpdateState(s: Session, updates: Update): Session
  {
    s.(gameState := Merge(s.gameState, updates))
  }

  // ---------------------------------------------------------------------------
  // src/hooks/useCombat.js

  /** resetCombatState */
  function ResetCombat(s: Session): Session
  {
    s.(dice := [], enemyDice := [], rollResult := None, enemyRollResult := None,
       canPlayerRoll := false, playerHasRolled := false, usedAceSaver := false, wildDieUsed := 0)
  }

  /** executePlayerTurn */
  function PlayerTurn(s: Session): Session
  {
    s.(canPlayerRoll := true, playerHasRolled := false)
  }

  /** A stream of enemy rolls: each draw is three die faces (and three unused High Roller faces). */
  predicate DrawsFit(draws: seq<DiceDraw>)
  {
    forall i :: 0 <= i < |draws| ==> DrawFits(draws[i], 3)
  }

  /** The enemy's roll ends its reroll loop: trips, a point, 4-5-6 or 1-2-3. */
  predicate Scores(draw: DiceDraw)
    requires DrawFits(draw, 3)
  {
    EnemyResult(draw).kind != NoScore
  }

  /** The first position holding true, or |flags|. */
  function FirstTrue(flags: seq<bool>): (i: nat)
    ensures i <= |flags|
    ensures forall j :: 0 <= j < i ==> !flags[j]
    ensures i < |flags| ==> flags[i]
  {
    if flags == [] then 0
    else if flags[0] then 0
    else 1 + FirstTrue(flags[1..])
  }

  /** Which draws of the stream score. */
  function ScoreFlags(draws: seq<DiceDraw>): (flags: seq<bool>)
    requires DrawsFit(draws)
    ensures |flags| == |draws|
  {
    seq(|draws|, j requires 0 <= j < |draws| => Scores(draws[j]))
  }

  /** The position of the first draw the enemy scores with, or |draws|. */
  function FirstScoring(draws: seq<DiceDraw>): (i: nat)
    requires DrawsFit(draws)
    ensures i <= |draws|
  {
    FirstTrue(ScoreFlags(draws))
  }

  /** Every draw before FirstScoring fails to score, and the one at FirstScoring (if any) scores. */
  lemma FirstScoringIsFirst(draws: seq<DiceDraw>)
    requires DrawsFit(draws)
    ensures forall j :: 0 <= j < FirstScoring(draws) ==> !Scores(draws[j])
    ensures FirstScoring(draws) < |draws| ==> Scores(draws[FirstScoring(draws)])
  {
    var flags := ScoreFlags(draws);
    assert forall j :: 0 <= j < |draws| ==> flags[j] == Scores(draws[j]);
  }

  /**
   * The enemy rerolls until it scores; a finite stream of draws ends that
   * loop only if one of them scores.
   */
  predicate EnemyWillScore(draws: seq<DiceDraw>)
  {
    DrawsFit(draws) && FirstScoring(draws) < |draws|
  }

  /**
   * The state after an enemy turn, and the results the turn passes to its
   * caller's callback, in the order their timers fire.
   */
  datatype Turn = Turn(session: Session, reports: seq<Outcome>)

  /**
   * executeEnemyTurn: roll until the enemy scores and show the last roll.
   * A 4-5-6 reports a defeat and a 1-2-3 a victory. Trips or a point hit the
   * player and report 'continue' (800 ms); a hit that takes the player's HP
   * to 0 also reports a defeat (1000 ms), after the 'continue'.
   */
  function EnemyTurn(s: Session, draws: seq<DiceDraw>): (t: Turn)
    requires s.combat.Some? && EnemyWillScore(draws)
    ensures t.reports != [] && t.session.combat.Some?
  {
    var draw := draws[FirstScoring(draws)];
    var r := EnemyResult(draw);
    var rolled := s.(enemyDice := EnemyRoll(draw), enemyRollResult := Some(r));
    var outcome := EnemyOutcome(r);
    if outcome != Continue then Turn(rolled, [outcome])
    else
      var hit := EnemyHit(s.combat.value.playerHP, EnemyDamage(s.gameState.baseDamage, r));
      Turn(rolled.(combat := Some(s.combat.value.(playerHP := hit.playerHP))),
           if hit.defeated then [Continue, Defeat] else [Continue])
  }

  // ---------------------------------------------------------------------------
  // src/components/Game.jsx

  /** handleStartRound */
  function StartRoundStep(s: Session): Session
  {
    s.(screen := PreRoundScreen)
  }

  /** handleVictory: collect the round's rewards, advance the round, and show the run's end after the last round. */
  function VictoryStep(s: Session): Session
  {
    var g := s.gameState;
    var rewards := VictoryRewards(g.round);
    var updates := NO_UPDATE.(gold := Some(g.gold + rewards.gold), baseHP := Some(g.baseHP + rewards.hp),
                              baseDamage := Some(g.baseDamage + rewards.damage), round := Some(g.round + 1));
    UpdateState(s, updates).(screen := if g.round >= g.maxRounds then VictoryScreen else PreRoundScreen)
  }

  /** handleDefeat */
  function DefeatStep(s: Session): Session
  {
    s.(screen := DefeatScreen)
  }

  /** The fight as handleBeginCombat sets it up: a fresh combat record, cleared cells, the turn order flipped. */
  function Ready(s: Session): Session
  {
    ResetCombat(s.(combat := Some(CombatSetup(s.gameState))))
      .(screen := CombatScreen, playerGoesFirst := !s.playerGoesFirst)
  }

  /** The callback of handleBeginCombat, run on each report of the enemy's opening turn in turn. */
  function OpeningAnswer(s: Session, reports: seq<Outcome>): Session
    decreases |reports|
  {
    if reports == [] then s
    else
      var next := match reports[0]
        case Defeat => DefeatStep(s)
        case Victory => VictoryStep(s)
        case _ => PlayerTurn(s);
      OpeningAnswer(next, reports[1..])
  }

  /**
   * handleBeginCombat: set up the fight, clear the combat cells, flip the
   * turn order for the next round, and let whoever goes first act.
   */
  function BeginCombatStep(s: Session, draws: seq<DiceDraw>): Session
    requires EnemyWillScore(draws)
  {
    if s.playerGoesFirst then PlayerTurn(Ready(s))
    else
      var t := EnemyTurn(Ready(s), draws);
      OpeningAnswer(t.session, t.reports)
  }

  /** The dice a player roll shows: rollDice with Loaded Dice and High Roller, then the luck corrections. */
  function PlayerDice(g: RunState, draw: DiceDraw, luck: LuckDraw): seq<int>
    requires DrawFits(draw, 3) && LuckFits(luck)
  {
    var p := g.powerups;
    var rolled := Rolled(3, Count(p, LoadedDice) > 0, Count(p, HighRoller) > 0, draw);
    LuckyDice(rolled, Count(p, LuckyClover), Count(p, DevilsWard), luck)
  }

  /** How a player roll is read: Point Boost, and Ace Saver unless already spent this fight. */
  function PlayerResult(s: Session, d: seq<int>): RollResult
    requires |d| == 3
  {
    var p := s.gameState.powerups;
    AnalyzeCeeloRoll(d, Count(p, PointBoost), Count(p, AceSaver) > 0, s.usedAceSaver)
  }

  /** The player's dice and their reading are shown, rolling is disabled and a spent Ace Saver is remembered. */
  function ShowRoll(s: Session, d: seq<int>, r: RollResult): Session
  {
    s.(canPlayerRoll := false, usedAceSaver := s.usedAceSaver || r.usedAceSaver, dice := d, rollResult := Some(r))
  }

  function MarkRolled(s: Session): Session
  {
    s.(playerHasRolled := true)
  }

  /** What a shown player roll leads to: 4-5-6 wins the round, 1-2-3 loses the run, no score lets the player roll again. */
  function RollOutcome(shown: Session, kind: RollType): Session
  {
    match kind
    case InstantWin => VictoryStep(MarkRolled(shown))
    case InstantLoss => DefeatStep(MarkRolled(shown))
    case NoScore => shown.(canPlayerRoll := true)
    case _ => MarkRolled(shown)
  }

  /**
   * handlePlayerRollDice: ignored unless rolling is enabled; no score lets the
   * player roll again for free, 4-5-6 wins the round, 1-2-3 loses the run.
   */
  function PlayerRollStep(s: Session, draw: DiceDraw, luck: LuckDraw): Session
    requires DrawFits(draw, 3) && LuckFits(luck)
  {
    if !s.canPlayerRoll then s
    else
      var d := PlayerDice(s.gameState, draw, luck);
      var r := PlayerResult(s, d);
      RollOutcome(ShowRoll(s, d, r), r.kind)
  }

  /** The player's dice are put away before the enemy acts. */
  function Cleared(s: Session): Session
  {
    s.(playerHasRolled := false, dice := [], rollResult := None, canPlayerRoll := false)
  }

  /**
   * The callback of handleAttack and handleDefend, run on each report of the
   * enemy's turn in turn: a defeat ends the run, anything else (an enemy 1-2-3
   * included) hands the turn back to the player.
   */
  function Answer(s: Session, reports: seq<Outcome>): Session
    decreases |reports|
  {
    if reports == [] then s
    else Answer(if reports[0] == Defeat then DefeatStep(s) else PlayerTurn(s), reports[1..])
  }

  /** After a player action the dice are put away and the enemy acts. */
  function EnemyAnswers(s: Session, draws: seq<DiceDraw>): Session
    requires s.combat.Some? && EnemyWillScore(draws)
  {
    var t := EnemyTurn(Cleared(s), draws);
    Answer(t.session, t.reports)
  }

  /** The enemy after a hit of `damage`, its HP not below 0. */
  function Struck(s: Session, damage: int): Session
    requires s.combat.Some?
  {
    s.(combat := Some(s.combat.value.(enemyHP := Max(0, s.combat.value.enemyHP - damage))))
  }

  /**
   * handleAttack: damage the enemy (HP not below 0); the round is won when the
   * enemy's HP before the hit minus the damage is at most 0, otherwise the
   * enemy answers.
   */
  function AttackStep(s: Session, draws: seq<DiceDraw>): Session
    requires s.combat.Some? && EnemyWillScore(draws)
  {
    if s.rollResult.None? then s
    else
      var damage := AttackDamage(s.gameState.baseDamage, s.rollResult.value, Count(s.gameState.powerups, DoubleDown) > 0);
      if s.combat.value.enemyHP - damage <= 0 then VictoryStep(Struck(s, damage))
      else EnemyAnswers(Struck(s, damage), draws)
  }

  /** The player after a heal of `heal`, with no cap at the maximum HP. */
  function Healed(s: Session, heal: int): Session
    requires s.combat.Some?
  {
    s.(combat := Some(s.combat.value.(playerHP := s.combat.value.playerHP + heal)))
  }

  /** handleDefend: heal the player, then the enemy answers. */
  function DefendStep(s: Session, draws: seq<DiceDraw>): Session
    requires s.combat.Some? && EnemyWillScore(draws)
  {
    if s.rollResult.None? then s
    else EnemyAnswers(Healed(s, DefendHeal(s.rollResult.value)), draws)
  }

  /** handleReroll: with a reroll left, spend it on a fresh roll read without Ace Saver and without luck corrections. */
  function RerollStep(s: Session, draw: DiceDraw): Session
    requires s.combat.Some? && DrawFits(draw, 3)
  {
    var c := s.combat.value;
    if c.rerollsLeft > 0 then
      var p := s.gameState.powerups;
      var newDice := Rolled(3, Count(p, LoadedDice) > 0, Count(p, HighRoller) > 0, draw);
      var r := AnalyzeCeeloRoll(newDice, Count(p, PointBoost), false, false);
      s.(dice := newDice, rollResult := Some(r), combat := Some(c.(rerollsLeft := c.rerollsLeft - 1)))
    else s
  }

  /** handleWildDie: with a Wild Die charge left, set one die and read the dice again. */
  function WildDieStep(s: Session, index: int, value: int): Session
    requires 0 <= index < |s.dice| == 3
  {
    if s.wildDieUsed < Count(s.gameState.powerups, WildDie) then
      var newDice := s.dice[index := value];
      s.(dice := newDice,
         rollResult := Some(AnalyzeCeeloRoll(newDice, Count(s.gameState.powerups, PointBoost), false, false)),
         wildDieUsed := s.wildDieUsed + 1)
    else s
  }

  /** handleBuyPowerup: merge a successful purchase into the run record; a refused one changes nothing. */
  function BuyPowerupStep(s: Session, powerupKey: PowerupKey): Session
    requires powerupKey in s.gameState.prices && powerupKey in s.gameState.powerups
    requires s.gameState.purchaseCount >= 0
  {
    var result := ProcessPowerupPurchase(powerupKey, s.gameState);
    if result.Some? then UpdateState(s, PurchaseUpdate(result.value)) else s
  }

  /** handleRestart: a fresh run record, the menu, and the enemy first again (the combat cells are kept). */
  function RestartStep(s: Session): Session
  {
    RestartState(s).(screen := MenuScreen, playerGoesFirst := false)
  }

  /** handleUseFirstStrike: with a charge left, spend one and let the player go first. */
  function UseFirstStrikeStep(s: Session): Session
  {
    var p := s.gameState.powerups;
    var charges := Count(p, FirstStrike);
    if charges > 0 then
      UpdateState(s, NO_UPDATE.(powerups := Some(p[FirstStrike := charges - 1]))).(playerGoesFirst := true)
    else s
  }

  // ---------------------------------------------------------------------------
  // When the buttons of src/components/screens/CombatScreen.jsx are enabled

  /** The ROLL DICE button: shown before the player has rolled, enabled while rolling is allowed. */
  predicate CanRoll(s: Session)
  {
    s.screen == CombatScreen && !s.playerHasRolled && s.canPlayerRoll
  }

  /** The ATTACK and DEFEND buttons: shown after a roll, enabled for trips or a point. */
  predicate CanAttackOrDefend(s: Session)
  {
    && s.screen == CombatScreen && s.playerHasRolled && s.rollResult.Some?
    && (s.rollResult.value.kind == Trips || s.rollResult.value.kind == Point)
  }

  /** The REROLL button: shown after a roll, enabled with rerolls left unless the roll was 4-5-6 or 1-2-3. */
  predicate CanReroll(s: Session)
  {
    && s.screen == CombatScreen && s.playerHasRolled && s.rollResult.Some?
    && s.combat.Some? && s.combat.value.rerollsLeft != 0
    && s.rollResult.value.kind != InstantWin && s.rollResult.value.kind != InstantLoss
  }

  /** A click on die `index`: the dice are shown, a Wild Die charge is left, and the die moves to the next face. */
  predicate CanUseWildDie(s: Session, index: int, value: int)
  {
    && s.screen == CombatScreen && s.rollResult.Some? && s.playerHasRolled
    && s.wildDieUsed < Count(s.gameState.powerups, WildDie)
    && 0 <= index < |s.dice| && value == s.dice[index] % 6 + 1
  }
}
