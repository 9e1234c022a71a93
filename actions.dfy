/**
 * What a player can do from each screen of src/components/Game.jsx (the
 * buttons its screens wire to the handlers, and the navigation between
 * screens), and the proof that every sequence of such actions from a fresh
 * game keeps the invariant of `Invariant`.
 */
module Actions {
  import opened Config
  import opened Dice
  import opened RunState
  import opened Combat
  import opened Sessions
  import opened Invariant

  /** A button press, with the randomness its handler will draw. */
  datatype Action =
    | StartRound
    | VisitShop
    | LeaveShop
    | UseFirstStrike
    | BeginCombat(draws: seq<DiceDraw>)
    | RollDice(draw: DiceDraw, luck: LuckDraw)
    | Attack(draws: seq<DiceDraw>)
    | Defend(draws: seq<DiceDraw>)
    | Reroll(draw: DiceDraw)
    | WildDie(index: int, value: int)
    | BuyPowerup(key: PowerupKey)
    | NewRun

  /**
   * Whether the current screen offers the action and its button is enabled.
   * An enemy turn needs a stream of draws in which the enemy scores.
   */
  predicate Enabled(s: Session, a: Action)
  {
    match a
    case StartRound => s.screen == MenuScreen
    case VisitShop => s.screen == MenuScreen || s.screen == PreRoundScreen
    case LeaveShop => s.screen == ShopScreen
    case UseFirstStrike => s.screen == PreRoundScreen && Count(s.gameState.powerups, FirstStrike) > 0
    case BeginCombat(draws) => s.screen == PreRoundScreen && EnemyWillScore(draws)
    case RollDice(draw, luck) => CanRoll(s) && DrawFits(draw, 3) && LuckFits(luck)
    case Attack(draws) => CanAttackOrDefend(s) && EnemyWillScore(draws)
    case Defend(draws) => CanAttackOrDefend(s) && EnemyWillScore(draws)
    case Reroll(draw) => CanReroll(s) && DrawFits(draw, 3)
    case WildDie(index, value) => CanUseWildDie(s, index, value)
    case BuyPowerup(key) => s.screen == ShopScreen && key in s.gameState.prices && s.gameState.gold >= s.gameState.prices[key]
    case NewRun => s.screen == VictoryScreen || s.screen == DefeatScreen
  }

  /**
   * The buttons each screen offers: the menu starts a round or opens the
   * shop; the shop buys what is affordable or goes back to the menu; a
   * finished run (won or lost) offers only a new run.
   */
  lemma ScreenButtons(s: Session, a: Action)
    ensures s.screen == MenuScreen ==> (Enabled(s, a) <==> a == StartRound || a == VisitShop)
    ensures s.screen == ShopScreen ==>
      (Enabled(s, a) <==> a == LeaveShop
                          || (a.BuyPowerup? && a.key in s.gameState.prices && s.gameState.gold >= s.gameState.prices[a.key]))
    ensures s.screen == VictoryScreen || s.screen == DefeatScreen ==> (Enabled(s, a) <==> a == NewRun)
    ensures s.screen == PreRoundScreen && Enabled(s, a) ==>
      a == VisitShop || a == UseFirstStrike || a.BeginCombat?
    ensures s.screen == CombatScreen && Enabled(s, a) ==>
      a.RollDice? || a.Attack? || a.Defend? || a.Reroll? || a.WildDie?
  {
  }

  /**
   * After a roll that can neither be played nor rerolled (4-5-6, 1-2-3, or no
   * score with no rerolls left) the only enabled combat action is a Wild Die
   * click, so without a charge left the fight cannot go on.
   */
  lemma DeadRollButtons(s: Session, a: Action)
    requires s.screen == CombatScreen && s.playerHasRolled && s.rollResult.Some? && s.combat.Some?
    requires var k := s.rollResult.value.kind;
      k == InstantWin || k == InstantLoss || (k == NoScore && s.combat.value.rerollsLeft == 0)
    ensures Enabled(s, a) <==> a.WildDie? && CanUseWildDie(s, a.index, a.value)
    ensures s.wildDieUsed >= Count(s.gameState.powerups, PowerupKey.WildDie) ==> !Enabled(s, a)
  {
  }

  /** A reroll that lands on 4-5-6 or 1-2-3 leaves only Wild Die clicks enabled. */
  lemma {:induction false} RerollDeadEnd(s: Session, draw: DiceDraw, a: Action)
    requires CanReroll(s) && DrawFits(draw, 3)
    ensures var t := RerollStep(s, draw);
      t.rollResult.Some? && (t.rollResult.value.kind == InstantWin || t.rollResult.value.kind == InstantLoss) ==>
        (Enabled(t, a) <==> a.WildDie? && CanUseWildDie(t, a.index, a.value))
  {
    var t := RerollStep(s, draw);
    if t.rollResult.Some? && (t.rollResult.value.kind == InstantWin || t.rollResult.value.kind == InstantLoss) {
      DeadRollButtons(t, a);
    }
  }

  /** The navigation callbacks only change the screen. */
  function Navigate(s: Session, to: Screen): Session
  {
    s.(screen := to)
  }

  /** The handler an enabled button runs. */
  function Apply(s: Session, a: Action): Session
    requires Inv(s) && Enabled(s, a)
  {
    match a
    case StartRound => StartRoundStep(s)
    case VisitShop => Navigate(s, ShopScreen)
    case LeaveShop => Navigate(s, MenuScreen)
    case UseFirstStrike => UseFirstStrikeStep(s)
    case BeginCombat(draws) => BeginCombatStep(s, draws)
    case RollDice(draw, luck) => PlayerRollStep(s, draw, luck)
    case Attack(draws) => AttackStep(s, draws)
    case Defend(draws) => DefendStep(s, draws)
    case Reroll(draw) => RerollStep(s, draw)
    case WildDie(index, value) => WildDieStep(s, index, value)
    case BuyPowerup(key) => BuyPowerupStep(s, key)
    case NewRun => RestartStep(s)
  }

  /** Every enabled action keeps the invariant. */
  lemma ApplyInv(s: Session, a: Action)
    requires Inv(s) && Enabled(s, a)
    ensures Inv(Apply(s, a))
  {
    match a
    case StartRound => StartRoundStepInv(s);
    case VisitShop =>
    case LeaveShop =>
    case UseFirstStrike => UseFirstStrikeStepInv(s);
    case BeginCombat(draws) => BeginCombatStepInv(s, draws);
    case RollDice(draw, luck) => PlayerRollStepInv(s, draw, luck);
    case Attack(draws) => AttackStepInv(s, draws);
    case Defend(draws) => DefendStepInv(s, draws);
    case Reroll(draw) => RerollStepInv(s, draw);
    case WildDie(index, value) => WildDieStepInv(s, index, value);
    case BuyPowerup(key) => BuyPowerupStepInv(s, key);
    case NewRun => RestartStepInv(s);
  }

  /** A session of play: each enabled press runs its handler; a press on a disabled or absent button does nothing. */
  function Play(s: Session, actions: seq<Action>): (r: Session)
    requires Inv(s)
    ensures Inv(r)
    decreases |actions|
  {
    if actions == [] then s
    else if Enabled(s, actions[0]) then
      ApplyInv(s, actions[0]);
      Play(Apply(s, actions[0]), actions[1..])
    else Play(s, actions[1..])
  }

  /**
   * Every state a game reaches satisfies the invariant: the run record stays
   * valid, the combat screen always has a combat record, no HP or reroll
   * count goes negative, and shown dice are three faces.
   */
  lemma PlayKeepsInv(actions: seq<Action>)
    ensures Inv(InitialSession()) && Inv(Play(InitialSession(), actions))
  {
    InitialSessionInv();
  }
}
