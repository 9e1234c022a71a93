# Cee-lo roguelike: combat and economy engine in Dafny

This project models the engine of a browser dice roguelike built on Cee-lo.
A run lasts five rounds. Each round is a fight against an enemy whose HP
grows with the round. Player and enemy take turns rolling three dice:

- 4-5-6 wins at once and 1-2-3 loses at once;
- three of a kind ("trips") and a pair plus an odd die (a "point") score;
- anything else is rolled again for free.

A scoring roll lets the player attack (damage = base damage × value) or
defend (heal = value × 5 for trips, × 3 for a point). The enemy then rolls
and hits back with four fifths of the player's base damage. Winning a round
pays gold, HP and damage. Gold buys powerups in a shop whose prices rise
per item and, after every purchase, through global compounding inflation.
The powerups:

- they bias the roll: Loaded Dice, High Roller, Lucky Clover, Devil's Ward;
- they change how a roll is read: Point Boost, Ace Saver;
- they change the fight: Double Down, Wild Die, Extra Reroll, First Strike.

The model is organised by the program's own modules.

| Dafny module (file) | program source | form |
|---|---|---|
| `Config` (config.dfy) | `src/constants/gameConfig.js` | constants, catalog tables, reward and enemy-HP formulas |
| `RunState` (run_state.dfy) | `src/hooks/useGameState.js` | the run record, its initial value, the shallow merge of an update |
| `Economy` (economy.dfy) | `src/utils/economy.js` | price bump, global inflation, purchase, active-powerup listing |
| `Dice` (dice.dfy) | `src/utils/diceLogic.js` | roll classification (a function) and the powerup-biased roll and luck corrections (methods over arrays, as in the source) |
| `Combat` (combat.dfy) | `src/hooks/useCombat.js`, `src/components/Game.jsx` | the combat record, the enemy's roll and its reading, damage/heal/hit formulas |
| `Sessions` (session.dfy) | `useCombat.js`, `useGameState.js`, `Game.jsx` | every state cell as one value, and one step function per handler |
| `GameController` (game.dfy) | `useCombat.js`, `useGameState.js`, `Game.jsx` | class `Game`: the state cells as fields, each hook function and handler as a method specified by its step function |
| `Invariant` (invariant.dfy) | the same | the invariant every reachable state keeps, and a preservation lemma per handler |
| `GameProperties` (game_props.dfy) | `Game.jsx` | what each handler does: turn order, what an action spends, how a fight ends |
| `Actions` (actions.dfy) | `Game.jsx` screen wiring, `CombatScreen.jsx`, `PreRoundScreen.jsx` | the buttons each screen offers, and the proof that every play sequence keeps the invariant |

Randomness is injected. Each call of `rollDice` consumes a `DiceDraw`: three
raw faces and three High Roller replacement faces. Each call of
`applyLuckModifiers` consumes a `LuckDraw`. A chance test `Math.random() < p`
is an integer draw r in [0, 100) with r < 100p. The enemy's reroll loop
consumes a stream of draws and stops at the first draw that scores.

Timers (`setTimeout`) are modelled as synchronous. A handler's step includes
everything its scheduled callbacks do, in the order the timers fire. An
enemy turn passes its results ("reports") to the caller's callback in
order:

- a lone `defeat` for an enemy 4-5-6;
- a lone `victory` for an enemy 1-2-3;
- otherwise a `continue` (fires at 800 ms), followed by a `defeat` (1000 ms)
  when the hit takes the player to 0 HP.

Fractional constants are exact rationals:

- 1.4 = 7/5 and 1.5 = 3/2 (price bumps);
- 1.02 = 51/50 (inflation);
- 0.8 = 4/5 (enemy damage).

`Math.floor` of a non-negative product is Dafny's floor division.

Each handler has a step function in `Sessions` that specifies the `Game`
method beside it:

| step function | method |
|---|---|
| `StartRoundStep` | `HandleStartRound` |
| `BeginCombatStep` | `HandleBeginCombat` |
| `PlayerRollStep` | `HandlePlayerRollDice` |
| `AttackStep` | `HandleAttack` |
| `DefendStep` | `HandleDefend` |
| `RerollStep` | `HandleReroll` |
| `WildDieStep` | `HandleWildDie` |
| `VictoryStep` | `HandleVictory` |
| `DefeatStep` | `HandleDefeat` |
| `BuyPowerupStep` | `HandleBuyPowerup` |
| `RestartStep` | `HandleRestart` |
| `UseFirstStrikeStep` | `HandleUseFirstStrike` |

`EnemyTurn`, `ResetCombat`, `PlayerTurn`, `RestartState` and `UpdateState`
specify `ExecuteEnemyTurn`, `ResetCombatState`, `ExecutePlayerTurn`,
`Restart` and `UpdateGameState`. Each method's `ensures` states that its new
state is the step function of its old state. The `GameProperties` lemmas
state what the step functions do.

Behaviour of the code worth knowing:

- Round 3 pays 30 gold, 4 HP and 3 damage (2 + ⌊3/2⌋).
- `TRIPS_BONUS` is read from `GAME_CONFIG` but never defined there. In the
  source that makes the trips value NaN; the model takes it as 0.
- An enemy 1-2-3 rolled in answer to an attack or a defence grants no
  victory. That callback (Game.jsx:181-187, 217-223) treats every report
  other than `defeat` as "hand the turn back", so the run record is
  unchanged (`GameProperties.EnemyAnswersEffect`). In the opening turn of a
  round, an enemy 1-2-3 wins the round (`GameProperties.OpeningEnemyInstantLoss`).
- A defence heals without a cap at the player's maximum HP.
- A reroll and a Wild Die read the dice without Ace Saver and without luck
  corrections. A rerolled 4-5-6 or 1-2-3 is only shown: it does not end the
  fight, and it leaves no combat button enabled. ROLL stays hidden because
  the player has rolled, and ATTACK, DEFEND and REROLL are disabled for
  either result. A reroll into no score with no rerolls left does the same.
  Only an unspent Wild Die charge lets that fight go on
  (`Actions.DeadRollButtons`, `Actions.RerollDeadEnd`).
- The first fight of a run and of every new run is opened by the enemy.
  The turn order then alternates, unless First Strike is used.

## Model

| member | source | states |
|---|---|---|
| Config.CatalogIndex | src/constants/gameConfig.js:27-90 | every powerup key has a position in the catalog order, and the catalog holds that key there |
| Config.CatalogIsEnumeration | src/constants/gameConfig.js:27-90 | the catalog lists exactly ten pairwise distinct keys, and every key of the enumeration is among them |
| Config.CatalogTablesAgree | src/constants/gameConfig.js:12-90 | INITIAL_PRICES and POWERUP_INFO are keyed by the same ten keys, and every initial price is positive |
| Config.InitialPricePositive | src/constants/gameConfig.js:12-24 | every initial price is positive |
| Config.StackableAndConsumableKeys | src/constants/gameConfig.js:27-90 | exactly Point Boost, Wild Die, Extra Reroll, Lucky Clover, Devil's Ward and First Strike stack; First Strike is the only consumable |
| Config.VictoryRewards | src/constants/gameConfig.js:100-104 | from round 0 on, every reward (gold, HP, damage) is positive |
| Config.VictoryRewardsMonotone | src/constants/gameConfig.js:100-104 | each reward component is non-decreasing in the round |
| Config.VictoryRewardsRoundThree | src/constants/gameConfig.js:100-104 | round 3 pays 30 gold, 4 HP and 3 damage |
| Config.EnemyHP | src/constants/gameConfig.js:107-112 | for a non-negative round and a base HP of at least 50, the enemy has at least 15 + 5 × round HP |
| Config.EnemyHPFloor | src/constants/gameConfig.js:107-112 | the player-scaling term is the floor of (baseHP − 50)/2, for negative numerators too |
| Config.EnemyHPRoundOne | src/constants/gameConfig.js:107-112 | the round-1 enemy against the starting HP has 22 HP |
| Config.EnemyHPMonotone | src/constants/gameConfig.js:107-112 | enemy HP strictly grows with the round and never drops as the player's base HP grows |
| RunState.CreateInitialState | src/hooks/useGameState.js:4-26 | the initial record is valid: all ten keys in both tables, no negative count, no price below its initial value (the exact values are stated by `RunState.InitialState`) |
| RunState.InitialState | src/hooks/useGameState.js:4-26 | the initial record: 20 gold, 50 HP, 5 damage, round 1 of 5, one reroll, no purchases, every count 0, the initial prices; and it is valid |
| RunState.NoPowerupsTable | src/hooks/useGameState.js:11-23 | the initial powerup table holds every key with count 0 |
| RunState.ValidPricesPositive | src/constants/gameConfig.js:12-24 | in a valid record every price is positive, since prices never fall below their initial values |
| RunState.Merge | src/hooks/useGameState.js:35-37 | merging an update with no fields leaves the record as it was |
| RunState.MergeOverwritesPresentFields | src/hooks/useGameState.js:35-37 | a merge overwrites exactly the fields the update carries and keeps the rest; an empty update changes nothing |
| RunState.MergeCompose | src/hooks/useGameState.js:35-37 | two merges in a row equal one merge of the combined update, later fields winning |
| Economy.CalculateNewPrice | src/utils/economy.js:6-12 | the new price is the floor of price × 7/5 (stackable) or price × 3/2 (one-time), and never below a non-negative price |
| Economy.Inflate | src/utils/economy.js:17-26 | inflation never lowers a non-negative price, and zero purchases leave it unchanged |
| Economy.InflateIsFloor | src/utils/economy.js:17-26 | the inflated price is the floor of price × 51ⁿ / 50ⁿ |
| Economy.ApplyGlobalInflation | src/utils/economy.js:17-26 | the table keeps its keys, each price is inflated by 1.02ⁿ (floored) and none drops |
| Economy.RepricePurchase | src/utils/economy.js:48-55 | after a purchase the bought key's price is bumped and then inflated, every other key is only inflated, and no price drops |
| Economy.ProcessPowerupPurchase | src/utils/economy.js:31-63 | the result is null exactly when gold is below the key's price; a success leaves gold − price ≥ 0 and counts one more purchase |
| Economy.PurchaseRefusedIffUnaffordable | src/utils/economy.js:31-37 | a purchase is refused exactly when gold is below the key's price |
| Economy.PurchaseEffect | src/utils/economy.js:31-63 | a purchase pays exactly the price (gold stays ≥ 0), adds one to the bought key only, and counts one more purchase |
| Economy.PurchasePrices | src/utils/economy.js:39-62 | a purchase reprices the table over the same keys: the bought key's price bumped by its rate, then every price inflated by 1.02^(purchaseCount+1); no price drops |
| Economy.PurchaseKeepsValid | src/utils/economy.js:31-63 | merging a successful purchase into a valid run record keeps it valid |
| Economy.Entries | src/utils/economy.js:69 | the entries of a complete powerup table are its ten keys with their counts, in catalog order: entry i is the i-th catalog key paired with its count |
| Economy.GetActivePowerups | src/utils/economy.js:68-77 | every entry with a positive count is listed, with its count when above 1; nothing else is listed |
| Economy.GetActivePowerupsConcat | src/utils/economy.js:68-77 | the listing keeps the input order: the listing of a concatenation is the concatenation of the listings |
| Economy.NoneActive | src/utils/economy.js:68-77 | a table without a positive count lists nothing |
| Economy.NothingActiveInitially | src/utils/economy.js:68-77 | with nothing bought, nothing is listed |
| Dice.Sort3 | src/utils/diceLogic.js:7-8 | the sorted copy of three dice is ordered |
| Dice.SortIsPermutation | src/utils/diceLogic.js:7-8 | the sorted copy is a permutation of the roll |
| Dice.AnalyzeCeeloRoll | src/utils/diceLogic.js:6-42 | 4-5-6, 1-2-3 and no score are worth 0 and never spend the Ace Saver; a result that spends it is trips worth 6 + TRIPS_BONUS, with the Ace Saver active and unused |
| Dice.AnalyzePermutationInvariant | src/utils/diceLogic.js:6-42 | the classification depends only on the multiset of faces: every reordering gives the same result |
| Dice.AnalyzeInstantLoss | src/utils/diceLogic.js:11-13 | the result is 'cursed' exactly for the faces 1, 2, 3 in any order, worth 0, whatever the powerups |
| Dice.AnalyzeInstantWin | src/utils/diceLogic.js:16-18 | the result is an instant win exactly for the faces 4, 5, 6 in any order, worth 0 |
| Dice.AnalyzeTrips | src/utils/diceLogic.js:21-27 | three equal faces v are trips worth v + TRIPS_BONUS, except 1-1-1 with an unused Ace Saver, worth 6 + TRIPS_BONUS and flagged as spending it |
| Dice.AnalyzeAceSaverFlag | src/utils/diceLogic.js:21-27 | a roll spends the Ace Saver exactly when it is 1-1-1, the Ace Saver is active and not yet used |
| Dice.AnalyzePoint | src/utils/diceLogic.js:30-38 | a pair and an odd face score a point worth the odd face plus the Point Boost count |
| Dice.AnalyzeNoScore | src/utils/diceLogic.js:41 | three different faces other than 1-2-3 and 4-5-6 score nothing |
| Dice.AnalyzeValueBounds | src/utils/diceLogic.js:6-42 | every result of three faces is worth between 0 and 6 plus the Point Boost count |
| Dice.Rolled | src/utils/diceLogic.js:94-108 | a roll of `count` dice has `count` die faces |
| Dice.RollDice | src/utils/diceLogic.js:94-108 | the array-based roll returns exactly `Rolled`: raw faces, the first of three set to 6 with Loaded Dice, faces below 4 replaced with High Roller |
| Dice.RolledShape | src/utils/diceLogic.js:94-108 | a roll has `count` die faces, and without modifiers it is the raw draw |
| Dice.RolledModifiers | src/utils/diceLogic.js:94-108 | with Loaded Dice the first of three dice shows 6; with High Roller every die shows 4, 5 or 6 |
| Dice.RolledNeverInstantLoss | src/utils/diceLogic.js:94-108 | a roll made with High Roller, or with Loaded Dice on three dice, is never 1-2-3 |
| Dice.FirstLow | src/utils/diceLogic.js:77-83 | the position the Lucky Clover loop stops at: the first face below 4, or the length when there is none |
| Dice.LuckyDice | src/utils/diceLogic.js:47-89 | the corrected roll still has three dice |
| Dice.ApplyLuckModifiers | src/utils/diceLogic.js:47-89 | the array-based correction, with its early return and its breaking loop, returns exactly `LuckyDice` |
| Dice.LuckyDiceShape | src/utils/diceLogic.js:47-89 | the correction keeps three die faces and changes at most one position |
| Dice.WardBranch | src/utils/diceLogic.js:52-61 | on a 1-2-3 with a successful ward draw, exactly the drawn position is redrawn, and Lucky Clover does not apply |
| Dice.CloverBranch | src/utils/diceLogic.js:64-86 | without the ward, dice change only when Lucky Clover fires; then the first face below 4 becomes 4, 5 or 6; with no face below 4 nothing changes |
| Dice.LuckyDiceNoLevels | src/utils/diceLogic.js:47-89 | with no Lucky Clover and no Devil's Ward level the dice pass through unchanged |
| Combat.CombatSetup | src/components/Game.jsx:44-54 | a fresh enemy at its maximum HP and the player at full base HP |
| Combat.CombatSetupPositive | src/components/Game.jsx:44-54 | a valid run starts each fight with enemy HP = max HP > 0, the player at full base HP, and at least one reroll |
| Combat.EnemyRollsUnmodified | src/hooks/useCombat.js:18-19 | the enemy's dice are the raw draw, and its result never spends an Ace Saver |
| Combat.EnemyOutcome | src/hooks/useCombat.js:26-40 | the enemy's 4-5-6 reports a defeat, 1-2-3 a victory, no score a reroll, and trips or a point a continue; each exactly |
| Combat.EnemyBaseDamage | src/hooks/useCombat.js:51 | the enemy's base damage is the floor of baseDamage × 4/5 |
| Combat.AttackDamage | src/components/Game.jsx:155-167 | no damage unless the roll is trips or a point; never negative for a non-negative base damage and value |
| Combat.EnemyDamage | src/hooks/useCombat.js:50-61 | the enemy deals no damage unless it rolls trips or a point; never negative for a non-negative base damage and value |
| Combat.DefendHeal | src/components/Game.jsx:196-206 | no heal unless the roll is trips or a point; never negative for a non-negative value |
| Combat.EnemyDamageIsUndoubledAttack | src/hooks/useCombat.js:50-61 | the enemy hits like a player with four fifths of the base damage and no Double Down; Double Down doubles exactly the trips attacks |
| Combat.ActionAmountsNonNegative | src/components/Game.jsx:155-206 | damage, enemy damage and heal are never negative for a non-negative value, and trips heal more than a point of the same value |
| Combat.EnemyHit | src/hooks/useCombat.js:63-75 | the player's HP stays between 0 and its old value, and the hit defeats exactly when a positive damage takes the HP to 0 or below |
| Combat.EnemyHitClamps | src/hooks/useCombat.js:63-75 | a hit leaves max(0, HP − damage) only when the damage is positive, never raises HP, and defeats exactly when it leaves 0 |
| Sessions.FirstScoringIsFirst | src/hooks/useCombat.js:84-85 | the enemy's reroll loop stops at the first draw that scores: every earlier draw fails to score |
| Sessions.EnemyTurn | src/hooks/useCombat.js:43-93 | an enemy turn always reports at least one result and keeps a combat record |
| Invariant.InitialSessionInv | src/hooks/useGameState.js:4-29 | the game starts in a state satisfying the invariant |
| Invariant.RestartStepInv | src/components/Game.jsx:295-300 | a restart keeps the invariant |
| Invariant.StartRoundStepInv | src/components/Game.jsx:39-41 | starting a round keeps the invariant |
| Invariant.DefeatStepInv | src/components/Game.jsx:280-284 | a defeat keeps the invariant |
| Invariant.VictoryStepInv | src/components/Game.jsx:259-278 | collecting the rewards keeps the run record valid |
| Invariant.UseFirstStrikeStepInv | src/components/Game.jsx:302-314 | spending a First Strike charge leaves every count non-negative |
| Invariant.BuyPowerupStepInv | src/components/Game.jsx:286-293 | a purchase, refused or not, keeps the invariant (what it changes is stated by `GameProperties.BuyPowerupEffect`) |
| Invariant.EnemyTurnSound | src/hooks/useCombat.js:43-93 | the enemy's turn keeps the player's HP between 0 and its old value, changes no other combat field, and changes only the enemy's dice, its reading and the combat record |
| Invariant.EnemyTurnInv | src/hooks/useCombat.js:43-93 | the enemy's turn keeps the invariant |
| Invariant.EnemyAnswersInv | src/components/Game.jsx:175-188 | clearing the player's dice and letting the enemy answer keeps the invariant |
| Invariant.AnswerInv | src/components/Game.jsx:181-187 | the attack/defence callback keeps the invariant on every report sequence |
| Invariant.OpeningAnswerInv | src/components/Game.jsx:71-79 | the opening callback keeps the invariant on every report sequence |
| Invariant.BeginCombatStepInv | src/components/Game.jsx:43-85 | beginning combat sets up a sound combat record and keeps the invariant, whoever goes first |
| Invariant.PlayerDiceShape | src/components/Game.jsx:93-105 | a player roll after the luck corrections is three die faces |
| Invariant.RollOutcomeInv | src/components/Game.jsx:124-148 | each instant-outcome branch after a shown roll keeps the invariant |
| Invariant.PlayerRollStepInv | src/components/Game.jsx:87-149 | rolling keeps the invariant |
| Invariant.AttackStepInv | src/components/Game.jsx:151-190 | an attack never leaves the enemy below 0 HP and keeps the invariant |
| Invariant.DefendStepInv | src/components/Game.jsx:192-225 | a defence and the enemy's answer keep the invariant (the heal is stated by `GameProperties.DefendEffect` and `Combat.ActionAmountsNonNegative`) |
| Invariant.RerollStepInv | src/components/Game.jsx:227-246 | a reroll keeps the invariant (what it spends and shows is stated by `GameProperties.RerollEffect`) |
| Invariant.WildDieStepInv | src/components/Game.jsx:248-257 | a Wild Die click keeps the dice three faces and the invariant |
| GameController.Game.constructor | src/hooks/useCombat.js:6-15 | the hooks' cells start as the initial session: the initial run record, no combat, the menu, enemy first |
| GameController.Game.Restart | src/hooks/useGameState.js:31-33 | restart replaces the run record with a fresh one and keeps every other cell |
| GameController.Game.UpdateGameState | src/hooks/useGameState.js:35-37 | the run record becomes its merge with the update; nothing else changes |
| GameController.Game.ResetCombatState | src/hooks/useCombat.js:101-111 | clears the dice, both readings, both roll flags, the Ace Saver flag and the Wild Die count; keeps the rest |
| GameController.Game.SetCombat | src/hooks/useCombat.js:6 | stores the combat record and nothing else |
| GameController.Game.ExecutePlayerTurn | src/hooks/useCombat.js:95-99 | enables rolling and clears the has-rolled flag |
| GameController.Game.PerformEnemyRoll | src/hooks/useCombat.js:17-41 | the enemy's unmodified roll and its reading are shown and returned, and the outcome is the reading's report |
| GameController.Game.EnemyStrikes | src/hooks/useCombat.js:49-81 | the hit lands on the player's HP as `EnemyHit` computes it, and the reports are a continue followed by a defeat exactly when the hit is fatal |
| GameController.Game.ExecuteEnemyTurn | src/hooks/useCombat.js:43-93 | the reroll loop plus the hit leave exactly the state and the reports of `EnemyTurn` on the first scoring draw |
| GameController.Game.HandleStartRound | src/components/Game.jsx:39-41 | moves to the pre-round screen |
| GameController.Game.HandleVictory | src/components/Game.jsx:259-278 | pays the round's rewards, advances the round, and shows the run's end after the last round, the pre-round screen otherwise |
| GameController.Game.HandleDefeat | src/components/Game.jsx:280-284 | shows the defeat screen |
| GameController.Game.AnswerOpening | src/components/Game.jsx:71-79 | runs the opening callback on each report in turn: defeat, victory, or the player's turn |
| GameController.Game.HandleBeginCombat | src/components/Game.jsx:43-85 | the resulting state is `BeginCombatStep`'s, whose properties `GameProperties.BeginCombatEffect` states |
| GameController.Game.HandlePlayerRollDice | src/components/Game.jsx:87-149 | the resulting state is `PlayerRollStep`'s (see `GameProperties.PlayerRollEffect`) |
| GameController.Game.SettleRoll | src/components/Game.jsx:124-148 | applies the instant-outcome check of a shown roll, by its kind |
| GameController.Game.AnswerEnemy | src/components/Game.jsx:181-187 | runs the attack/defence callback on each report in turn: defeat, or the player's turn |
| GameController.Game.EnemyReplies | src/components/Game.jsx:175-188 | puts the player's dice away, runs the enemy's turn and answers its reports |
| GameController.Game.HandleAttack | src/components/Game.jsx:151-190 | the resulting state is `AttackStep`'s (see `GameProperties.AttackEffect`) |
| GameController.Game.HandleDefend | src/components/Game.jsx:192-225 | the resulting state is `DefendStep`'s (see `GameProperties.DefendEffect`) |
| GameController.Game.HandleReroll | src/components/Game.jsx:227-246 | the resulting state is `RerollStep`'s (see `GameProperties.RerollEffect`) |
| GameController.Game.HandleWildDie | src/components/Game.jsx:248-257 | the resulting state is `WildDieStep`'s (see `GameProperties.WildDieEffect`) |
| GameController.Game.HandleBuyPowerup | src/components/Game.jsx:286-293 | the resulting state is `BuyPowerupStep`'s (see `GameProperties.BuyPowerupEffect`) |
| GameController.Game.HandleRestart | src/components/Game.jsx:295-300 | a fresh run record, the menu, and the enemy first again |
| GameController.Game.HandleUseFirstStrike | src/components/Game.jsx:302-314 | with a charge left, spends it and lets the player go first; otherwise nothing |
| GameProperties.AnswerEffect | src/components/Game.jsx:181-187 | the callback only moves to the defeat screen (exactly on a defeat report) or hands the turn back; it never touches the run or combat records |
| GameProperties.OpeningAnswerKeepsFight | src/components/Game.jsx:71-79 | the opening callback never changes the combat record, the enemy's dice or the turn-order flag |
| GameProperties.EnemyTurnReports | src/hooks/useCombat.js:43-93 | the reports are a lone defeat exactly for an enemy 4-5-6 and a lone victory exactly for 1-2-3; they contain a defeat exactly for 4-5-6 or a fatal hit; they are never empty |
| GameProperties.EnemyAnswersEffect | src/components/Game.jsx:175-188 | after an attack or a defence the enemy's answer never changes the run record (an enemy 1-2-3 grants nothing) and changes only the player's HP; the player loses exactly on an enemy 4-5-6 or a fatal hit, otherwise gets the turn back with the dice put away |
| GameProperties.BeginCombatEffect | src/components/Game.jsx:43-85 | the turn order flips; the enemy gets getEnemyHP's HP and the player full HP and rerolls plus Extra Reroll; going first, the player may roll and the enemy has not rolled; otherwise the enemy has rolled its first scoring draw, whose effect the three `OpeningEnemy` lemmas state |
| GameProperties.OpeningEnemyInstantLoss | src/components/Game.jsx:74-75 | an enemy 1-2-3 in the opening turn wins the round: rewards paid, round advanced, victory screen exactly after the last round |
| GameProperties.OpeningEnemyScores | src/components/Game.jsx:70-79 | an enemy trips or point in the opening turn hits the fresh HP as `EnemyHit` computes it and hands the turn to the player; defeat screen exactly on a fatal hit, combat screen otherwise; the run record is kept |
| GameProperties.OpeningEnemyInstantWin | src/components/Game.jsx:72-73 | an enemy 4-5-6 in the opening turn ends the run before the player can roll |
| GameProperties.RestartThenEnemyFirst | src/components/Game.jsx:295-300 | the first fight of a fresh game, and the next fight after a restart, open with the enemy's roll; a restart brings back the initial run record and the menu |
| GameProperties.UseFirstStrikeEffect | src/components/Game.jsx:302-314 | First Strike spends exactly one charge, changes no other count and sets the player first; without a charge nothing changes |
| GameProperties.FirstStrikeThenPlayerFirst | src/components/Game.jsx:61-67 | after First Strike the next fight opens with the player able to roll and no enemy roll |
| GameProperties.PlayerRollEffect | src/components/Game.jsx:87-149 | a roll is ignored unless rolling is enabled; otherwise dice and reading are shown, the combat record is kept, rolling stays enabled exactly on no score, the run is lost exactly on 1-2-3, and the round is won exactly on 4-5-6 |
| GameProperties.RollOutcomeEffect | src/components/Game.jsx:124-148 | each kind of a shown roll leads to exactly its outcome: a free roll on no score, a defeat on 1-2-3, the next round on 4-5-6, the fight going on otherwise |
| GameProperties.AceSaverAtMostOnce | src/components/Game.jsx:107-117 | the Ace Saver is spent exactly on 1-1-1 with one owned and unused, at most once per fight, and stays spent |
| GameProperties.AttackEffect | src/components/Game.jsx:151-190 | the enemy's HP becomes max(0, HP − damage); the round is won exactly when HP − damage ≤ 0; otherwise the run record is unchanged |
| GameProperties.DefendEffect | src/components/Game.jsx:192-225 | the heal is applied uncapped before the enemy's hit, the enemy's HP is untouched and the run record is unchanged |
| GameProperties.RerollEffect | src/components/Game.jsx:227-246 | with rerolls left, exactly one is spent and the dice become a fresh roll with Loaded Dice and High Roller but no luck; the new reading is that roll analysed with the Point Boost count and without Ace Saver (a rerolled 1-1-1 is trips worth 1); dice, reading and reroll count are the only changes; with no rerolls left nothing changes |
| GameProperties.WildDieEffect | src/components/Game.jsx:248-257 | exactly the clicked die changes, to a different face; the other dice stay; one charge is used and never more than owned; the new reading is the new dice analysed with the Point Boost count and without Ace Saver; dice, reading and charges used are the only changes |
| GameProperties.VictoryEffect | src/components/Game.jsx:259-278 | the run record gains exactly the round's positive rewards and advances a round; the victory screen shows exactly after the last round, the pre-round screen otherwise |
| GameProperties.BuyPowerupEffect | src/components/Game.jsx:286-293 | nothing changes exactly when the price is above the gold; a purchase changes only the run record, adding one to the bought count and paying the price |
| Actions.Enabled | src/components/Game.jsx:319-388 | which buttons each screen shows and enables |
| Actions.ScreenButtons | src/components/Game.jsx:319-388 | the menu offers start round and shop; the shop offers affordable purchases and continue; a finished run, won or lost, offers only a new run; pre-round and combat offer only their own buttons |
| Actions.DeadRollButtons | src/components/screens/CombatScreen.jsx:145-180 | after a 4-5-6 or a 1-2-3, or a no-score with no rerolls left, the only enabled combat action is a Wild Die click; with no charge left nothing is enabled |
| Actions.RerollDeadEnd | src/components/Game.jsx:227-246 | a reroll that lands on 4-5-6 or 1-2-3 leaves only Wild Die clicks enabled |
| Actions.ApplyInv | src/components/Game.jsx:319-388 | every button a screen offers, when enabled, keeps the invariant |
| Actions.Play | src/components/Game.jsx:319-388 | any sequence of presses from a state satisfying the invariant ends in one that satisfies it |
| Actions.PlayKeepsInv | src/components/Game.jsx:319-388 | every state a game reaches from the start satisfies the invariant: a valid run record, a combat record on the combat screen, no negative HP or reroll count, three faces shown with a non-negative reading |

## Left out

- Sound, the combat log, the rules modal, rendering, display strings, icons
  and labels: they have no effect on the game state.
- Timers are modelled as synchronous steps, in firing order. Interleavings
  of a button press with a pending timer are not modelled.
- Defeat is treated as terminal. After a fatal enemy hit the `continue`
  callback still fires and enables rolling; the defeat screen follows 200 ms
  later. The model keeps both effects in that order and models nothing
  after the defeat.
- `Math.random` is replaced by injected draws (`DiceDraw`, `LuckDraw`, and a
  stream of draws for the enemy).
- Floating-point arithmetic is replaced by exact rationals. The floor of a
  double product can differ from the exact floor by one for some prices:
  a stackable price of 45 bumps to 62 in the source (45 × 1.4 is
  62.99999999999999 as a double) and to 63 in the model. Below 200 the
  stackable prices 85, 90, 165, 170, 175 and 180 differ the same way.
- `TRIPS_BONUS` is undefined in the source (NaN in JavaScript); the model
  uses 0.
- `autoRerolls` and `pendingWildDie` are cells that are written but never
  read; they are not modelled.
- calculateNewPrice's unused `powerupKey` parameter is dropped.
- An enemy turn whose draw stream never scores is excluded by the
  `EnemyWillScore` precondition. The source's reroll loop would then never
  stop.
- `Object.entries` order: `Economy.Entries` lists the powerup table in
  catalog order, the order in which its keys are created.
- The class methods do not require their buttons to be enabled. The enable
  conditions are `Sessions.CanRoll`, `CanAttackOrDefend`, `CanReroll`,
  `CanUseWildDie` and `Actions.Enabled`; the invariant lemmas assume them.
- The navigation callbacks (`setScreen('shop')` and the like) are modelled
  only as `Actions.Navigate`. The Defeat screen's "main menu" button does
  what "new run" does.
- `GameController.Game.HandleAttack` and `HandleDefend` compute the damage
  and the heal with `Combat.AttackDamage` and `Combat.DefendHeal`, which
  are the source's if-chains as functions.
