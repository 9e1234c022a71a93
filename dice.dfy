/**
 * The dice engine (src/utils/diceLogic.js): classification of a three-dice
 * Cee-lo roll, the powerup-biased roll and the luck corrections.
 *
 * Every `Math.random()` of the source is an injected draw: a `DiceDraw` for
 * one call of `rollDice`, a `LuckDraw` for one call of `applyLuckModifiers`.
 * A chance draw is an integer r in [0, 100); `Math.random() < level * 0.2`
 * holds exactly when r < 20 * level, and likewise 15 * level for 0.15.
 */
module Dice {
  import opened Config

  /** The record analyzeCeeloRoll returns, without its display text. */
  datatype RollResult = RollResult(kind: RollType, value: int, usedAceSaver: bool)

  predicate IsFace(v: int) { 1 <= v <= 6 }

  predicate AreFaces(d: seq<int>) { forall i :: 0 <= i < |d| ==> IsFace(d[i]) }

  predicate SortedTriple(s: seq<int>) { |s| == 3 && s[0] <= s[1] <= s[2] }

  /** The multiset of a three-dice roll, written out. */
  lemma TripleMultiset(d: seq<int>)
    requires |d| == 3
    ensures multiset(d) == multiset{d[0], d[1], d[2]}
  {
    assert d == [d[0]] + [d[1]] + [d[2]];
  }

  lemma InTriple(x: int, a: int, b: int, c: int)
    requires x in multiset{a, b, c}
    ensures x == a || x == b || x == c
  {
  }

  /** `[...dice].sort((a, b) => a - b)` on three faces: an ordered permutation of the input. */
  function Sort3(d: seq<int>): (s: seq<int>)
    requires |d| == 3
    ensures SortedTriple(s)
  {
    var a, b, c := d[0], d[1], d[2];
    if a <= b then
      if b <= c then [a, b, c]
      else if a <= c then [a, c, b]
      else [c, a, b]
    else
      if a <= c then [b, a, c]
      else if b <= c then [b, c, a]
      else [c, b, a]
  }

  /** Two ordered triples with the same elements are equal. */
  lemma SortedUnique(s: seq<int>, t: seq<int>)
    requires SortedTriple(s) && SortedTriple(t)
    requires multiset(s) == multiset(t)
    ensures s == t
  {
    TripleMultiset(s);
    TripleMultiset(t);
    OrderedTriplesUnique(s[0], s[1], s[2], t[0], t[1], t[2]);
    assert s == [s[0], s[1], s[2]] && t == [t[0], t[1], t[2]];
  }

  lemma OrderedTriplesUnique(a0: int, a1: int, a2: int, b0: int, b1: int, b2: int)
    requires a0 <= a1 <= a2 && b0 <= b1 <= b2
    requires multiset{a0, a1, a2} == multiset{b0, b1, b2}
    ensures a0 == b0 && a1 == b1 && a2 == b2
  {
    assert a0 in multiset{b0, b1, b2};
    InTriple(a0, b0, b1, b2);
    assert b0 in multiset{a0, a1, a2};
    InTriple(b0, a0, a1, a2);
    assert a2 in multiset{b0, b1, b2};
    InTriple(a2, b0, b1, b2);
    assert b2 in multiset{a0, a1, a2};
    InTriple(b2, a0, a1, a2);
    assert multiset{a0, a1, a2} - multiset{a0, a2} == multiset{a1};
    assert multiset{b0, b1, b2} - multiset{b0, b2} == multiset{b1};
    assert a1 in multiset{b1};
  }

  /** Swapping the first two of three elements keeps the multiset. */
  lemma SwapFront(x: int, y: int, z: int)
    ensures multiset{x, y, z} == multiset{y, x, z}
  {
  }

  /** Swapping the last two of three elements keeps the multiset. */
  lemma SwapBack(x: int, y: int, z: int)
    ensures multiset{x, y, z} == multiset{x, z, y}
  {
  }

  /** The sorted copy is a permutation of the roll. */
  lemma SortIsPermutation(d: seq<int>)
    requires |d| == 3
    ensures multiset(Sort3(d)) == multiset(d)
  {
    var a, b, c := d[0], d[1], d[2];
    var s := Sort3(d);
    TripleMultiset(d);
    TripleMultiset(s);
    if a <= b {
      if b <= c {
        assert s == [a, b, c];
      } else if a <= c {
        assert s == [a, c, b];
        SwapBack(a, b, c);
      } else {
        assert s == [c, a, b];
        SwapBack(a, b, c);
        SwapFront(a, c, b);
      }
    } else {
      if a <= c {
        assert s == [b, a, c];
        SwapFront(a, b, c);
      } else if b <= c {
        assert s == [b, c, a];
        SwapFront(a, b, c);
        SwapBack(b, a, c);
      } else {
        assert s == [c, b, a];
        SwapFront(a, b, c);
        SwapBack(b, a, c);
        SwapFront(b, c, a);
      }
    }
  }

  /** Each face of the sorted copy is a face of the roll. */
  lemma SortElements(d: seq<int>)
    requires |d| == 3
    ensures forall i :: 0 <= i < 3 ==> Sort3(d)[i] == d[0] || Sort3(d)[i] == d[1] || Sort3(d)[i] == d[2]
  {
  }

  /** The sorted copy of a permutation is the sorted copy of the original. */
  lemma SortPermutation(d: seq<int>, e: seq<int>)
    requires |d| == 3 && multiset(d) == multiset(e)
    ensures |e| == 3 && Sort3(d) == Sort3(e)
  {
    assert |e| == |multiset(e)| == |multiset(d)| == 3;
    SortIsPermutation(d);
    SortIsPermutation(e);
    SortedUnique(Sort3(d), Sort3(e));
  }

  /** analyzeCeeloRoll: classify a sorted copy of three faces (first match wins). */
  function AnalyzeCeeloRoll(dice: seq<int>, pointBoostCount: int, aceSaverActive: bool, usedAceSaver: bool): (r: RollResult)
    requires |dice| == 3
    ensures r.kind == InstantWin || r.kind == InstantLoss || r.kind == NoScore ==> r.value == 0 && !r.usedAceSaver
    ensures r.usedAceSaver ==> r.kind == Trips && r.value == 6 + TRIPS_BONUS && aceSaverActive && !usedAceSaver
  {
    var s := Sort3(dice);
    var d1, d2, d3 := s[0], s[1], s[2];
    if d1 == 1 && d2 == 2 && d3 == 3 then RollResult(InstantLoss, 0, false)
    else if d1 == 4 && d2 == 5 && d3 == 6 then RollResult(InstantWin, 0, false)
    else if d1 == d2 && d2 == d3 then
      if d1 == 1 && aceSaverActive && !usedAceSaver then RollResult(Trips, 6 + TRIPS_BONUS, true)
      else RollResult(Trips, d1 + TRIPS_BONUS, false)
    else if d1 == d2 then RollResult(Point, d3 + pointBoostCount, false)
    else if d2 == d3 then RollResult(Point, d1 + pointBoostCount, false)
    else if d1 == d3 then RollResult(Point, d2 + pointBoostCount, false)
    else RollResult(NoScore, 0, false)
  }

  /** The classification sees only the multiset of faces: every reordering gives the same result. */
  lemma AnalyzePermutationInvariant(d: seq<int>, e: seq<int>, pointBoostCount: int, aceSaverActive: bool, usedAceSaver: bool)
    requires |d| == 3 && multiset(d) == multiset(e)
    ensures |e| == 3
    ensures AnalyzeCeeloRoll(d, pointBoostCount, aceSaverActive, usedAceSaver)
         == AnalyzeCeeloRoll(e, pointBoostCount, aceSaverActive, usedAceSaver)
  {
    SortPermutation(d, e);
  }

  /** The sorted copy is a given ordered triple exactly when the faces are a permutation of it. */
  lemma SortIs(d: seq<int>, a: int, b: int, c: int)
    requires |d| == 3 && a <= b <= c
    ensures Sort3(d) == [a, b, c] <==> multiset(d) == multiset{a, b, c}
  {
    TripleMultiset(d);
    TripleMultiset([a, b, c]);
    SortIsPermutation(d);
    if multiset(d) == multiset{a, b, c} {
      SortedUnique(Sort3(d), [a, b, c]);
    }
  }

  /** Instant loss exactly for the faces 1, 2, 3 in any order, with value 0, whatever the powerups. */
  lemma AnalyzeInstantLoss(d: seq<int>, pointBoostCount: int, aceSaverActive: bool, usedAceSaver: bool)
    requires |d| == 3
    ensures var r := AnalyzeCeeloRoll(d, pointBoostCount, aceSaverActive, usedAceSaver);
      (r.kind == InstantLoss <==> multiset(d) == multiset{1, 2, 3})
      && (r.kind == InstantLoss ==> r == RollResult(InstantLoss, 0, false))
  {
    SortIs(d, 1, 2, 3);
  }

  /** Instant win exactly for the faces 4, 5, 6 in any order, with value 0, whatever the powerups. */
  lemma AnalyzeInstantWin(d: seq<int>, pointBoostCount: int, aceSaverActive: bool, usedAceSaver: bool)
    requires |d| == 3
    ensures var r := AnalyzeCeeloRoll(d, pointBoostCount, aceSaverActive, usedAceSaver);
      (r.kind == InstantWin <==> multiset(d) == multiset{4, 5, 6})
      && (r.kind == InstantWin ==> r == RollResult(InstantWin, 0, false))
  {
    SortIs(d, 4, 5, 6);
  }

  /**
   * Three equal faces v are trips worth v + TRIPS_BONUS, except that 1-1-1
   * with an unused Ace Saver is worth 6 + TRIPS_BONUS and spends the Ace Saver.
   */
  lemma AnalyzeTrips(d: seq<int>, pointBoostCount: int, aceSaverActive: bool, usedAceSaver: bool)
    requires |d| == 3 && d[0] == d[1] == d[2]
    ensures var r := AnalyzeCeeloRoll(d, pointBoostCount, aceSaverActive, usedAceSaver);
      if d[0] == 1 && aceSaverActive && !usedAceSaver
      then r == RollResult(Trips, 6 + TRIPS_BONUS, true)
      else r == RollResult(Trips, d[0] + TRIPS_BONUS, false)
  {
    assert Sort3(d) == d;
  }

  /** The 1-1-1 Ace Saver branch is the only result that spends the Ace Saver. */
  lemma AnalyzeAceSaverFlag(d: seq<int>, pointBoostCount: int, aceSaverActive: bool, usedAceSaver: bool)
    requires |d| == 3
    ensures AnalyzeCeeloRoll(d, pointBoostCount, aceSaverActive, usedAceSaver).usedAceSaver
        <==> d == [1, 1, 1] && aceSaverActive && !usedAceSaver
  {
    SortIs(d, 1, 1, 1);
    TripleMultiset(d);
    if multiset(d) == multiset{1, 1, 1} {
      InTriple(d[0], 1, 1, 1);
      InTriple(d[1], 1, 1, 1);
      InTriple(d[2], 1, 1, 1);
      assert d == [1, 1, 1];
    }
  }

  /** Exactly one pair scores a point: the odd face plus the Point Boost count. */
  lemma AnalyzePoint(d: seq<int>, pointBoostCount: int, aceSaverActive: bool, usedAceSaver: bool)
    requires |d| == 3
    ensures var r := AnalyzeCeeloRoll(d, pointBoostCount, aceSaverActive, usedAceSaver);
      && (d[0] == d[1] != d[2] ==> r == RollResult(Point, d[2] + pointBoostCount, false))
      && (d[1] == d[2] != d[0] ==> r == RollResult(Point, d[0] + pointBoostCount, false))
      && (d[0] == d[2] != d[1] ==> r == RollResult(Point, d[1] + pointBoostCount, false))
  {
  }

  /** Three different faces that are neither 1-2-3 nor 4-5-6 score nothing. */
  lemma AnalyzeNoScore(d: seq<int>, pointBoostCount: int, aceSaverActive: bool, usedAceSaver: bool)
    requires |d| == 3 && d[0] != d[1] && d[1] != d[2] && d[0] != d[2]
    requires multiset(d) != multiset{1, 2, 3} && multiset(d) != multiset{4, 5, 6}
    ensures AnalyzeCeeloRoll(d, pointBoostCount, aceSaverActive, usedAceSaver) == RollResult(NoScore, 0, false)
  {
    SortIs(d, 1, 2, 3);
    SortIs(d, 4, 5, 6);
  }

  /** Every classified roll of three faces is worth between 0 and 6 plus the Point Boost count. */
  lemma AnalyzeValueBounds(d: seq<int>, pointBoostCount: int, aceSaverActive: bool, usedAceSaver: bool)
    requires |d| == 3 && AreFaces(d) && pointBoostCount >= 0
    ensures var r := AnalyzeCeeloRoll(d, pointBoostCount, aceSaverActive, usedAceSaver);
      0 <= r.value <= 6 + pointBoostCount
  {
    SortElements(d);
  }

  // ---------------------------------------------------------------------------
  // rollDice

  /** The draws one call of rollDice consumes: the raw faces and the High Roller replacements. */
  datatype DiceDraw = DiceDraw(faces: seq<int>, lifts: seq<int>)

  predicate DrawFits(draw: DiceDraw, count: nat) {
    && |draw.faces| == count && |draw.lifts| == count
    && (forall i :: 0 <= i < count ==> IsFace(draw.faces[i]))
    && (forall i :: 0 <= i < count ==> 4 <= draw.lifts[i] <= 6)
  }

  /** Face i of a roll: Loaded Dice fixes the first of three dice to 6, then High Roller lifts faces below 4. */
  function RolledFace(count: nat, loadedDice: bool, highRoller: bool, draw: DiceDraw, i: nat): int
    requires DrawFits(draw, count) && i < count
  {
    var d := if loadedDice && count == 3 && i == 0 then 6 else draw.faces[i];
    if highRoller && d < 4 then draw.lifts[i] else d
  }

  function Rolled(count: nat, loadedDice: bool, highRoller: bool, draw: DiceDraw): (r: seq<int>)
    requires DrawFits(draw, count)
    ensures |r| == count && AreFaces(r)
  {
    seq(count, i requires 0 <= i < count => RolledFace(count, loadedDice, highRoller, draw, i))
  }

  /** rollDice: draw, overwrite the first die in place, then map the High Roller correction. */
  method RollDice(count: nat, hasLoadedDice: bool, hasHighRoller: bool, draw: DiceDraw) returns (rolls: seq<int>)
    requires DrawFits(draw, count)
    ensures rolls == Rolled(count, hasLoadedDice, hasHighRoller, draw)
  {
    var a := new int[count];
    for i := 0 to count
      invariant forall j :: 0 <= j < i ==> a[j] == draw.faces[j]
    {
      a[i] := draw.faces[i];
    }
    if hasLoadedDice && a.Length == 3 {
      a[0] := 6;
    }
    if hasHighRoller {
      for i := 0 to count
        invariant forall j :: 0 <= j < i ==> a[j] == RolledFace(count, hasLoadedDice, true, draw, j)
        invariant forall j :: i <= j < count ==> a[j] == (if hasLoadedDice && count == 3 && j == 0 then 6 else draw.faces[j])
      {
        if a[i] < 4 {
          a[i] := draw.lifts[i];
        }
      }
    }
    rolls := a[..];
  }

  /** A roll has `count` faces, each a die face; without modifiers it is exactly the raw draw. */
  lemma RolledShape(count: nat, loadedDice: bool, highRoller: bool, draw: DiceDraw)
    requires DrawFits(draw, count)
    ensures var r := Rolled(count, loadedDice, highRoller, draw);
      && |r| == count && AreFaces(r)
      && (!loadedDice && !highRoller ==> r == draw.faces)
  {
  }

  /** Loaded Dice at three dice shows a 6 first; High Roller shows only 4, 5 or 6. */
  lemma RolledModifiers(count: nat, loadedDice: bool, highRoller: bool, draw: DiceDraw)
    requires DrawFits(draw, count)
    ensures var r := Rolled(count, loadedDice, highRoller, draw);
      && (loadedDice && count == 3 ==> r[0] == 6)
      && (highRoller ==> forall i :: 0 <= i < count ==> 4 <= r[i] <= 6)
  {
  }

  /** A roll made with High Roller, or with Loaded Dice on three dice, is never an instant loss. */
  lemma RolledNeverInstantLoss(loadedDice: bool, highRoller: bool, draw: DiceDraw,
                               pointBoostCount: int, aceSaverActive: bool, usedAceSaver: bool)
    requires DrawFits(draw, 3) && (loadedDice || highRoller)
    ensures AnalyzeCeeloRoll(Rolled(3, loadedDice, highRoller, draw), pointBoostCount, aceSaverActive, usedAceSaver).kind != InstantLoss
  {
    var r := Rolled(3, loadedDice, highRoller, draw);
    AnalyzeInstantLoss(r, pointBoostCount, aceSaverActive, usedAceSaver);
    assert r[0] >= 4;
    assert r[0] in multiset(r) && r[0] !in multiset{1, 2, 3};
  }

  // ---------------------------------------------------------------------------
  // applyLuckModifiers

  /** The draws one call of applyLuckModifiers may consume. */
  datatype LuckDraw = LuckDraw(wardChance: int, wardIndex: int, wardFace: int, cloverChance: int, cloverFace: int)

  predicate LuckFits(luck: LuckDraw) {
    && 0 <= luck.wardChance < 100 && 0 <= luck.wardIndex < 3 && IsFace(luck.wardFace)
    && 0 <= luck.cloverChance < 100 && 4 <= luck.cloverFace <= 6
  }

  /** The sorted copy of the roll is 1-2-3. */
  predicate IsOneTwoThree(dice: seq<int>)
    requires |dice| == 3
  {
    var s := Sort3(dice);
    s[0] == 1 && s[1] == 2 && s[2] == 3
  }

  /** Devil's Ward fires: a 1-2-3 roll and a chance draw below 20 per level. */
  predicate WardFires(dice: seq<int>, devilsWardCount: int, luck: LuckDraw)
    requires |dice| == 3
  {
    IsOneTwoThree(dice) && luck.wardChance < 20 * devilsWardCount
  }

  /** Lucky Clover fires: a level, a roll missing one of 4, 5 and 6, and a chance draw below 15 per level. */
  predicate CloverFires(dice: seq<int>, luckyCloverCount: int, luck: LuckDraw) {
    && luckyCloverCount > 0
    && !(4 in dice && 5 in dice && 6 in dice)
    && luck.cloverChance < 15 * luckyCloverCount
  }

  /** The first position whose face is below 4, or |d| when there is none. */
  function FirstLow(d: seq<int>): (i: nat)
    ensures i <= |d|
    ensures forall j :: 0 <= j < i ==> d[j] >= 4
    ensures i < |d| ==> d[i] < 4
  {
    if d == [] then 0
    else if d[0] < 4 then 0
    else 1 + FirstLow(d[1..])
  }

  /** What applyLuckModifiers returns. */
  function LuckyDice(dice: seq<int>, luckyCloverCount: int, devilsWardCount: int, luck: LuckDraw): (m: seq<int>)
    requires |dice| == 3 && LuckFits(luck)
    ensures |m| == 3
  {
    if WardFires(dice, devilsWardCount, luck) then dice[luck.wardIndex := luck.wardFace]
    else if CloverFires(dice, luckyCloverCount, luck) && FirstLow(dice) < 3 then dice[FirstLow(dice) := luck.cloverFace]
    else dice
  }

  /** applyLuckModifiers: corrections on a copy of the dice; Devil's Ward returns early. */
  method ApplyLuckModifiers(dice: seq<int>, luckyCloverCount: int, devilsWardCount: int, luck: LuckDraw)
    returns (modifiedDice: seq<int>)
    requires |dice| == 3 && LuckFits(luck)
    ensures modifiedDice == LuckyDice(dice, luckyCloverCount, devilsWardCount, luck)
  {
    var m := new int[3];
    m[0], m[1], m[2] := dice[0], dice[1], dice[2];
    assert m[..] == dice;
    var sorted := Sort3(dice);
    if sorted[0] == 1 && sorted[1] == 2 && sorted[2] == 3 {
      if luck.wardChance < 20 * devilsWardCount {
        m[luck.wardIndex] := luck.wardFace;
        modifiedDice := m[..];
        return;
      }
    }
    if luckyCloverCount > 0 {
      var has4, has5, has6 := 4 in dice, 5 in dice, 6 in dice;
      if !has4 || !has5 || !has6 {
        if luck.cloverChance < 15 * luckyCloverCount {
          var i := 0;
          while i < m.Length
            invariant 0 <= i <= 3
            invariant m[..] == dice
            invariant forall j :: 0 <= j < i ==> dice[j] >= 4
          {
            if m[i] < 4 {
              m[i] := luck.cloverFace;
              break;
            }
            i := i + 1;
          }
        }
      }
    }
    modifiedDice := m[..];
  }

  /** The correction keeps three die faces and changes at most one position. */
  lemma LuckyDiceShape(dice: seq<int>, luckyCloverCount: int, devilsWardCount: int, luck: LuckDraw)
    requires |dice| == 3 && AreFaces(dice) && LuckFits(luck)
    ensures var r := LuckyDice(dice, luckyCloverCount, devilsWardCount, luck);
      && |r| == 3 && AreFaces(r)
      && forall i, j :: 0 <= i < j < 3 ==> r[i] == dice[i] || r[j] == dice[j]
  {
  }

  /** When Devil's Ward fires, exactly the drawn position is redrawn and Lucky Clover is not applied. */
  lemma WardBranch(dice: seq<int>, luckyCloverCount: int, devilsWardCount: int, luck: LuckDraw)
    requires |dice| == 3 && LuckFits(luck)
    requires multiset(dice) == multiset{1, 2, 3} && luck.wardChance < 20 * devilsWardCount
    ensures LuckyDice(dice, luckyCloverCount, devilsWardCount, luck) == dice[luck.wardIndex := luck.wardFace]
  {
    SortIs(dice, 1, 2, 3);
  }

  /**
   * Without Devil's Ward, the dice change only when Lucky Clover fires; then the
   * first face below 4 becomes a face in 4..6; with no face below 4 nothing changes.
   */
  lemma CloverBranch(dice: seq<int>, luckyCloverCount: int, devilsWardCount: int, luck: LuckDraw)
    requires |dice| == 3 && LuckFits(luck)
    requires !WardFires(dice, devilsWardCount, luck)
    ensures var r := LuckyDice(dice, luckyCloverCount, devilsWardCount, luck);
      && (r != dice ==> luckyCloverCount > 0 && !(4 in dice && 5 in dice && 6 in dice)
                        && luck.cloverChance < 15 * luckyCloverCount)
      && (CloverFires(dice, luckyCloverCount, luck) && (exists j :: 0 <= j < 3 && dice[j] < 4) ==>
            exists i :: 0 <= i < 3 && dice[i] < 4 && (forall j :: 0 <= j < i ==> dice[j] >= 4)
                        && r == dice[i := luck.cloverFace] && 4 <= r[i] <= 6)
      && ((forall j :: 0 <= j < 3 ==> dice[j] >= 4) ==> r == dice)
  {
    var r := LuckyDice(dice, luckyCloverCount, devilsWardCount, luck);
    if CloverFires(dice, luckyCloverCount, luck) && (exists j :: 0 <= j < 3 && dice[j] < 4) {
      var i := FirstLow(dice);
      assert i < 3;
    }
  }

  /** With no Lucky Clover and no Devil's Ward levels the dice pass through unchanged. */
  lemma LuckyDiceNoLevels(dice: seq<int>, luck: LuckDraw)
    requires |dice| == 3 && LuckFits(luck)
    ensures LuckyDice(dice, 0, 0, luck) == dice
  {
  }
}
