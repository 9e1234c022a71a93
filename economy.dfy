/**
 * The powerup economy (src/utils/economy.js): per-key price bumps, global
 * compounding inflation, the purchase, and the active-powerup listing.
 *
 * PRICE_SCALING is exact here: STACKABLE_INCREASE 1.4 = 7/5,
 * ONE_TIME_INCREASE 1.5 = 3/2 and GLOBAL_INFLATION 1.02 = 51/50, so
 * `Math.floor(p * 1.02 ** n)` is `p * 51^n / 50^n` with floor division.
 */
module Economy {
  import opened Wrappers
  import opened Config
  import opened RunState

  function Pow(b: nat, n: nat): nat
  {
    if n == 0 then 1 else b * Pow(b, n - 1)
  }

  /** 50^n is positive and never exceeds 51^n. */
  lemma {:induction false} PowInflationBounds(n: nat)
    ensures 0 < Pow(50, n) <= Pow(51, n)
  {
    if n > 0 {
      PowInflationBounds(n - 1);
      MulLe(50, 51, Pow(50, n - 1), Pow(51, n - 1));
    }
  }

  lemma MulLe(a: nat, b: nat, c: nat, d: nat)
    requires a <= b && c <= d
    ensures a * c <= b * d
  {
    assert a * c <= b * c by { assert b * c - a * c == (b - a) * c; }
    assert b * c <= b * d by { assert b * d - b * c == b * (d - c); }
  }

  /** Floor division characterised: q = a / d is the integer with d*q <= a < d*(q+1). */
  lemma FloorDiv(a: int, d: int)
    requires d > 0
    ensures d * (a / d) <= a < d * (a / d) + d
  {
  }

  /** If d * q <= a then q <= a / d. */
  lemma FloorDivAtLeast(a: int, d: int, q: int)
    requires d > 0 && d * q <= a
    ensures q <= a / d
  {
    assert (d * q) / d == q;
    DivMonotone(d * q, a, d);
  }

  /** calculateNewPrice: `Math.floor(currentPrice * (isStackable ? 1.4 : 1.5))` (the key argument is unused). */
  function CalculateNewPrice(currentPrice: int, isStackable: bool): (p: int)
    ensures isStackable ==> 5 * p <= 7 * currentPrice < 5 * p + 5
    ensures !isStackable ==> 2 * p <= 3 * currentPrice < 2 * p + 2
    ensures currentPrice >= 0 ==> p >= currentPrice
  {
    if isStackable then currentPrice * 7 / 5 else currentPrice * 3 / 2
  }

  /** One price under global inflation after `purchaseCount` purchases: floor(price * 1.02^purchaseCount). */
  function Inflate(price: int, purchaseCount: nat): (p: int)
    ensures price >= 0 ==> p >= price
    ensures purchaseCount == 0 ==> p == price
  {
    InflationFloor(price, purchaseCount);
    price * Pow(51, purchaseCount) / Pow(50, purchaseCount)
  }

  /** Inflate is the floor of price * 51^n / 50^n: the largest p with 50^n * p <= price * 51^n. */
  lemma InflateIsFloor(price: int, n: nat)
    ensures var p := Inflate(price, n);
      Pow(50, n) * p <= price * Pow(51, n) < Pow(50, n) * (p + 1)
  {
    InflationFloor(price, n);
  }

  lemma InflationFloor(price: int, n: nat)
    ensures Pow(50, n) > 0
    ensures var p := price * Pow(51, n) / Pow(50, n);
      && Pow(50, n) * p <= price * Pow(51, n) < Pow(50, n) * (p + 1)
      && (price >= 0 ==> p >= price)
      && (n == 0 ==> p == price)
  {
    PowInflationBounds(n);
    var num, den := price * Pow(51, n), Pow(50, n);
    FloorDiv(num, den);
    if price >= 0 {
      MulLe(price, price, den, Pow(51, n));
      assert den * price <= num;
      FloorDivAtLeast(num, den, price);
    }
  }

  /** applyGlobalInflation: the same keys, every price inflated. */
  function ApplyGlobalInflation(prices: map<PowerupKey, int>, purchaseCount: nat): (r: map<PowerupKey, int>)
    ensures r.Keys == prices.Keys
    ensures forall k :: k in r ==> r[k] == Inflate(prices[k], purchaseCount)
    ensures forall k :: k in r && prices[k] >= 0 ==> r[k] >= prices[k]
    ensures purchaseCount == 0 ==> r == prices
  {
    map k | k in prices :: Inflate(prices[k], purchaseCount)
  }

  /** The record processPowerupPurchase returns on success. */
  datatype Purchase = Purchase(gold: int, powerups: map<PowerupKey, int>, prices: map<PowerupKey, int>, purchaseCount: int)

  /** processPowerupPurchase: `null` (None) when the price is not affordable. */
  function ProcessPowerupPurchase(powerupKey: PowerupKey, gameState: RunState): (r: Option<Purchase>)
    requires powerupKey in gameState.prices && powerupKey in gameState.powerups
    requires gameState.purchaseCount >= 0
    ensures r.None? <==> gameState.gold < gameState.prices[powerupKey]
    ensures r.Some? ==> r.value.gold == gameState.gold - gameState.prices[powerupKey] >= 0
    ensures r.Some? ==> r.value.purchaseCount == gameState.purchaseCount + 1
  {
    var price := gameState.prices[powerupKey];
    if gameState.gold < price then None
    else
      var newPowerups := gameState.powerups[powerupKey := gameState.powerups[powerupKey] + 1];
      var inflatedPrices := RepricePurchase(gameState.prices, powerupKey, gameState.purchaseCount + 1);
      Some(Purchase(gameState.gold - price, newPowerups, inflatedPrices, gameState.purchaseCount + 1))
  }

  /** The price table after a purchase of `key`: the bought key's price bumped, then every price inflated. */
  function RepricePurchase(prices: map<PowerupKey, int>, key: PowerupKey, n: nat): (r: map<PowerupKey, int>)
    requires key in prices
    ensures r.Keys == prices.Keys
    ensures r[key] == Inflate(CalculateNewPrice(prices[key], Stackable(key)), n)
    ensures forall k :: k in prices && k != key ==> r[k] == Inflate(prices[k], n)
    ensures forall k :: k in prices && prices[k] >= 0 ==> r[k] >= prices[k]
  {
    var newPrices := prices[key := CalculateNewPrice(prices[key], Stackable(key))];
    assert forall k :: k in prices && prices[k] >= 0 ==> newPrices[k] >= prices[k];
    ApplyGlobalInflation(newPrices, n)
  }

  /** The update handleBuyPowerup merges into the run record. */
  function PurchaseUpdate(p: Purchase): Update
  {
    NO_UPDATE.(gold := Some(p.gold), powerups := Some(p.powerups),
               prices := Some(p.prices), purchaseCount := Some(p.purchaseCount))
  }

  /** A purchase is refused exactly when the gold does not cover the key's price. */
  lemma PurchaseRefusedIffUnaffordable(powerupKey: PowerupKey, s: RunState)
    requires powerupKey in s.prices && powerupKey in s.powerups && s.purchaseCount >= 0
    ensures ProcessPowerupPurchase(powerupKey, s).None? <==> s.gold < s.prices[powerupKey]
  {
  }

  /**
   * A successful purchase pays the price, adds one to the bought key only
   * and counts one more purchase.
   */
  lemma PurchaseEffect(powerupKey: PowerupKey, s: RunState)
    requires powerupKey in s.prices && powerupKey in s.powerups && s.purchaseCount >= 0
    requires s.gold >= s.prices[powerupKey]
    ensures ProcessPowerupPurchase(powerupKey, s).Some?
    ensures ProcessPowerupPurchase(powerupKey, s).value.gold == s.gold - s.prices[powerupKey] >= 0
    ensures ProcessPowerupPurchase(powerupKey, s).value.purchaseCount == s.purchaseCount + 1
    ensures ProcessPowerupPurchase(powerupKey, s).value.powerups
         == s.powerups[powerupKey := s.powerups[powerupKey] + 1]
  {
  }

  /**
   * A successful purchase bumps the bought key's price by its rate and then
   * inflates every price by 1.02^(purchaseCount + 1); no price drops.
   */
  lemma PurchasePrices(powerupKey: PowerupKey, s: RunState)
    requires powerupKey in s.prices && powerupKey in s.powerups && s.purchaseCount >= 0
    requires s.gold >= s.prices[powerupKey]
    ensures ProcessPowerupPurchase(powerupKey, s).Some?
    ensures ProcessPowerupPurchase(powerupKey, s).value.prices.Keys == s.prices.Keys
    ensures ProcessPowerupPurchase(powerupKey, s).value.prices[powerupKey]
         == Inflate(CalculateNewPrice(s.prices[powerupKey], Stackable(powerupKey)), s.purchaseCount + 1)
    ensures forall k :: k in s.prices && k != powerupKey ==>
      ProcessPowerupPurchase(powerupKey, s).value.prices[k] == Inflate(s.prices[k], s.purchaseCount + 1)
    ensures forall k :: k in s.prices && s.prices[k] >= 0 ==>
      ProcessPowerupPurchase(powerupKey, s).value.prices[k] >= s.prices[k]
  {
  }

  /** Buying keeps the run record valid: gold stays non-negative and prices stay at or above their initial values. */
  lemma PurchaseKeepsValid(powerupKey: PowerupKey, s: RunState)
    requires Valid(s)
    requires ProcessPowerupPurchase(powerupKey, s).Some?
    ensures Valid(Merge(s, PurchaseUpdate(ProcessPowerupPurchase(powerupKey, s).value)))
  {
    PurchaseEffect(powerupKey, s);
    PurchasePrices(powerupKey, s);
    PurchasedRecordValid(s, powerupKey, ProcessPowerupPurchase(powerupKey, s).value);
  }

  lemma PurchasedRecordValid(s: RunState, key: PowerupKey, p: Purchase)
    requires Valid(s) && key in s.powerups
    requires p.gold >= 0 && p.purchaseCount == s.purchaseCount + 1
    requires p.powerups == s.powerups[key := s.powerups[key] + 1]
    requires p.prices.Keys == s.prices.Keys
    requires forall k :: k in s.prices && s.prices[k] >= 0 ==> p.prices[k] >= s.prices[k]
    ensures Valid(Merge(s, PurchaseUpdate(p)))
  {
    ValidPricesPositive(s);
    var t := Merge(s, PurchaseUpdate(p));
    assert t == s.(gold := p.gold, powerups := p.powerups, prices := p.prices, purchaseCount := p.purchaseCount);
    ValidUnderGrowth(s, t);
  }

  // ---------------------------------------------------------------------------
  // getActivePowerups

  /** One listed powerup: its key, and its count when above 1 (`null` when it is 1). */
  datatype ActivePowerup = ActivePowerup(key: PowerupKey, value: Option<int>)

  function Shown(key: PowerupKey, count: int): ActivePowerup
  {
    ActivePowerup(key, if count > 1 then Some(count) else None)
  }

  /** `Object.entries(powerups)`: the powerup table in the order its keys were created. */
  function Entries(powerups: map<PowerupKey, int>): (entries: seq<(PowerupKey, int)>)
    requires forall k: PowerupKey :: k in powerups
    ensures |entries| == |CATALOG|
    ensures forall i :: 0 <= i < |entries| ==> entries[i] == (CATALOG[i], powerups[CATALOG[i]])
  {
    CatalogIsEnumeration();
    seq(|CATALOG|, i requires 0 <= i < |CATALOG| => (CATALOG[i], powerups[CATALOG[i]]))
  }

  /** getActivePowerups: keep the entries with a positive count, in input order. */
  function GetActivePowerups(entries: seq<(PowerupKey, int)>): (r: seq<ActivePowerup>)
    ensures |r| <= |entries|
    ensures forall e :: e in entries && e.1 > 0 ==> Shown(e.0, e.1) in r
    ensures forall a :: a in r ==> exists e :: e in entries && e.1 > 0 && a == Shown(e.0, e.1)
  {
    if entries == [] then []
    else
      var rest := GetActivePowerups(entries[1..]);
      assert forall e :: e in entries[1..] ==> e in entries;
      (if entries[0].1 > 0 then [Shown(entries[0].0, entries[0].1)] else []) + rest
  }

  /** The listing of two tables in a row is the two listings in a row: the input order is kept. */
  lemma {:induction false} GetActivePowerupsConcat(a: seq<(PowerupKey, int)>, b: seq<(PowerupKey, int)>)
    ensures GetActivePowerups(a + b) == GetActivePowerups(a) + GetActivePowerups(b)
  {
    if a == [] {
      assert a + b == b;
    } else {
      assert (a + b)[1..] == a[1..] + b;
      GetActivePowerupsConcat(a[1..], b);
    }
  }

  /** A table without a positive count lists nothing. */
  lemma {:induction false} NoneActive(entries: seq<(PowerupKey, int)>)
    requires forall i :: 0 <= i < |entries| ==> entries[i].1 <= 0
    ensures GetActivePowerups(entries) == []
  {
    if entries != [] {
      NoneActive(entries[1..]);
    }
  }

  /** With no powerup bought nothing is listed. */
  lemma NothingActiveInitially()
    ensures var p := CreateInitialState().powerups;
      (forall k: PowerupKey :: k in p) && GetActivePowerups(Entries(p)) == []
  {
    InitialState();
    NoneActive(Entries(CreateInitialState().powerups));
  }
}
