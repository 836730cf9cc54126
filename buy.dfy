/**
 * `BuyActivity`: the coin packages sold through Play Billing, the offline
 * package list, the chat-cost gate on the "Start Chatting" button, and the
 * guard under which a purchase is credited. The billing client is reduced
 * to the purchase records and result codes it delivers.
 */
module Buy {
  import opened Wrappers
  import opened Store
  import Ledger
  import Coins
  import JavaInt

  const CHAT_COST: int := 50

  const PRODUCT_IDS: seq<string> := ["coins_100", "coins_250", "coins_500", "coins_1000", "coins_2500"]

  const OFFLINE_TITLES: seq<string> := ["1000 Coins", "2500 Coins", "5000 Coins", "10000 Coins", "25000 Coins"]
  const OFFLINE_PRICES: seq<string> := ["$0.99", "$1.99", "$3.99", "$6.99", "$14.99"]

  /** The offline list, `"1000 Coins|$0.99"` and so on: title, bar, price. */
  const OFFLINE_PACKAGES: seq<string> :=
    seq(5, k requires 0 <= k < 5 => Entry(OFFLINE_TITLES[k], OFFLINE_PRICES[k]))

  function Entry(title: string, price: string): string {
    title + "|" + price
  }

  /** `getCoinsFromId`: the coins a product grants; an unknown product grants none. */
  function CoinsFromId(productId: string): (coins: int)
    ensures coins > 0 <==> productId in PRODUCT_IDS
    ensures coins >= 0
  {
    match productId
    case "coins_100" => 1000
    case "coins_250" => 2500
    case "coins_500" => 5000
    case "coins_1000" => 10000
    case "coins_2500" => 25000
    case _ => 0
  }

  /** Different products grant different amounts. */
  lemma CoinsFromIdInjective(a: string, b: string)
    requires a in PRODUCT_IDS && b in PRODUCT_IDS && a != b
    ensures CoinsFromId(a) != CoinsFromId(b)
  {
  }

  /** The "Best Value!" badge of a package card. */
  predicate BestValue(coins: int) {
    coins >= 500
  }

  /** Every package of the catalogue grants at least 1000 coins, so each one carries the badge. */
  lemma BestValueExactlyCatalogue(productId: string)
    ensures BestValue(CoinsFromId(productId)) <==> productId in PRODUCT_IDS
  {
  }

  /** The "Start Chatting" button is enabled exactly when the balance covers one chat. */
  predicate CanStartChat(currentCoins: int) {
    currentCoins >= CHAT_COST
  }

  /** The number of coins the disabled button says are still needed. */
  function Shortfall(currentCoins: int): (needed: int)
    requires !CanStartChat(currentCoins)
    ensures needed > 0 && currentCoins + needed == CHAT_COST
  {
    CHAT_COST - currentCoins
  }

  /** The button's gate is the same test the chat deduction applies to a loaded balance. */
  lemma GateMatchesChatDeduction(d: Data, user: string)
    requires Exists(d, Ledger.UserDoc(user)) && Coins.CoinBalance(d, user).Some?
    ensures CanStartChat(Coins.CoinBalance(d, user).value) <==> Coins.CheckUserCoins(d, Some(user), true).Sufficient?
    ensures CanStartChat(Coins.CoinBalance(d, user).value) <==> Coins.DeductCoinsForChat(d, Some(user), true).Committed?
  {
  }

  /** A string cut at every occurrence of `sep`, empty pieces kept. */
  function SplitOn(s: string, sep: char): (parts: seq<string>)
    ensures |parts| >= 1
    ensures forall i :: 0 <= i < |parts| ==> sep !in parts[i]
    decreases |s|
  {
    if s == [] then [""]
    else
      var rest := SplitOn(s[1..], sep);
      if s[0] == sep then [""] + rest else [[s[0]] + rest[0]] + rest[1..]
  }

  function Join(parts: seq<string>, sep: char): string
    requires |parts| >= 1
    decreases |parts|
  {
    if |parts| == 1 then parts[0] else parts[0] + [sep] + Join(parts[1..], sep)
  }

  /** Cutting at a separator loses nothing: joining the pieces back gives the string. */
  lemma {:induction false} JoinSplitOn(s: string, sep: char)
    ensures Join(SplitOn(s, sep), sep) == s
    decreases |s|
  {
    if s != [] {
      var rest := SplitOn(s[1..], sep);
      JoinSplitOn(s[1..], sep);
      if s[0] == sep {
        assert ([""] + rest)[1..] == rest;
      } else {
        var parts := [[s[0]] + rest[0]] + rest[1..];
        if |rest| == 1 {
          assert parts == [[s[0]] + rest[0]];
        } else {
          assert parts[1..] == rest[1..];
          assert Join(rest, sep) == rest[0] + [sep] + Join(rest[1..], sep);
        }
      }
    }
  }

  function DropTrailingEmpty(parts: seq<string>): (r: seq<string>)
    ensures |r| <= |parts| && r == parts[..|r|]
    ensures |r| > 0 ==> r[|r| - 1] != ""
    decreases |parts|
  {
    if parts != [] && parts[|parts| - 1] == "" then DropTrailingEmpty(parts[..|parts| - 1]) else parts
  }

  /** Java's `String.split` on a one-character pattern: no match keeps the string whole, trailing empty pieces go. */
  function JavaSplit(s: string, sep: char): (r: seq<string>)
    ensures forall i :: 0 <= i < |r| ==> sep !in r[i]
    ensures sep in s && |r| > 0 ==> r[|r| - 1] != ""
  {
    if sep !in s then [s] else DropTrailingEmpty(SplitOn(s, sep))
  }

  /** A string without the separator is one piece. */
  lemma {:induction false} SplitOnNoSep(s: string, sep: char)
    requires sep !in s
    ensures SplitOn(s, sep) == [s]
    decreases |s|
  {
    if s != [] {
      assert s[0] != sep && sep !in s[1..];
      SplitOnNoSep(s[1..], sep);
      assert [s[0]] + s[1..] == s;
    }
  }

  /** A string with the separator once, between `a` and `b`, splits into exactly `a` and `b`. */
  lemma {:induction false} SplitOnOnce(a: string, b: string, sep: char)
    requires sep !in a && sep !in b
    ensures SplitOn(a + [sep] + b, sep) == [a, b]
    decreases |a|
  {
    if a == [] {
      assert ([sep] + b)[1..] == b;
      SplitOnNoSep(b, sep);
    } else {
      assert (a + [sep] + b)[1..] == a[1..] + [sep] + b;
      SplitOnOnce(a[1..], b, sep);
      assert [a[0]] + a[1..] == a;
    }
  }

  /** An offline entry `title|price` splits into its title and its price. */
  lemma OfflineEntry(title: string, price: string)
    requires '|' !in title && '|' !in price && price != ""
    ensures JavaSplit(Entry(title, price), '|') == [title, price]
  {
    SplitOnOnce(title, price, '|');
    assert Entry(title, price)[|title|] == '|';
  }

  /** Each offline package is a title naming the coins of the matching product, and a price. */
  lemma OfflinePackagesAgreeWithCatalogue(i: nat)
    requires i < |OFFLINE_PACKAGES|
    ensures JavaSplit(OFFLINE_PACKAGES[i], '|') ==
      [JavaInt.ToDecimal(CoinsFromId(PRODUCT_IDS[i])) + " Coins", OFFLINE_PRICES[i]]
  {
    OfflineTitle(i);
    NoBar(i);
    OfflineEntry(OFFLINE_TITLES[i], OFFLINE_PRICES[i]);
  }

  lemma NoBar(i: nat)
    requires i < 5
    ensures '|' !in OFFLINE_TITLES[i] && '|' !in OFFLINE_PRICES[i] && OFFLINE_PRICES[i] != ""
  {
  }

  lemma OfflineTitle(i: nat)
    requires i < 5
    ensures OFFLINE_TITLES[i] == JavaInt.ToDecimal(CoinsFromId(PRODUCT_IDS[i])) + " Coins"
  {
    if i == 0 {
      assert JavaInt.NatToString(10) == "10";
      assert JavaInt.NatToString(100) == "100";
      assert JavaInt.NatToString(1000) == "1000";
      assert CoinsFromId(PRODUCT_IDS[i]) == 1000 && OFFLINE_TITLES[i] == "1000" + " Coins";
    } else if i == 1 {
      assert JavaInt.NatToString(25) == "25";
      assert JavaInt.NatToString(250) == "250";
      assert JavaInt.NatToString(2500) == "2500";
      assert CoinsFromId(PRODUCT_IDS[i]) == 2500 && OFFLINE_TITLES[i] == "2500" + " Coins";
    } else if i == 2 {
      assert JavaInt.NatToString(50) == "50";
      assert JavaInt.NatToString(500) == "500";
      assert JavaInt.NatToString(5000) == "5000";
      assert CoinsFromId(PRODUCT_IDS[i]) == 5000 && OFFLINE_TITLES[i] == "5000" + " Coins";
    } else if i == 3 {
      assert JavaInt.NatToString(10) == "10";
      assert JavaInt.NatToString(100) == "100";
      assert JavaInt.NatToString(1000) == "1000";
      assert JavaInt.NatToString(10000) == "10000";
      assert CoinsFromId(PRODUCT_IDS[i]) == 10000 && OFFLINE_TITLES[i] == "10000" + " Coins";
    } else {
      assert JavaInt.NatToString(25) == "25";
      assert JavaInt.NatToString(250) == "250";
      assert JavaInt.NatToString(2500) == "2500";
      assert JavaInt.NatToString(25000) == "25000";
      assert CoinsFromId(PRODUCT_IDS[i]) == 25000 && OFFLINE_TITLES[i] == "25000" + " Coins";
    }
  }

  datatype PurchaseState = Unspecified | Purchased | Pending

  datatype Purchase = Purchase(state: PurchaseState, acknowledged: bool, products: seq<string>)

  /** A purchase is credited only when purchased, not yet acknowledged, consumed, and naming a product. */
  predicate Creditable(p: Purchase, consumeOk: bool) {
    p.state == Purchased && !p.acknowledged && consumeOk && |p.products| > 0
  }

  /** The `FieldValue.increment` of the balance by the coins of the first product. */
  function PurchaseOps(d: Data, user: string, p: Purchase): (r: seq<Op>)
    requires |p.products| > 0
    ensures Inside(r, Ledger.UserDoc(user))
  {
    [Put(Ledger.FieldPath(user, Coins.FIELD),
         Int(Coins.CoinBalance(d, user).GetOr(0) + CoinsFromId(p.products[0])))]
  }

  class BuyScreen {
    const uid: string
    var currentCoins: int

    constructor (uid: string)
      ensures this.uid == uid && currentCoins == 0
    {
      this.uid := uid;
      currentCoins := 0;
    }

    /** `loadUserCoins`: an existing document sets the balance, a missing field as 0. */
    method LoadUserCoins(d: Data, fetched: bool)
      modifies this
      ensures fetched && Exists(d, Ledger.UserDoc(uid)) ==> currentCoins == Coins.CoinBalance(d, uid).GetOr(0)
      ensures !(fetched && Exists(d, Ledger.UserDoc(uid))) ==> currentCoins == old(currentCoins)
    {
      if fetched && Exists(d, Ledger.UserDoc(uid)) {
        currentCoins := Coins.CoinBalance(d, uid).GetOr(0);
      }
    }

    /**
     * `handlePurchase`: the coins of the first product are added to the
     * stored and then the shown balance, only for a creditable purchase
     * whose update reaches an existing document.
     */
    method HandlePurchase(db: Database, p: Purchase, consumeOk: bool, delivered: bool) returns (credited: bool)
      modifies this, db
      ensures credited <==> Creditable(p, consumeOk) && delivered && Exists(old(db.data), Ledger.UserDoc(uid))
      ensures credited ==>
        db.data == Apply(old(db.data), PurchaseOps(old(db.data), uid, p)) &&
        currentCoins == old(currentCoins) + CoinsFromId(p.products[0])
      ensures !credited ==> db.data == old(db.data) && currentCoins == old(currentCoins)
    {
      credited := false;
      if p.state != Purchased || p.acknowledged || !consumeOk || |p.products| == 0 {
        return;
      }
      credited := Ledger.UpdateDocument(db, uid, PurchaseOps(db.data, uid, p), delivered);
      if credited {
        currentCoins := currentCoins + CoinsFromId(p.products[0]);
      }
    }
  }
}
