/** `CoinsManager`: the price of a chat and the two operations on `users/<uid>/coins`. */
module Coins {
  import opened Wrappers
  import opened Store
  import Ledger

  const CHAT_COST: int := 50
  const FIELD: string := "coins"

  function CoinBalance(d: Data, user: string): Option<int> {
    GetInt(d, Ledger.FieldPath(user, FIELD))
  }

  /** `checkUserCoins`: at least 50 coins is enough; a missing field reads as an insufficient 0. */
  function CheckUserCoins(d: Data, user: Option<string>, fetched: bool): (r: Ledger.Check)
    ensures r.Sufficient? <==>
      user.Some? && fetched && Exists(d, Ledger.UserDoc(user.value)) &&
      CoinBalance(d, user.value).Some? && CoinBalance(d, user.value).value >= CHAT_COST
    ensures r.Insufficient? && user.Some? && CoinBalance(d, user.value).None? ==> r.balance == 0
    ensures r.Insufficient? && user.Some? && CoinBalance(d, user.value).Some? ==> r.balance < CHAT_COST
    ensures r.CheckError? <==> user.None? || !fetched || !Exists(d, Ledger.UserDoc(user.value))
  {
    Ledger.CheckBalance(d, user, FIELD, CHAT_COST, fetched)
  }

  /** `deductCoinsForChat`: abort on a null id or listener, a missing field or fewer than 50 coins. */
  function DeductCoinsForChat(d: Data, user: Option<string>, hasListener: bool): (r: Ledger.Tx)
    ensures r.Committed? <==>
      hasListener && user.Some? && CoinBalance(d, user.value).Some? && CoinBalance(d, user.value).value >= CHAT_COST
    ensures r.Committed? ==>
      0 <= r.balance == CoinBalance(d, user.value).value - CHAT_COST &&
      r.ops == [Put(Ledger.FieldPath(user.value, FIELD), Int(r.balance))]
  {
    if !hasListener then Ledger.Aborted else Ledger.DeductTx(d, user, FIELD, CHAT_COST)
  }
}
