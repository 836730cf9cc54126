/** `GameTokenManager`: the fixed game-token prices and the three operations on `users/<uid>/gameTokens`. */
module GameTokens {
  import opened Wrappers
  import opened Store
  import Ledger

  const GAME_TOKEN_COST_INITIATOR: int := 2
  const GAME_TOKEN_COST_ACCEPTOR: int := 5
  const WIN_REWARD: int := 10
  const FIELD: string := "gameTokens"

  function Tokens(d: Data, user: string): Option<int> {
    GetInt(d, Ledger.FieldPath(user, FIELD))
  }

  /** `checkGameTokens`: equality counts as enough; a missing field reads as an insufficient 0. */
  function CheckGameTokens(d: Data, user: Option<string>, required: int, fetched: bool): (r: Ledger.Check)
    ensures r.Sufficient? <==>
      user.Some? && fetched && Exists(d, Ledger.UserDoc(user.value)) &&
      Tokens(d, user.value).Some? && Tokens(d, user.value).value >= required
    ensures r.Insufficient? && user.Some? && Tokens(d, user.value).None? ==> r.balance == 0
    ensures r.CheckError? <==> user.None? || !fetched || !Exists(d, Ledger.UserDoc(user.value))
  {
    Ledger.CheckBalance(d, user, FIELD, required, fetched)
  }

  /**
   * `deductGameTokens`: a null user id or a null listener fails before any
   * transaction; otherwise the transaction aborts on a missing or too small
   * balance and never leaves it negative.
   */
  function DeductGameTokens(d: Data, user: Option<string>, hasListener: bool, cost: int): (r: Ledger.Tx)
    ensures r.Committed? <==>
      hasListener && user.Some? && Tokens(d, user.value).Some? && Tokens(d, user.value).value >= cost
    ensures r.Committed? ==>
      r.balance == Tokens(d, user.value).value - cost &&
      r.ops == [Put(Ledger.FieldPath(user.value, FIELD), Int(r.balance))]
    ensures r.Committed? && cost >= 0 ==> r.balance >= 0
  {
    if !hasListener then Ledger.Aborted else Ledger.DeductTx(d, user, FIELD, cost)
  }

  /** `awardGameTokens`: a missing balance counts as 0. */
  function AwardGameTokens(d: Data, user: Option<string>, hasListener: bool, reward: int): (r: Ledger.Tx)
    ensures r.Committed? <==> hasListener && user.Some? && Exists(d, Ledger.UserDoc(user.value))
    ensures r.Committed? ==>
      r.balance == Tokens(d, user.value).GetOr(0) + reward &&
      r.ops == [Put(Ledger.FieldPath(user.value, FIELD), Int(r.balance))]
  {
    if !hasListener then Ledger.Aborted else Ledger.CreditTx(d, user, FIELD, reward)
  }

  /** Whoever can afford to accept an invitation can also afford to send one. */
  lemma AcceptorCanAlsoInvite(d: Data, user: string)
    requires CheckGameTokens(d, Some(user), GAME_TOKEN_COST_ACCEPTOR, true).Sufficient?
    ensures CheckGameTokens(d, Some(user), GAME_TOKEN_COST_INITIATOR, true).Sufficient?
  {
  }
}
