/**
 * Balances kept as integer fields of a Firestore user document
 * `users/<uid>`: the read-and-compare check, the check-then-deduct
 * transaction that aborts without writing, and the additive credit that
 * counts a missing field as 0. `GameTokenManager` and `CoinsManager` run the
 * same two code shapes on the fields `gameTokens` and `coins`.
 */
module Ledger {
  import opened Wrappers
  import opened Store

  function UserDoc(user: string): Path {
    ["users", user]
  }

  function FieldPath(user: string, field: string): Path {
    ["users", user, field]
  }

  /** The listener callback a balance check ends in. */
  datatype Check = Sufficient(balance: int) | Insufficient(balance: int) | CheckError

  /**
   * The check on a document read: `user` is `None` for a null user id and
   * `fetched` is false when the read itself failed.
   */
  function CheckBalance(d: Data, user: Option<string>, field: string, required: int, fetched: bool): (r: Check)
    ensures r.CheckError? <==> user.None? || !fetched || !Exists(d, UserDoc(user.value))
    ensures r.Sufficient? <==>
      user.Some? && fetched && Exists(d, UserDoc(user.value)) &&
      GetInt(d, FieldPath(user.value, field)).Some? && GetInt(d, FieldPath(user.value, field)).value >= required
    ensures r.Sufficient? ==> r.balance == GetInt(d, FieldPath(user.value, field)).value
    ensures r.Insufficient? ==>
      r.balance == GetInt(d, FieldPath(user.value, field)).GetOr(0) &&
      (GetInt(d, FieldPath(user.value, field)).Some? ==> r.balance < required)
  {
    if user.None? || !fetched || !Exists(d, UserDoc(user.value)) then CheckError
    else match GetInt(d, FieldPath(user.value, field))
      case None => Insufficient(0)
      case Some(t) => if t >= required then Sufficient(t) else Insufficient(t)
  }

  /** A transaction's outcome: the new balance and the write it commits, or an abort. */
  datatype Tx = Committed(balance: int, ops: seq<Op>) | Aborted

  /** The deduction transaction: abort when the field is missing or below `cost`. */
  function DeductTx(d: Data, user: Option<string>, field: string, cost: int): (r: Tx)
    ensures r.Committed? <==>
      user.Some? && GetInt(d, FieldPath(user.value, field)).Some? &&
      GetInt(d, FieldPath(user.value, field)).value >= cost
    ensures r.Committed? ==>
      r.balance == GetInt(d, FieldPath(user.value, field)).value - cost &&
      r.ops == [Put(FieldPath(user.value, field), Int(r.balance))]
    ensures r.Committed? && cost >= 0 ==> r.balance >= 0
  {
    if user.None? then Aborted
    else match GetInt(d, FieldPath(user.value, field))
      case None => Aborted
      case Some(t) =>
        if t < cost then Aborted
        else Committed(t - cost, [Put(FieldPath(user.value, field), Int(t - cost))])
  }

  /**
   * The credit transaction: a missing field counts as 0, and a missing
   * document makes the transaction's `update` fail.
   */
  function CreditTx(d: Data, user: Option<string>, field: string, amount: int): (r: Tx)
    ensures r.Committed? <==> user.Some? && Exists(d, UserDoc(user.value))
    ensures r.Committed? ==>
      r.balance == GetInt(d, FieldPath(user.value, field)).GetOr(0) + amount &&
      r.ops == [Put(FieldPath(user.value, field), Int(r.balance))]
  {
    if user.None? || !Exists(d, UserDoc(user.value)) then Aborted
    else
      var balance := GetInt(d, FieldPath(user.value, field)).GetOr(0) + amount;
      Committed(balance, [Put(FieldPath(user.value, field), Int(balance))])
  }

  /**
   * Running a transaction against the store: it commits only when the
   * transaction body did not abort and the commit itself went through
   * (`delivered`). The result is what the success listener receives.
   */
  method Run(db: Database, tx: Tx, delivered: bool) returns (r: Option<int>)
    modifies db
    ensures r.Some? <==> tx.Committed? && delivered
    ensures r.Some? ==> r.value == tx.balance && db.data == Apply(old(db.data), tx.ops)
    ensures r.None? ==> db.data == old(db.data)
  {
    if tx.Committed? && delivered {
      db.Write(tx.ops);
      r := Some(tx.balance);
    } else {
      r := None;
    }
  }

  /**
   * A plain document `update`: it fails, writing nothing, when the document
   * does not exist or the write is not delivered.
   */
  method UpdateDocument(db: Database, user: string, ops: seq<Op>, delivered: bool) returns (ok: bool)
    modifies db
    ensures ok <==> delivered && Exists(old(db.data), UserDoc(user))
    ensures db.data == if ok then Apply(old(db.data), ops) else old(db.data)
  {
    ok := delivered && Exists(db.data, UserDoc(user));
    if ok {
      db.Write(ops);
    }
  }

  /** With the document present, a check that reports enough balance is exactly a deduction that commits. */
  lemma CheckAgreesWithDeduct(d: Data, user: string, field: string, cost: int)
    requires Exists(d, UserDoc(user))
    ensures CheckBalance(d, Some(user), field, cost, true).Sufficient? <==> DeductTx(d, Some(user), field, cost).Committed?
    ensures DeductTx(d, Some(user), field, cost).Committed? ==>
      DeductTx(d, Some(user), field, cost).balance == CheckBalance(d, Some(user), field, cost, true).balance - cost
  {
  }

  /** A committed deduction changes no leaf but its own field. */
  lemma DeductOnlyOwnField(d: Data, user: string, field: string, cost: int, q: Path)
    requires DeductTx(d, Some(user), field, cost).Committed?
    requires !Within(FieldPath(user, field), q)
    ensures Get(Apply(d, DeductTx(d, Some(user), field, cost).ops), q) == Get(d, q)
  {
    ApplyFrame(d, DeductTx(d, Some(user), field, cost).ops, q);
  }

  /** Deducting what was just credited restores a non-negative balance, a missing one as 0. */
  lemma DeductUndoesCredit(d: Data, user: string, field: string, amount: int)
    requires amount >= 0 && GetInt(d, FieldPath(user, field)).GetOr(0) >= 0
    requires CreditTx(d, Some(user), field, amount).Committed?
    ensures var after := Apply(d, CreditTx(d, Some(user), field, amount).ops);
      DeductTx(after, Some(user), field, amount) ==
        Committed(GetInt(d, FieldPath(user, field)).GetOr(0),
                  [Put(FieldPath(user, field), Int(GetInt(d, FieldPath(user, field)).GetOr(0)))])
  {
    var tx := CreditTx(d, Some(user), field, amount);
    var p := FieldPath(user, field);
    assert tx.ops[0].at == p;
    ApplyPut(d, tx.ops, 0);
    var after := Apply(d, tx.ops);
    assert GetInt(after, p) == Some(tx.balance);
    var was := GetInt(d, p).GetOr(0);
    assert tx.balance - amount == was;
    assert DeductTx(after, Some(user), field, amount) == Committed(was, [Put(p, Int(was))]);
  }
}
