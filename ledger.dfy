/**
 * The entitlement ledger of app.py: `user_access` maps a user id to whether
 * the one free use is spent and how many paid uses remain. `check_access`
 * reads it, `register_use` spends one use, and the administrator's `/credit`
 * command grants paid uses.
 */
module Ledger {

  /** One `user_access` entry: `{"free_used": ..., "paid_remaining": ...}`. */
  datatype Record = Record(freeUsed: bool, paidRemaining: int)

  /** Where an allowed use comes from; `NoSource` is Python's `None`. */
  datatype Source = Free | Paid | NoSource

  /** The pair `(allowed, source)` that `check_access` returns. */
  datatype Access = Access(allowed: bool, source: Source)

  /** The record `check_access`, `/me` and `register_use` assume for a user not seen before. */
  const Unseen: Record := Record(false, 0)

  /** The record `/credit` creates for a target not seen before. */
  const Provisioned: Record := Record(true, 0)

  /** `user_access.get(user, {"free_used": False, "paid_remaining": 0})`. */
  function Lookup(access: map<int, Record>, user: int): (r: Record)
    ensures user in access ==> r == access[user]
    ensures user !in access ==> !r.freeUsed && r.paidRemaining == 0
  {
    if user in access then access[user] else Unseen
  }

  /**
   * How many uses a record still admits: one for the unspent free use, one
   * for each paid credit; a balance at or below zero admits none.
   */
  function Units(r: Record): nat {
    (if r.freeUsed then 0 else 1) + (if r.paidRemaining > 0 then r.paidRemaining else 0)
  }

  /** Every paid balance in the ledger is at least zero. */
  predicate NonNegative(access: map<int, Record>) {
    forall u :: u in access ==> access[u].paidRemaining >= 0
  }

  /**
   * `check_access(user)`: a use is allowed exactly when the user has a unit
   * left; the free use is always taken before any paid credit, and the
   * ledger is only read.
   */
  function CheckAccess(access: map<int, Record>, user: int): (a: Access)
    ensures a.allowed <==> Units(Lookup(access, user)) > 0
    ensures a.allowed <==> a.source != NoSource
    ensures a.source == Free <==> !Lookup(access, user).freeUsed
    ensures a.source == Paid <==> Lookup(access, user).freeUsed && Lookup(access, user).paidRemaining > 0
  {
    var info := Lookup(access, user);
    if !info.freeUsed then Access(true, Free)
    else if info.paidRemaining > 0 then Access(true, Paid)
    else Access(false, NoSource)
  }

  /**
   * What `register_use(user, source)` does to the user's record: a free use
   * marks the free use spent, a paid use takes one credit if there is one,
   * and `None` changes nothing.
   */
  function Consume(r: Record, source: Source): (c: Record)
    ensures Units(c) <= Units(r)
    ensures r.paidRemaining >= 0 ==> c.paidRemaining >= 0
    ensures c.freeUsed == (r.freeUsed || source == Free)
    ensures source == NoSource ==> c == r
  {
    match source
    case Free => r.(freeUsed := true)
    case Paid => if r.paidRemaining > 0 then r.(paidRemaining := r.paidRemaining - 1) else r
    case NoSource => r
  }

  /**
   * The `/credit target count` grant: the target's record (created as
   * `{free_used: True, paid_remaining: 0}` if missing) gains exactly `count`
   * paid uses and has its free use marked spent; no other entry changes.
   */
  function Grant(access: map<int, Record>, target: int, count: int): (m: map<int, Record>)
    ensures m.Keys == access.Keys + {target}
    ensures m[target].freeUsed
    ensures m[target].paidRemaining == (if target in access then access[target].paidRemaining else 0) + count
    ensures forall u :: u in access && u != target ==> m[u] == access[u]
  {
    var info := if target in access then access[target] else Provisioned;
    access[target := info.(paidRemaining := info.paidRemaining + count, freeUsed := true)]
  }

  /** A user never seen before is allowed, on the free use. */
  lemma UnseenUserIsFree(access: map<int, Record>, user: int)
    requires user !in access
    ensures CheckAccess(access, user) == Access(true, Free)
  {
  }

  /** While the free use is unspent the answer is FREE, whatever the paid balance. */
  lemma FreePreferred(access: map<int, Record>, user: int)
    requires user in access && !access[user].freeUsed
    ensures CheckAccess(access, user) == Access(true, Free)
  {
  }

  /** The answer is PAID exactly when the free use is spent and credits remain, and denied otherwise. */
  lemma PaidOrDenied(access: map<int, Record>, user: int)
    requires Lookup(access, user).freeUsed
    ensures CheckAccess(access, user) == (if Lookup(access, user).paidRemaining > 0 then Access(true, Paid) else Access(false, NoSource))
  {
  }

  /** Spending the source `check_access` chose uses up exactly one unit. */
  lemma ConsumeSpendsOneUnit(access: map<int, Record>, user: int)
    requires CheckAccess(access, user).allowed
    ensures Units(Consume(Lookup(access, user), CheckAccess(access, user).source)) == Units(Lookup(access, user)) - 1
  {
  }

  /** A free use is idempotent and leaves the paid balance alone. */
  lemma ConsumeFreeIdempotent(r: Record)
    ensures Consume(r, Free).paidRemaining == r.paidRemaining
    ensures Consume(Consume(r, Free), Free) == Consume(r, Free)
  {
  }

  /** A paid use takes exactly one credit above zero and is a no-op at zero. */
  lemma ConsumePaidFloor(r: Record)
    ensures r.paidRemaining > 0 ==> Consume(r, Paid) == r.(paidRemaining := r.paidRemaining - 1)
    ensures r.paidRemaining <= 0 ==> Consume(r, Paid) == r
  {
  }

  /** After the free use is spent, the next check is PAID if credits remain and denied otherwise. */
  lemma AfterFreeUse(access: map<int, Record>, user: int)
    ensures var after := access[user := Consume(Lookup(access, user), Free)];
      CheckAccess(after, user) == (if Lookup(access, user).paidRemaining > 0 then Access(true, Paid) else Access(false, NoSource))
  {
  }

  /** A grant withdraws the free use: the target's next use can only be paid, and is allowed iff the new balance is positive. */
  lemma GrantWithdrawsFreeUse(access: map<int, Record>, target: int, count: int)
    ensures CheckAccess(Grant(access, target, count), target).source != Free
    ensures CheckAccess(Grant(access, target, count), target).allowed <==> Grant(access, target, count)[target].paidRemaining > 0
  {
  }

  /** Consuming and granting a non-negative count keep every balance non-negative. */
  lemma LedgerStaysNonNegative(access: map<int, Record>, user: int, source: Source, target: int, count: int)
    requires NonNegative(access)
    requires count >= 0
    ensures NonNegative(access[user := Consume(Lookup(access, user), source)])
    ensures NonNegative(Grant(access, target, count))
  {
  }
}
