/**
 * The credits ledger (lib/credits.ts): the `user_credits` table, holding one integer balance per
 * user id, which every operation reads and then rewrites whole through an upsert.
 *
 * Whether the store answers a read or accepts a write is decided outside this code (it is
 * Supabase), so each operation takes that outcome as a parameter: `readOk` for the select,
 * `writeOk` for the upsert. The specification functions below say what each call does to the
 * table; the `Ledger` class performs the same steps on its `rows` field and is proved against them.
 */
module Credits {

  type UserId = string

  /** What the table holds for a user: the stored credits, or 0 when the user has no row. */
  function Balance(rows: map<UserId, int>, userId: UserId): int {
    if userId in rows then rows[userId] else 0
  }

  /** The intended invariant of the table: no row holds a negative balance. */
  ghost predicate NonNegative(rows: map<UserId, int>) {
    forall u :: u in rows ==> rows[u] >= 0
  }

  /** Every row other than `userId`'s is the same in `rows'` as in `rows` (present or absent alike). */
  ghost predicate OthersUnchanged(rows: map<UserId, int>, rows': map<UserId, int>, userId: UserId) {
    rows' - {userId} == rows - {userId}
  }

  /** The outcome of a write: the table afterwards and the boolean the source returns. */
  datatype Write = Write(rows: map<UserId, int>, ok: bool)

  /** The value `getUserCredits` returns: 0 when the read fails, else the balance (`data?.credits || 0`). */
  function ReadCredits(rows: map<UserId, int>, userId: UserId, readOk: bool): int {
    if readOk then Balance(rows, userId) else 0
  }

  /** `updateUserCredits`: an upsert that replaces the user's whole balance. */
  function Upsert(rows: map<UserId, int>, userId: UserId, credits: int, writeOk: bool): (w: Write)
    ensures w.ok == writeOk
    ensures w.ok ==> userId in w.rows && Balance(w.rows, userId) == credits
    ensures !w.ok ==> w.rows == rows
    ensures OthersUnchanged(rows, w.rows, userId)
  {
    if writeOk then Write(rows[userId := credits], true) else Write(rows, false)
  }

  /** `deductCredits`: refuses, writing nothing, when the balance read is below `amount`. */
  function Deduct(rows: map<UserId, int>, userId: UserId, readOk: bool, writeOk: bool, amount: int := 1): (w: Write)
    ensures w.ok <==> writeOk && ReadCredits(rows, userId, readOk) >= amount
    ensures ReadCredits(rows, userId, readOk) < amount ==> w.rows == rows
    ensures !w.ok ==> w.rows == rows
    ensures w.ok ==> Balance(w.rows, userId) == ReadCredits(rows, userId, readOk) - amount
    ensures w.ok && readOk ==> Balance(w.rows, userId) == Balance(rows, userId) - amount
    ensures OthersUnchanged(rows, w.rows, userId)
    ensures w.ok ==> userId in w.rows
    // whatever the read returned, a balance written by a deduction is never negative
    ensures w.ok ==> Balance(w.rows, userId) >= 0
    ensures NonNegative(rows) ==> NonNegative(w.rows)
  {
    var current := ReadCredits(rows, userId, readOk);
    if current < amount then Write(rows, false) else Upsert(rows, userId, current - amount, writeOk)
  }

  /** `addCredits`: writes the balance read plus `amount`, with no guard. */
  function Add(rows: map<UserId, int>, userId: UserId, amount: int, readOk: bool, writeOk: bool): (w: Write)
    ensures w.ok == writeOk
    ensures !w.ok ==> w.rows == rows
    ensures w.ok ==> userId in w.rows
    ensures w.ok ==> Balance(w.rows, userId) == ReadCredits(rows, userId, readOk) + amount
    ensures w.ok && readOk ==> Balance(w.rows, userId) == Balance(rows, userId) + amount
    ensures OthersUnchanged(rows, w.rows, userId)
    ensures NonNegative(rows) && amount >= 0 ==> NonNegative(w.rows)
  {
    Upsert(rows, userId, ReadCredits(rows, userId, readOk) + amount, writeOk)
  }

  /** The `user_credits` table as shared mutable state, changed in place by each call. */
  class Ledger {
    var rows: map<UserId, int>

    constructor (initial: map<UserId, int>)
      ensures rows == initial
    {
      rows := initial;
    }

    /** `getUserCredits`: never an error; a missing row and a failed read both read as 0. */
    method GetUserCredits(userId: UserId, readOk: bool) returns (credits: int)
      ensures credits == ReadCredits(rows, userId, readOk)
      ensures !readOk || userId !in rows ==> credits == 0
      ensures readOk && userId in rows ==> credits == rows[userId]
    {
      if !readOk {
        return 0;
      }
      credits := if userId in rows then rows[userId] else 0;
    }

    /** `updateUserCredits`: upserts the row; reports whether the store accepted the write. */
    method UpdateUserCredits(userId: UserId, credits: int, writeOk: bool) returns (ok: bool)
      modifies this
      ensures Write(rows, ok) == Upsert(old(rows), userId, credits, writeOk)
      ensures ok ==> rows == old(rows)[userId := credits]
      ensures !ok ==> rows == old(rows)
    {
      if !writeOk {
        return false;
      }
      rows := rows[userId := credits];
      ok := true;
    }

    /** `deductCredits`, with the source's default charge of one credit. */
    method DeductCredits(userId: UserId, readOk: bool, writeOk: bool, amount: int := 1) returns (ok: bool)
      modifies this
      ensures Write(rows, ok) == Deduct(old(rows), userId, readOk, writeOk, amount)
      ensures OthersUnchanged(old(rows), rows, userId)
      ensures NonNegative(old(rows)) ==> NonNegative(rows)
    {
      var current := GetUserCredits(userId, readOk);
      if current < amount {
        return false;
      }
      ok := UpdateUserCredits(userId, current - amount, writeOk);
    }

    /** `addCredits`: a read followed by an upsert of the sum. */
    method AddCredits(userId: UserId, amount: int, readOk: bool, writeOk: bool) returns (ok: bool)
      modifies this
      ensures Write(rows, ok) == Add(old(rows), userId, amount, readOk, writeOk)
      ensures OthersUnchanged(old(rows), rows, userId)
    {
      var current := GetUserCredits(userId, readOk);
      ok := UpdateUserCredits(userId, current + amount, writeOk);
    }
  }

  /** Called without an amount, a successful deduction charges exactly one credit. */
  lemma DeductDefaultChargesOne(rows: map<UserId, int>, userId: UserId)
    requires Balance(rows, userId) >= 1
    ensures Deduct(rows, userId, true, true).ok
    ensures Balance(Deduct(rows, userId, true, true).rows, userId) == Balance(rows, userId) - 1
  {
  }

  /**
   * Adding `amount` and then deducting it, every read and write succeeding, gives every user
   * back the balance they had. The deduction's guard passes only because the starting balance
   * is not negative: from a negative balance the deduction is refused.
   */
  lemma AddThenDeductRestores(rows: map<UserId, int>, userId: UserId, amount: int)
    requires Balance(rows, userId) >= 0
    ensures var added := Add(rows, userId, amount, true, true);
            var deducted := Deduct(added.rows, userId, true, true, amount);
            deducted.ok && forall v :: Balance(deducted.rows, v) == Balance(rows, v)
  {
  }

  /** From a negative balance, add-then-deduct of the same amount is refused at the deduction. */
  lemma AddThenDeductRefusedBelowZero(rows: map<UserId, int>, userId: UserId, amount: int)
    requires Balance(rows, userId) < 0
    ensures !Deduct(Add(rows, userId, amount, true, true).rows, userId, true, true, amount).ok
  {
  }

  /**
   * A failed read makes `addCredits` write `amount` itself: the user's previous balance is lost,
   * not increased.
   */
  lemma AddAfterFailedReadOverwrites(rows: map<UserId, int>, userId: UserId, amount: int)
    ensures Balance(Add(rows, userId, amount, false, true).rows, userId) == amount
  {
  }

  /** A failed read makes `deductCredits` refuse any positive amount, whatever the stored balance. */
  lemma DeductAfterFailedReadRefuses(rows: map<UserId, int>, userId: UserId, amount: int)
    requires amount > 0
    ensures Deduct(rows, userId, false, true, amount) == Write(rows, false)
  {
  }
}
