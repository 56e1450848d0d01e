/** Settlement of one pending transaction, and the backlog query that feeds the
    sweeper. The settlement runs as one unit of work: either every write of the
    callback is kept, or the store is rolled back to the state it had before. */
module Processor {
  import opened Models
  import opened Database
  import Ordering

  /** What `processTransaction` resolves to: `{ success, error? }`. */
  datatype ProcessResult = ProcessResult(success: bool, error: Option<string>)

  /** How the callback of the unit of work ends: it returns after its writes, or it
      throws after some of them (the writes made so far are in `partial`). */
  datatype UnitOutcome = Returned(state: DbState) | Threw(message: string, partial: DbState)

  /** A failure of the store itself when the unit commits (a lock wait or the unit's
      time budget running out, a lost connection). `ErrorObject` is an `Error` with a
      message; `NonError` is any other thrown value. */
  datatype Fault = NoFault | ErrorObject(message: string) | NonError

  /** The outcome of one settlement together with the store it leaves behind. */
  datatype Settled = Settled(state: DbState, result: ProcessResult)

  const NotFoundOrProcessed := "Transaction not found or already processed"
  const SenderNotFound := "Sender not found"
  const RecipientNotFound := "Recipient not found"
  const InsufficientBalance := "Insufficient balance"
  const UnknownError := "Unknown error"

  predicate IsPending(s: DbState, id: Id)
  {
    id in s.transactions && s.transactions[id].status == TransactionStatus.PENDING
  }

  /** The callback passed to the unit of work, step by step: re-read the transaction
      filtered to PENDING, read both balances, then either mark the transaction
      FAILED and throw, or debit, credit and mark it COMPLETED. */
  function SettlementUnit(s: DbState, id: Id, now: Timestamp): (u: UnitOutcome)
    ensures u.Returned? <==> && IsPending(s, id)
                             && s.transactions[id].fromUserId in s.users && s.transactions[id].toUserId in s.users
                             && s.users[s.transactions[id].fromUserId].balance >= s.transactions[id].amount
    ensures u.Threw? ==> u.message in {NotFoundOrProcessed, SenderNotFound, RecipientNotFound, InsufficientBalance}
    ensures u.Threw? && u.message != InsufficientBalance ==> u.partial == s
    ensures u.Threw? && u.message == InsufficientBalance ==>
              && IsPending(s, id) && u.partial.users == s.users && id in u.partial.transactions
              && u.partial.transactions[id].status == FAILED
              && u.partial.transactions[id].failureReason == Some(InsufficientBalance)
  {
    if !IsPending(s, id) then Threw(NotFoundOrProcessed, s)
    else
      var t := s.transactions[id];
      if t.fromUserId !in s.users then Threw(SenderNotFound, s)
      else if t.toUserId !in s.users then Threw(RecipientNotFound, s)
      else if s.users[t.fromUserId].balance < t.amount then
        Threw(InsufficientBalance, PutTransaction(s, id, t.(status := FAILED,
          failureReason := Some(InsufficientBalance), completedAt := Some(now))))
      else Returned(Committed(s, id, now))
  }

  /** The writes of a callback that gets past every check: debit the sender, credit
      the recipient, then mark the transaction COMPLETED at `now`. */
  function Committed(s: DbState, id: Id, now: Timestamp): DbState
    requires id in s.transactions
    requires s.transactions[id].fromUserId in s.users && s.transactions[id].toUserId in s.users
  {
    var t := s.transactions[id];
    var debited := AdjustBalance(s, t.fromUserId, -t.amount, now);
    var credited := AdjustBalance(debited, t.toUserId, t.amount, now);
    PutTransaction(credited, id, t.(status := COMPLETED, completedAt := Some(now)))
  }

  /** The message the catch block reports for a thrown value. */
  function FaultMessage(f: Fault): string
    requires f != NoFault
  {
    if f.ErrorObject? then f.message else UnknownError
  }

  /** `processTransaction`: the unit of work commits what the callback wrote, unless
      the callback threw or the commit failed, in which case the store keeps its
      pre-state and the error becomes the result. */
  function Settlement(s: DbState, id: Id, now: Timestamp, fault: Fault): (r: Settled)
    ensures r.result.success <==> fault == NoFault && SettlementUnit(s, id, now).Returned?
    ensures r.result.success ==> r.result.error.None? && r.state == SettlementUnit(s, id, now).state
    ensures !r.result.success ==> r.state == s && r.result.error.Some?
  {
    match SettlementUnit(s, id, now)
    case Threw(message, _) => Settled(s, ProcessResult(false, Some(message)))
    case Returned(committed) =>
      if fault != NoFault then Settled(s, ProcessResult(false, Some(FaultMessage(fault))))
      else Settled(committed, ProcessResult(true, None))
  }

  /** The callback, run against the store handle. On a throw the writes made so far
      stay in the store: undoing them is the unit of work's job. */
  method SettlementCallback(db: Store, transactionId: Id, now: Timestamp) returns (thrown: Option<string>)
    modifies db
    ensures match SettlementUnit(old(db.State()), transactionId, now)
      case Returned(committed) => thrown == None && db.State() == committed
      case Threw(message, partial) => thrown == Some(message) && db.State() == partial
  {
    var found := db.FindTransaction(transactionId, TransactionStatus.PENDING);
    if found.None? {
      return Some(NotFoundOrProcessed);
    }
    var transaction := found.value;
    var senderBalance := db.FindBalance(transaction.fromUserId);
    var recipientBalance := db.FindBalance(transaction.toUserId);
    if senderBalance.None? {
      return Some(SenderNotFound);
    }
    if recipientBalance.None? {
      return Some(RecipientNotFound);
    }
    if senderBalance.value < transaction.amount {
      db.UpdateTransaction(transactionId, transaction.(status := FAILED,
        failureReason := Some(InsufficientBalance), completedAt := Some(now)));
      return Some(InsufficientBalance);
    }
    db.IncrementBalance(transaction.fromUserId, -transaction.amount, now);
    db.IncrementBalance(transaction.toUserId, transaction.amount, now);
    db.UpdateTransaction(transactionId, transaction.(status := COMPLETED, completedAt := Some(now)));
    return None;
  }

  /** `processTransaction(transactionId)`: never throws to its caller; every error is
      returned as `{ success: false, error }`. */
  method ProcessTransaction(db: Store, transactionId: Id, now: Timestamp, fault: Fault)
    returns (r: ProcessResult)
    modifies db
    ensures Settled(db.State(), r) == Settlement(old(db.State()), transactionId, now, fault)
  {
    var before := db.State();
    var thrown := SettlementCallback(db, transactionId, now);
    if thrown.None? && fault != NoFault {
      thrown := Some(FaultMessage(fault));
    }
    if thrown.Some? {
      db.Restore(before);
      r := ProcessResult(false, thrown);
    } else {
      r := ProcessResult(true, None);
    }
  }

  // ----- the backlog query -----

  function CreatedAt(t: Transaction): int
  {
    t.createdAt
  }

  predicate IsPendingRow(t: Transaction)
  {
    t.status == TransactionStatus.PENDING
  }

  /** `fetchPendingTransactions(limit)`: the oldest `limit` pending rows, oldest first. */
  function FetchPendingTransactions(rows: seq<Transaction>, limit: nat): (r: seq<Transaction>)
    ensures forall i :: 0 <= i < |r| ==> r[i].status == TransactionStatus.PENDING
    ensures Ordering.SortedBy(r, CreatedAt)
    ensures |r| <= limit
    ensures multiset(r) <= multiset(rows)
    ensures forall t :: t in rows && t.status == TransactionStatus.PENDING && t !in r ==>
              |r| == limit && forall i :: 0 <= i < |r| ==> r[i].createdAt <= t.createdAt
  {
    Ordering.SmallestBy(rows, IsPendingRow, CreatedAt, limit)
  }

  // ----- what a settlement does to the store -----

  /** A transaction that is missing or no longer PENDING is left alone, and the
      result reports it; in particular a COMPLETED or FAILED row never changes again. */
  lemma NotPendingIsNoop(s: DbState, id: Id, now: Timestamp, fault: Fault)
    requires !IsPending(s, id)
    ensures Settlement(s, id, now, fault) == Settled(s, ProcessResult(false, Some(NotFoundOrProcessed)))
  {
  }

  /** A missing sender or recipient row aborts the unit: nothing changes. */
  lemma MissingParticipantAborts(s: DbState, id: Id, now: Timestamp, fault: Fault)
    requires IsPending(s, id)
    requires s.transactions[id].fromUserId !in s.users || s.transactions[id].toUserId !in s.users
    ensures Settlement(s, id, now, fault) == Settled(s, ProcessResult(false, Some(
      if s.transactions[id].fromUserId !in s.users then SenderNotFound else RecipientNotFound)))
  {
  }

  /** In a well-formed store the foreign keys hold, so those two aborts cannot occur. */
  lemma WellFormedHasParticipants(s: DbState, id: Id, now: Timestamp, fault: Fault)
    requires WellFormed(s)
    ensures SettlementUnit(s, id, now).Threw? ==>
              SettlementUnit(s, id, now).message !in {SenderNotFound, RecipientNotFound}
  {
  }

  /** On insufficient balance the callback has written FAILED when it throws, but the
      throw aborts the unit: the write is discarded, balances are untouched and the
      transaction stays PENDING, so the next backlog query returns it again. */
  lemma InsufficientBalanceRollsBack(s: DbState, id: Id, now: Timestamp, fault: Fault)
    requires IsPending(s, id)
    requires s.transactions[id].fromUserId in s.users && s.transactions[id].toUserId in s.users
    requires s.users[s.transactions[id].fromUserId].balance < s.transactions[id].amount
    ensures SettlementUnit(s, id, now).Threw?
    ensures SettlementUnit(s, id, now).partial.transactions[id].status == FAILED
    ensures Settlement(s, id, now, fault) == Settled(s, ProcessResult(false, Some(InsufficientBalance)))
    ensures IsPending(Settlement(s, id, now, fault).state, id)
  {
  }

  /** A failed commit rolls back whatever the callback wrote. */
  lemma CommitFaultRollsBack(s: DbState, id: Id, now: Timestamp, fault: Fault)
    requires fault != NoFault
    ensures Settlement(s, id, now, fault).state == s
    ensures !Settlement(s, id, now, fault).result.success
  {
  }

  /** Every outcome is a value: success carries no error, failure always carries one,
      and a failure leaves the store exactly as it was. */
  lemma ResultIsTotal(s: DbState, id: Id, now: Timestamp, fault: Fault)
    ensures var r := Settlement(s, id, now, fault);
      (r.result.success <==> r.result.error.None?) && (!r.result.success ==> r.state == s)
  {
  }

  /** A successful settlement: the transaction was PENDING and funded, the sender is
      debited and the recipient credited by exactly the amount (a self-transfer nets to
      zero), no other account changes, and the transaction becomes COMPLETED. */
  lemma SettlementSuccess(s: DbState, id: Id, now: Timestamp, fault: Fault)
    requires Settlement(s, id, now, fault).result.success
    ensures fault == NoFault && IsPending(s, id)
    ensures var t := s.transactions[id];
      var s' := Settlement(s, id, now, fault).state;
      && t.fromUserId in s.users && t.toUserId in s.users
      && s.users[t.fromUserId].balance >= t.amount
      && s'.users.Keys == s.users.Keys
      && (t.fromUserId != t.toUserId ==>
            && s'.users[t.fromUserId].balance == s.users[t.fromUserId].balance - t.amount
            && s'.users[t.toUserId].balance == s.users[t.toUserId].balance + t.amount)
      && (t.fromUserId == t.toUserId ==> s'.users[t.fromUserId].balance == s.users[t.fromUserId].balance)
      && s'.users[t.fromUserId].balance + s'.users[t.toUserId].balance
         == s.users[t.fromUserId].balance + s.users[t.toUserId].balance
      && (forall k :: k in s.users && k != t.fromUserId && k != t.toUserId ==> s'.users[k] == s.users[k])
      && s'.transactions == s.transactions[id := t.(status := COMPLETED, completedAt := Some(now))]
      && s'.txOrder == s.txOrder && s'.payRequests == s.payRequests && s'.prOrder == s.prOrder
      && Settlement(s, id, now, fault).result == ProcessResult(true, None)
  {
  }

  /** Settling the same id twice mutates the store at most once: either the first call
      changed nothing, or the second finds the row already processed. */
  lemma SettleTwiceMutatesOnce(s: DbState, id: Id, now1: Timestamp, f1: Fault, now2: Timestamp, f2: Fault)
    ensures var s1 := Settlement(s, id, now1, f1).state;
      s1 == s || Settlement(s1, id, now2, f2) == Settled(s1, ProcessResult(false, Some(NotFoundOrProcessed)))
  {
    var first := Settlement(s, id, now1, f1);
    if first.result.success {
      SettlementSuccess(s, id, now1, f1);
      assert !IsPending(first.state, id);
    }
  }

  /** Funds are conserved across the whole ledger: no settlement creates or destroys money. */
  lemma SettlementConservesTotal(s: DbState, id: Id, now: Timestamp, fault: Fault)
    ensures TotalBalance(Settlement(s, id, now, fault).state.users) == TotalBalance(s.users)
  {
    var r := Settlement(s, id, now, fault);
    if r.result.success {
      var t := s.transactions[id];
      var debited := AdjustBalance(s, t.fromUserId, -t.amount, now);
      var credited := AdjustBalance(debited, t.toUserId, t.amount, now);
      assert r.state.users == credited.users;
      TotalBalanceUpdate(s.users, t.fromUserId, debited.users[t.fromUserId]);
      assert debited.users == s.users[t.fromUserId := debited.users[t.fromUserId]];
      TotalBalanceUpdate(debited.users, t.toUserId, credited.users[t.toUserId]);
      assert credited.users == debited.users[t.toUserId := credited.users[t.toUserId]];
    }
  }

  /** Balances are only changed when the sender can cover the amount, so with positive
      amounts no balance that was non-negative becomes negative. */
  lemma SettlementKeepsBalancesNonNegative(s: DbState, id: Id, now: Timestamp, fault: Fault)
    requires WellFormed(s) && NonNegativeBalances(s.users)
    ensures NonNegativeBalances(Settlement(s, id, now, fault).state.users)
  {
    if Settlement(s, id, now, fault).result.success {
      SettlementSuccess(s, id, now, fault);
    }
  }

  /** The writes of a callback that returns keep the store well formed, and add or
      remove no rows. */
  lemma CommittedKeepsWellFormed(s: DbState, id: Id, now: Timestamp)
    requires WellFormed(s) && id in s.transactions
    ensures var s' := Committed(s, id, now);
      && WellFormed(s')
      && s'.transactions.Keys == s.transactions.Keys && s'.txOrder == s.txOrder
      && s'.payRequests == s.payRequests && s'.prOrder == s.prOrder
  {
    var t := s.transactions[id];
    var debited := AdjustBalance(s, t.fromUserId, -t.amount, now);
    var credited := AdjustBalance(debited, t.toUserId, t.amount, now);
    var settled := t.(status := COMPLETED, completedAt := Some(now));
    assert Committed(s, id, now) == PutTransaction(credited, id, settled);
    AdjustBalanceKeepsWellFormed(s, t.fromUserId, -t.amount, now);
    AdjustBalanceKeepsWellFormed(debited, t.toUserId, t.amount, now);
    PutTransactionKeepsWellFormed(credited, id, settled);
  }

  /** Settlement keeps the store well formed. It adds and removes no rows, so the
      scan order of both tables is unchanged. */
  lemma SettlementKeepsWellFormed(s: DbState, id: Id, now: Timestamp, fault: Fault)
    requires WellFormed(s)
    ensures var s' := Settlement(s, id, now, fault).state;
      && WellFormed(s')
      && s'.transactions.Keys == s.transactions.Keys && s'.txOrder == s.txOrder
      && s'.payRequests == s.payRequests && s'.prOrder == s.prOrder
  {
    var u := SettlementUnit(s, id, now);
    if fault == NoFault && u.Returned? {
      CommittedKeepsWellFormed(s, id, now);
      assert Settlement(s, id, now, fault).state == u.state;
    } else {
      assert Settlement(s, id, now, fault).state == s;
    }
  }

  /** Settlement adds and removes no transaction, so the table's scan is still defined
      over the same ids in the same order, whether or not the store is well formed. */
  lemma SettlementKeepsScan(s: DbState, id: Id, now: Timestamp, fault: Fault)
    requires OrderedKeys(s.transactions, s.txOrder)
    ensures var s' := Settlement(s, id, now, fault).state;
      && OrderedKeys(s'.transactions, s'.txOrder)
      && s'.transactions.Keys == s.transactions.Keys && s'.txOrder == s.txOrder
  {
    var s' := Settlement(s, id, now, fault).state;
    if Settlement(s, id, now, fault).result.success {
      SettlementSuccess(s, id, now, fault);
      OrderedKeysSameKeys(s.transactions, s'.transactions, s.txOrder);
    }
  }
}
