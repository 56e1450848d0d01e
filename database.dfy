/** The ledger store: three tables keyed by id. Each table with a query over it also
    keeps its ids in insertion order, the order in which a scan returns rows before
    any `orderBy` is applied. */
module Database {
  import opened Models

  datatype DbState = DbState(
    users: map<Id, User>,
    transactions: map<Id, Transaction>,
    txOrder: seq<Id>,
    payRequests: map<Id, PayRequest>,
    prOrder: seq<Id>)

  /** `order` lists every key of `m` exactly once. */
  predicate OrderedKeys<V>(m: map<Id, V>, order: seq<Id>)
  {
    && (forall i :: 0 <= i < |order| ==> order[i] in m)
    && (forall k :: k in m ==> k in order)
    && (forall i, j :: 0 <= i < j < |order| ==> order[i] != order[j])
  }

  /** The email column of the row stored under `k`. */
  function EmailOf(users: map<Id, User>, k: Id): string
    requires k in users
  {
    users[k].email
  }

  /** The unique index on the users' email column. */
  predicate UniqueEmails(users: map<Id, User>)
  {
    forall a, b {:trigger EmailOf(users, a), EmailOf(users, b)} ::
      a in users && b in users && EmailOf(users, a) == EmailOf(users, b) ==> a == b
  }

  /** The primary key of every user row is its id. */
  predicate UsersKeyed(users: map<Id, User>)
  {
    forall k :: k in users ==> users[k].id == k
  }

  /** Every transaction row is keyed by its id, names existing users on both sides
      and moves a positive amount. */
  predicate TransactionsRefer(transactions: map<Id, Transaction>, userIds: set<Id>)
  {
    forall k :: k in transactions ==>
      && transactions[k].id == k
      && transactions[k].fromUserId in userIds
      && transactions[k].toUserId in userIds
      && transactions[k].amount > 0
  }

  /** Every pay-request row is keyed by its id, names existing users on both sides
      and asks for a positive amount. */
  predicate PayRequestsRefer(payRequests: map<Id, PayRequest>, userIds: set<Id>)
  {
    forall k :: k in payRequests ==>
      && payRequests[k].id == k
      && payRequests[k].merchantId in userIds
      && payRequests[k].consumerId in userIds
      && payRequests[k].amount > 0
  }

  /** What the store's schema guarantees: primary keys match the rows, emails are
      unique, foreign keys point at existing users, and amounts are positive (they
      pass the request validators before insertion). */
  predicate WellFormed(s: DbState)
  {
    && UsersKeyed(s.users)
    && UniqueEmails(s.users)
    && TransactionsRefer(s.transactions, s.users.Keys)
    && OrderedKeys(s.transactions, s.txOrder)
    && PayRequestsRefer(s.payRequests, s.users.Keys)
    && OrderedKeys(s.payRequests, s.prOrder)
  }

  /** A full scan of the transactions table. */
  function TransactionRows(s: DbState): (rows: seq<Transaction>)
    requires OrderedKeys(s.transactions, s.txOrder)
    ensures |rows| == |s.txOrder|
    ensures forall i :: 0 <= i < |rows| ==> rows[i] == s.transactions[s.txOrder[i]]
  {
    seq(|s.txOrder|, i requires 0 <= i < |s.txOrder| => s.transactions[s.txOrder[i]])
  }

  /** A full scan of the pay-requests table. */
  function PayRequestRows(s: DbState): (rows: seq<PayRequest>)
    requires OrderedKeys(s.payRequests, s.prOrder)
    ensures |rows| == |s.prOrder|
    ensures forall i :: 0 <= i < |rows| ==> rows[i] == s.payRequests[s.prOrder[i]]
  {
    seq(|s.prOrder|, i requires 0 <= i < |s.prOrder| => s.payRequests[s.prOrder[i]])
  }

  /** Every row of the table shows up in its scan. */
  lemma RowInScan(s: DbState, id: Id)
    requires OrderedKeys(s.transactions, s.txOrder) && id in s.transactions
    ensures s.transactions[id] in TransactionRows(s)
  {
    var i :| 0 <= i < |s.txOrder| && s.txOrder[i] == id;
    assert TransactionRows(s)[i] == s.transactions[id];
  }

  /** `findUnique({ where: { email } })`. */
  function UserByEmail(users: map<Id, User>, email: string): (r: Option<User>)
    requires UniqueEmails(users)
    ensures r.Some? <==> exists k :: k in users && users[k].email == email
    ensures r.Some? ==> r.value.email == email && exists k :: k in users && users[k] == r.value
  {
    if exists k :: k in users && users[k].email == email then
      var k :| k in users && EmailOf(users, k) == email;
      Some(users[k])
    else None
  }

  // ----- the writes the core performs, as functions of the state -----

  /** `user.update({ data: { balance: { increment: delta } } })`; `updatedAt` is
      maintained by the store. */
  function AdjustBalance(s: DbState, id: Id, delta: int, now: Timestamp): (r: DbState)
    requires id in s.users
    ensures r.users.Keys == s.users.Keys
    ensures r.users[id].balance == s.users[id].balance + delta
    ensures forall k :: k in s.users && k != id ==> r.users[k] == s.users[k]
    ensures r.transactions == s.transactions && r.txOrder == s.txOrder
    ensures r.payRequests == s.payRequests && r.prOrder == s.prOrder
  {
    s.(users := AdjustUser(s.users, id, delta, now))
  }

  /** The users table after adding `delta` to one balance. */
  function AdjustUser(users: map<Id, User>, id: Id, delta: int, now: Timestamp): map<Id, User>
    requires id in users
  {
    users[id := users[id].(balance := users[id].balance + delta, updatedAt := now)]
  }

  /** `transaction.update({ where: { id } })`: overwrites the row stored under `id`.
      The store refuses an update of a missing row, so the row must exist. */
  function PutTransaction(s: DbState, id: Id, t: Transaction): DbState
    requires id in s.transactions
  {
    s.(transactions := s.transactions[id := t])
  }

  /** Inserts a new transaction row at the end of the table. */
  function InsertTransaction(s: DbState, t: Transaction): DbState
  {
    s.(transactions := s.transactions[t.id := t], txOrder := s.txOrder + [t.id])
  }

  /** `payRequest.update({ where: { id } })`: overwrites the row stored under `id`,
      which must exist. */
  function PutPayRequest(s: DbState, id: Id, p: PayRequest): DbState
    requires id in s.payRequests
  {
    s.(payRequests := s.payRequests[id := p])
  }

  /** Inserts a new pay-request row at the end of the table. */
  function InsertPayRequest(s: DbState, p: PayRequest): DbState
  {
    s.(payRequests := s.payRequests[p.id := p], prOrder := s.prOrder + [p.id])
  }

  /** Appending a fresh key keeps the insertion order complete and duplicate-free. */
  lemma OrderedKeysInsert<V>(m: map<Id, V>, order: seq<Id>, k: Id, v: V)
    requires OrderedKeys(m, order) && k !in m
    ensures OrderedKeys(m[k := v], order + [k])
  {
    var order' := order + [k];
    assert forall i :: 0 <= i < |order| ==> order'[i] == order[i];
  }

  /** Inserting a fresh, well-formed row keeps the store well formed and lists the row last. */
  lemma InsertTransactionWellFormed(s: DbState, t: Transaction)
    requires WellFormed(s) && t.id !in s.transactions
    requires t.fromUserId in s.users && t.toUserId in s.users && t.amount > 0
    ensures WellFormed(InsertTransaction(s, t))
    ensures TransactionRows(InsertTransaction(s, t)) == TransactionRows(s) + [t]
  {
    OrderedKeysInsert(s.transactions, s.txOrder, t.id, t);
    var r := InsertTransaction(s, t);
    assert forall i :: 0 <= i < |s.txOrder| ==> r.txOrder[i] == s.txOrder[i];
  }

  lemma InsertPayRequestWellFormed(s: DbState, p: PayRequest)
    requires WellFormed(s) && p.id !in s.payRequests
    requires p.merchantId in s.users && p.consumerId in s.users && p.amount > 0
    ensures WellFormed(InsertPayRequest(s, p))
    ensures PayRequestRows(InsertPayRequest(s, p)) == PayRequestRows(s) + [p]
  {
    OrderedKeysInsert(s.payRequests, s.prOrder, p.id, p);
    var r := InsertPayRequest(s, p);
    assert forall i :: 0 <= i < |s.prOrder| ==> r.prOrder[i] == s.prOrder[i];
  }

  /** `OrderedKeys` only looks at the keys of the map. */
  lemma OrderedKeysSameKeys<V>(m: map<Id, V>, m': map<Id, V>, order: seq<Id>)
    requires OrderedKeys(m, order) && m'.Keys == m.Keys
    ensures OrderedKeys(m', order)
  {
  }

  /** A balance change keeps the users table keyed by id and its emails unique. */
  lemma AdjustUserKeepsKeys(users: map<Id, User>, id: Id, delta: int, now: Timestamp)
    requires UsersKeyed(users) && UniqueEmails(users) && id in users
    ensures var users' := AdjustUser(users, id, delta, now);
      UsersKeyed(users') && UniqueEmails(users') && users'.Keys == users.Keys
  {
    var users' := AdjustUser(users, id, delta, now);
    assert forall a, b {:trigger EmailOf(users', a), EmailOf(users', b)} ::
      a in users' && b in users' && EmailOf(users', a) == EmailOf(users', b) ==>
      EmailOf(users, a) == EmailOf(users, b);
  }

  /** Replacing a transaction row with one that has the same id, participants and
      amount keeps every row referring to existing users. */
  lemma TransactionPutKeepsRefer(transactions: map<Id, Transaction>, userIds: set<Id>, id: Id, t: Transaction)
    requires TransactionsRefer(transactions, userIds) && id in transactions
    requires t.id == id && t.fromUserId == transactions[id].fromUserId
    requires t.toUserId == transactions[id].toUserId && t.amount == transactions[id].amount
    ensures TransactionsRefer(transactions[id := t], userIds)
    ensures transactions[id := t].Keys == transactions.Keys
  {
  }

  /** A balance change keeps the store well formed. */
  lemma AdjustBalanceKeepsWellFormed(s: DbState, id: Id, delta: int, now: Timestamp)
    requires WellFormed(s) && id in s.users
    ensures WellFormed(AdjustBalance(s, id, delta, now))
  {
    AdjustUserKeepsKeys(s.users, id, delta, now);
  }

  /** Overwriting a transaction with one that has the same id, participants and amount
      keeps the store well formed. */
  lemma PutTransactionKeepsWellFormed(s: DbState, id: Id, t: Transaction)
    requires WellFormed(s) && id in s.transactions
    requires t.id == id && t.fromUserId == s.transactions[id].fromUserId
    requires t.toUserId == s.transactions[id].toUserId && t.amount == s.transactions[id].amount
    ensures WellFormed(PutTransaction(s, id, t))
  {
    TransactionPutKeepsRefer(s.transactions, s.users.Keys, id, t);
    OrderedKeysSameKeys(s.transactions, s.transactions[id := t], s.txOrder);
  }

  /** Replacing a pay-request row with one that has the same id, parties and amount
      keeps every row referring to existing users. */
  lemma PayRequestPutKeepsRefer(payRequests: map<Id, PayRequest>, userIds: set<Id>, id: Id, p: PayRequest)
    requires PayRequestsRefer(payRequests, userIds) && id in payRequests
    requires p.id == id && p.merchantId == payRequests[id].merchantId
    requires p.consumerId == payRequests[id].consumerId && p.amount == payRequests[id].amount
    ensures PayRequestsRefer(payRequests[id := p], userIds)
    ensures payRequests[id := p].Keys == payRequests.Keys
  {
  }

  /** Overwriting a pay request with one that has the same id, parties and amount keeps
      the store well formed. */
  lemma PutPayRequestKeepsWellFormed(s: DbState, id: Id, p: PayRequest)
    requires WellFormed(s) && id in s.payRequests
    requires p.id == id && p.merchantId == s.payRequests[id].merchantId
    requires p.consumerId == s.payRequests[id].consumerId && p.amount == s.payRequests[id].amount
    ensures WellFormed(PutPayRequest(s, id, p))
  {
    PayRequestPutKeepsRefer(s.payRequests, s.users.Keys, id, p);
    OrderedKeysSameKeys(s.payRequests, s.payRequests[id := p], s.prOrder);
  }

  // ----- funds -----

  predicate NonNegativeBalances(users: map<Id, User>)
  {
    forall k :: k in users ==> users[k].balance >= 0
  }

  /** The sum of all balances in the ledger. */
  ghost function TotalBalance(users: map<Id, User>): int
    decreases |users|
  {
    if users == map[] then 0
    else
      var k :| k in users;
      users[k].balance + TotalBalance(users - {k})
  }

  /** The sum does not depend on which account is counted first. */
  lemma {:induction false} TotalBalanceRemove(users: map<Id, User>, k: Id)
    requires k in users
    ensures TotalBalance(users) == users[k].balance + TotalBalance(users - {k})
    decreases |users|
  {
    var j :| j in users && TotalBalance(users) == users[j].balance + TotalBalance(users - {j});
    if j != k {
      assert (users - {j}) - {k} == (users - {k}) - {j};
      TotalBalanceRemove(users - {j}, k);
      TotalBalanceRemove(users - {k}, j);
    }
  }

  /** Replacing one account changes the sum by the change in that account's balance. */
  lemma TotalBalanceUpdate(users: map<Id, User>, k: Id, u: User)
    requires k in users
    ensures TotalBalance(users[k := u]) == TotalBalance(users) - users[k].balance + u.balance
  {
    TotalBalanceRemove(users, k);
    TotalBalanceRemove(users[k := u], k);
    assert users[k := u] - {k} == users - {k};
  }

  /** A store handle: the tables as fields that the core's writes update in place.
      `State()` is the abstract value every method is specified against. */
  class Store {
    var users: map<Id, User>
    var transactions: map<Id, Transaction>
    var txOrder: seq<Id>
    var payRequests: map<Id, PayRequest>
    var prOrder: seq<Id>

    function State(): DbState
      reads this
    {
      DbState(users, transactions, txOrder, payRequests, prOrder)
    }

    ghost predicate Valid()
      reads this
    {
      WellFormed(State())
    }

    constructor (s: DbState)
      ensures State() == s
    {
      users, transactions, txOrder := s.users, s.transactions, s.txOrder;
      payRequests, prOrder := s.payRequests, s.prOrder;
    }

    /** `transaction.findFirst({ where: { id, status } })`. */
    method FindTransaction(id: Id, status: TransactionStatus) returns (t: Option<Transaction>)
      ensures t.Some? <==> id in transactions && transactions[id].status == status
      ensures t.Some? ==> t.value == transactions[id]
    {
      if id in transactions && transactions[id].status == status {
        t := Some(transactions[id]);
      } else {
        t := None;
      }
    }

    /** `SELECT id, balance FROM users WHERE id = ...`: the balance, if the row exists. */
    method FindBalance(id: Id) returns (balance: Option<int>)
      ensures balance.Some? <==> id in users
      ensures balance.Some? ==> balance.value == users[id].balance
    {
      balance := if id in users then Some(users[id].balance) else None;
    }

    method FindUserByEmail(email: string) returns (u: Option<User>)
      requires Valid()
      ensures u == UserByEmail(users, email)
    {
      u := UserByEmail(users, email);
    }

    method FindUser(id: Id) returns (u: Option<User>)
      ensures u.Some? <==> id in users
      ensures u.Some? ==> u.value == users[id]
    {
      u := if id in users then Some(users[id]) else None;
    }

    method FindPayRequest(id: Id) returns (p: Option<PayRequest>)
      ensures p.Some? <==> id in payRequests
      ensures p.Some? ==> p.value == payRequests[id]
    {
      p := if id in payRequests then Some(payRequests[id]) else None;
    }

    method IncrementBalance(id: Id, delta: int, now: Timestamp)
      requires id in users
      modifies this
      ensures State() == AdjustBalance(old(State()), id, delta, now)
    {
      var u := users[id];
      users := users[id := u.(balance := u.balance + delta, updatedAt := now)];
    }

    method UpdateTransaction(id: Id, t: Transaction)
      requires id in transactions
      modifies this
      ensures State() == PutTransaction(old(State()), id, t)
    {
      transactions := transactions[id := t];
    }

    method CreateTransaction(t: Transaction)
      modifies this
      ensures State() == InsertTransaction(old(State()), t)
    {
      transactions := transactions[t.id := t];
      txOrder := txOrder + [t.id];
    }

    method UpdatePayRequest(id: Id, p: PayRequest)
      requires id in payRequests
      modifies this
      ensures State() == PutPayRequest(old(State()), id, p)
    {
      payRequests := payRequests[id := p];
    }

    method CreatePayRequest(p: PayRequest)
      modifies this
      ensures State() == InsertPayRequest(old(State()), p)
    {
      payRequests := payRequests[p.id := p];
      prOrder := prOrder + [p.id];
    }

    /** Rolls the store back to a saved state: how an aborted unit of work ends. */
    method Restore(s: DbState)
      modifies this
      ensures State() == s
    {
      users, transactions, txOrder := s.users, s.transactions, s.txOrder;
      payRequests, prOrder := s.payRequests, s.prOrder;
    }
  }
}
