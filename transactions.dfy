/** The transaction routes: `/transfer` records a pending transfer after its guards
    (the money moves later, when the sweeper settles it), `/history` lists the
    caller's transactions a page at a time, and `/:id` shows one of them. */
module TransactionRoutes {
  import opened Models
  import opened Database
  import opened Schemas
  import opened ErrorHandler
  import Ordering

  const AuthRequired := "Authentication required"
  const RecipientNotFound := "Recipient not found"
  const SelfTransfer := "Cannot transfer to yourself"
  const SenderNotFound := "Sender not found"
  const InsufficientBalance := "Insufficient balance"
  const TransactionNotFound := "Transaction not found"
  const AccessDenied := "Access denied"

  // ----- POST /transfer -----

  /** The row a successful transfer inserts. */
  function TransferRow(id: Id, from: Id, to: Id, amount: int, now: Timestamp): Transaction
  {
    Transaction(id, from, to, amount, TransactionStatus.PENDING, TRANSFER, now, None, None)
  }

  /** The transfer handler as a function of the store before it. Its guards, in order:
      the caller is known, the body validates, the recipient's e-mail is registered,
      the recipient is not the caller, the caller's row exists and its balance covers
      the amount. The balance check is advisory: nothing is reserved. */
  function TransferOutcome(s: DbState, user: Option<JwtPayload>, body: Body, isEmail: string -> bool,
                           newId: Id, now: Timestamp): (r: (Reply<Transaction>, DbState))
    requires WellFormed(s)
    ensures user.None? ==> r.0 == Fail(AuthRequired, 401)
    ensures user.Some? && ParseTransfer(body, isEmail).None? ==> r.0 == Failed(ValidationFailed)
    ensures user.Some? && ParseTransfer(body, isEmail).Some? ==>
              var input := ParseTransfer(body, isEmail).value;
              var recipient := UserByEmail(s.users, input.toEmail);
              && (recipient.None? ==> r.0 == Fail(RecipientNotFound, 404))
              && (recipient.Some? && recipient.value.id == user.value.userId ==> r.0 == Fail(SelfTransfer, 400))
              && (recipient.Some? && recipient.value.id != user.value.userId && user.value.userId !in s.users ==>
                    r.0 == Fail(SenderNotFound, 404))
              && ((recipient.Some? && recipient.value.id != user.value.userId && user.value.userId in s.users
                   && s.users[user.value.userId].balance < input.amount) ==> r.0 == Fail(InsufficientBalance, 400))
    ensures r.0.Failed? ==> r.1 == s
    ensures r.0.Failed? && r.0.error.App? ==> r.0.error.app.statusCode in {400, 401, 404}
    ensures r.0.Failed? ==> !r.0.error.Internal?
    ensures r.0.Ok? ==> r.0.status == 201 && r.1 == InsertTransaction(s, r.0.value)
  {
    if user.None? then (Fail(AuthRequired, 401), s)
    else
      match ParseTransfer(body, isEmail)
      case None => (Failed(ValidationFailed), s)
      case Some(input) =>
        match UserByEmail(s.users, input.toEmail)
        case None => (Fail(RecipientNotFound, 404), s)
        case Some(recipient) =>
          if recipient.id == user.value.userId then (Fail(SelfTransfer, 400), s)
          else if user.value.userId !in s.users then (Fail(SenderNotFound, 404), s)
          else if s.users[user.value.userId].balance < input.amount then (Fail(InsufficientBalance, 400), s)
          else
            var t := TransferRow(newId, user.value.userId, recipient.id, input.amount, now);
            (Ok(201, t), InsertTransaction(s, t))
  }

  /** `POST /transfer` against the store. `newId` is the id the store generates for
      the new row. */
  method Transfer(db: Store, user: Option<JwtPayload>, body: Body, isEmail: string -> bool, newId: Id, now: Timestamp)
    returns (reply: Reply<Transaction>)
    requires db.Valid() && newId !in db.transactions
    modifies db
    ensures (reply, db.State()) == TransferOutcome(old(db.State()), user, body, isEmail, newId, now)
    ensures db.Valid()
  {
    ghost var s := db.State();
    if user.None? {
      return Fail(AuthRequired, 401);
    }
    var input := ParseTransfer(body, isEmail);
    if input.None? {
      return Failed(ValidationFailed);
    }
    var recipient := db.FindUserByEmail(input.value.toEmail);
    if recipient.None? {
      return Fail(RecipientNotFound, 404);
    }
    if recipient.value.id == user.value.userId {
      return Fail(SelfTransfer, 400);
    }
    var sender := db.FindUser(user.value.userId);
    if sender.None? {
      return Fail(SenderNotFound, 404);
    }
    if sender.value.balance < input.value.amount {
      return Fail(InsufficientBalance, 400);
    }
    var t := TransferRow(newId, user.value.userId, recipient.value.id, input.value.amount, now);
    TransferKeepsWellFormed(s, user, body, isEmail, newId, now);
    db.CreateTransaction(t);
    reply := Ok(201, t);
  }

  /** A transfer goes through exactly when every guard passes; when one fails the
      store is untouched. */
  lemma TransferGuards(s: DbState, user: Option<JwtPayload>, body: Body, isEmail: string -> bool, newId: Id, now: Timestamp)
    requires WellFormed(s)
    ensures var (reply, s') := TransferOutcome(s, user, body, isEmail, newId, now);
      && (reply.Ok? <==>
            && user.Some? && ParseTransfer(body, isEmail).Some?
            && UserByEmail(s.users, ParseTransfer(body, isEmail).value.toEmail).Some?
            && UserByEmail(s.users, ParseTransfer(body, isEmail).value.toEmail).value.id != user.value.userId
            && user.value.userId in s.users
            && s.users[user.value.userId].balance >= ParseTransfer(body, isEmail).value.amount)
      && (reply.Failed? ==> s' == s)
  {
  }

  /** A successful transfer inserts exactly one row: a PENDING TRANSFER from the caller
      to the registered owner of the e-mail, for the validated amount. No balance
      changes, and the new row is the last one a scan returns. */
  lemma TransferInserts(s: DbState, user: Option<JwtPayload>, body: Body, isEmail: string -> bool, newId: Id, now: Timestamp)
    requires WellFormed(s) && newId !in s.transactions
    requires TransferOutcome(s, user, body, isEmail, newId, now).0.Ok?
    ensures var (reply, s') := TransferOutcome(s, user, body, isEmail, newId, now);
      var t := reply.value;
      var input := ParseTransfer(body, isEmail).value;
      && reply.status == 201
      && t.id == newId && t.status == TransactionStatus.PENDING && t.kind == TRANSFER
      && t.fromUserId == user.value.userId && t.amount == input.amount && ValidAmount(t.amount)
      && t.toUserId in s.users && s.users[t.toUserId].email == input.toEmail && t.toUserId != t.fromUserId
      && s'.transactions == s.transactions[newId := t] && s'.users == s.users
      && s'.payRequests == s.payRequests
      && TransactionRows(s') == TransactionRows(s) + [t]
  {
    var (reply, s') := TransferOutcome(s, user, body, isEmail, newId, now);
    InsertTransactionWellFormed(s, reply.value);
  }

  lemma TransferKeepsWellFormed(s: DbState, user: Option<JwtPayload>, body: Body, isEmail: string -> bool, newId: Id, now: Timestamp)
    requires WellFormed(s) && newId !in s.transactions
    ensures WellFormed(TransferOutcome(s, user, body, isEmail, newId, now).1)
  {
    var (reply, s') := TransferOutcome(s, user, body, isEmail, newId, now);
    if reply.Ok? {
      InsertTransactionWellFormed(s, reply.value);
    }
  }

  // ----- parseInt -----

  /** The characters `parseInt` skips before the number: the ECMAScript white space
      and line terminators. */
  predicate IsSpace(c: char)
  {
    var n := c as int;
    n == 0x09 || n == 0x0A || n == 0x0B || n == 0x0C || n == 0x0D || n == 0x20 || n == 0xA0
    || n == 0x1680 || (0x2000 <= n <= 0x200A) || n == 0x2028 || n == 0x2029 || n == 0x202F
    || n == 0x205F || n == 0x3000 || n == 0xFEFF
  }

  function TrimStart(s: string): (r: string)
    ensures |r| <= |s| && r == s[|s| - |r|..]
    ensures r != [] ==> !IsSpace(r[0])
  {
    if s != [] && IsSpace(s[0]) then TrimStart(s[1..]) else s
  }

  /** The value of a digit in any radix up to 36, if `c` is one. */
  function DigitValue(c: char): Option<nat>
  {
    if '0' <= c <= '9' then Some(c as int - '0' as int)
    else if 'a' <= c <= 'z' then Some(c as int - 'a' as int + 10)
    else if 'A' <= c <= 'Z' then Some(c as int - 'A' as int + 10)
    else None
  }

  /** The radix `parseInt` reads in: 16 after a `0x` prefix, 10 otherwise. */
  function Radix(hex: bool): nat
  {
    if hex then 16 else 10
  }

  predicate IsDigit(c: char, hex: bool)
  {
    DigitValue(c).Some? && DigitValue(c).value < Radix(hex)
  }

  /** The length of the longest prefix of `s` made of digits. */
  function DigitRun(s: string, hex: bool): (n: nat)
    ensures n <= |s|
    ensures forall i :: 0 <= i < n ==> IsDigit(s[i], hex)
    ensures n < |s| ==> !IsDigit(s[n], hex)
  {
    if s != [] && IsDigit(s[0], hex) then 1 + DigitRun(s[1..], hex) else 0
  }

  /** The number the digits `ds` spell, most significant first. */
  function ValueOf(ds: string, hex: bool): nat
    requires forall i :: 0 <= i < |ds| ==> IsDigit(ds[i], hex)
  {
    if ds == [] then 0
    else
      assert IsDigit(ds[|ds| - 1], hex);
      var high := ValueOf(ds[..|ds| - 1], hex);
      (if hex then high * 16 else high * 10) + DigitValue(ds[|ds| - 1]).value
  }

  /** The digits after the sign: hexadecimal after a `0x` or `0X` prefix, decimal
      otherwise, up to the first character that is not a digit. */
  function ParseMagnitude(u: string): Option<nat>
  {
    var hex := 2 <= |u| && u[0] == '0' && (u[1] == 'x' || u[1] == 'X');
    var digits := if hex then u[2..] else u;
    var n := DigitRun(digits, hex);
    if n == 0 then None else Some(ValueOf(digits[..n], hex))
  }

  /** `parseInt(value)` with no radix: skip leading white space, read an optional sign,
      then the magnitude. `None` is `NaN`, which is also what an absent query
      parameter gives. */
  function ParseInt(value: Option<string>): (r: Option<int>)
  {
    if value.None? then None
    else
      var t := TrimStart(value.value);
      if t != [] && (t[0] == '-' || t[0] == '+') then Signed(t[0] == '-', ParseMagnitude(t[1..]))
      else Signed(false, ParseMagnitude(t))
  }

  /** The magnitude with its sign applied; `NaN` stays `NaN`. */
  function Signed(negative: bool, magnitude: Option<nat>): (r: Option<int>)
    ensures r.Some? <==> magnitude.Some?
    ensures r.Some? ==> r.value == if negative then -(magnitude.value as int) else magnitude.value as int
  {
    if magnitude.None? then None
    else if negative then Some(-(magnitude.value as int))
    else Some(magnitude.value as int)
  }

  function DigitChar(d: nat): char
    requires d < 10
  {
    ('0' as int + d) as char
  }

  /** The decimal spelling of `n`, as `String(n)` gives it. */
  function Decimal(n: nat): (r: string)
    ensures |r| >= 1 && forall i :: 0 <= i < |r| ==> '0' <= r[i] <= '9'
    ensures n > 0 ==> r[0] != '0'
  {
    if n < 10 then [DigitChar(n)] else Decimal(n / 10) + [DigitChar(n % 10)]
  }

  lemma {:induction false} DecimalValue(n: nat)
    ensures forall i :: 0 <= i < |Decimal(n)| ==> IsDigit(Decimal(n)[i], false)
    ensures ValueOf(Decimal(n), false) == n
    decreases n
  {
    var d := Decimal(n);
    assert forall i :: 0 <= i < |d| ==> IsDigit(d[i], false);
    if n >= 10 {
      DecimalValue(n / 10);
      assert d[..|d| - 1] == Decimal(n / 10);
    }
  }

  /** `parseInt` reads back the decimal spelling of any natural number, with or
      without a sign in front. */
  lemma ParseIntDecimal(n: nat)
    ensures ParseInt(Some(Decimal(n))) == Some(n as int)
    ensures ParseInt(Some("-" + Decimal(n))) == Some(-(n as int))
    ensures ParseInt(Some("+" + Decimal(n))) == Some(n as int)
  {
    var d := Decimal(n);
    DecimalMagnitude(n);
    TrimStartStops(d);
    ReadNegative(d, n);
    ReadPositive(d, n);
  }

  lemma ReadNegative(d: string, n: nat)
    requires ParseMagnitude(d) == Some(n)
    ensures ParseInt(Some("-" + d)) == Some(-(n as int))
  {
    SignedSpelling('-', d);
    assert "-" + d == ['-'] + d;
  }

  lemma ReadPositive(d: string, n: nat)
    requires ParseMagnitude(d) == Some(n)
    ensures ParseInt(Some("+" + d)) == Some(n as int)
  {
    SignedSpelling('+', d);
    assert "+" + d == ['+'] + d;
  }

  /** A sign in front of `d` is read as the sign of `d`'s magnitude. */
  lemma SignedSpelling(sign: char, d: string)
    requires sign == '-' || sign == '+'
    ensures ParseInt(Some([sign] + d)) == Signed(sign == '-', ParseMagnitude(d))
  {
    var m := [sign] + d;
    TrimStartStops(m);
    assert m[1..] == d;
  }

  /** Skipping white space stops at a digit or a sign. */
  lemma TrimStartStops(s: string)
    requires s != [] && ('0' <= s[0] <= '9' || s[0] == '-' || s[0] == '+')
    ensures TrimStart(s) == s
  {
    assert !IsSpace(s[0]);
  }

  /** The magnitude of a decimal spelling is its value. */
  lemma DecimalMagnitude(n: nat)
    ensures ParseMagnitude(Decimal(n)) == Some(n)
  {
    var d := Decimal(n);
    DecimalValue(n);
    DigitRunAll(d, false);
    assert d[..|d|] == d;
  }

  lemma {:induction false} DigitRunAll(s: string, hex: bool)
    requires forall i :: 0 <= i < |s| ==> IsDigit(s[i], hex)
    ensures DigitRun(s, hex) == |s|
    decreases |s|
  {
    if s != [] {
      DigitRunAll(s[1..], hex);
    }
  }

  // ----- GET /history -----

  const DefaultHistoryLimit := 20
  const MaxHistoryLimit := 100

  /** `||` on a parsed number: `NaN` and `0` are falsy and give way to the default. */
  function OrDefault(n: Option<int>, default: int): (r: int)
    ensures r == default || (n.Some? && n.value != 0 && r == n.value)
  {
    if n.None? || n.value == 0 then default else n.value
  }

  /** `Math.min(parseInt(limit) || 20, 100)`. */
  function HistoryLimit(limit: Option<string>): (r: int)
    ensures r <= MaxHistoryLimit
    ensures ParseInt(limit).None? || ParseInt(limit) == Some(0) ==> r == DefaultHistoryLimit
    ensures ParseInt(limit).Some? && 0 < ParseInt(limit).value ==> r == Ordering.Min(ParseInt(limit).value, MaxHistoryLimit)
    ensures r <= 0 ==> ParseInt(limit).Some? && r == ParseInt(limit).value < 0
  {
    Ordering.Min(OrDefault(ParseInt(limit), DefaultHistoryLimit), MaxHistoryLimit)
  }

  /** `parseInt(offset) || 0`. */
  function HistoryOffset(offset: Option<string>): (r: int)
    ensures ParseInt(offset).None? ==> r == 0
    ensures ParseInt(offset).Some? ==> r == ParseInt(offset).value
  {
    OrDefault(ParseInt(offset), 0)
  }

  /** The status filter: an absent or empty parameter filters nothing; any other
      value must name a status, or the store rejects the query. */
  datatype StatusFilter = AnyStatus | OnlyStatus(status: TransactionStatus) | BadStatus

  function HistoryStatus(status: Option<string>): (r: StatusFilter)
    ensures r.OnlyStatus? ==> status.Some? && TransactionStatusName(r.status) == status.value
    ensures r.AnyStatus? <==> status.None? || status == Some("")
    ensures forall st: TransactionStatus :: status == Some(TransactionStatusName(st)) ==> r == OnlyStatus(st)
    ensures r.BadStatus? <==> status.Some? && status.value != "" && ParseTransactionStatus(status.value).None?
  {
    if status.None? || status.value == "" then AnyStatus
    else
      match ParseTransactionStatus(status.value)
      case Some(st) => OnlyStatus(st)
      case None => BadStatus
  }

  /** The `where` of the history query. */
  predicate Visible(uid: Id, filter: StatusFilter, t: Transaction)
  {
    (t.fromUserId == uid || t.toUserId == uid) && (filter.OnlyStatus? ==> t.status == filter.status)
  }

  function NewestFirst(t: Transaction): int
  {
    -t.createdAt
  }

  /** Every row the caller may see under `filter`, newest first. */
  function HistoryMatches(s: DbState, uid: Id, filter: StatusFilter): (r: seq<Transaction>)
    requires OrderedKeys(s.transactions, s.txOrder)
  {
    Ordering.SortBy(Ordering.Filter(TransactionRows(s), t => Visible(uid, filter, t)), NewestFirst)
  }

  datatype HistoryPage = HistoryPage(transactions: seq<Transaction>, total: nat, limit: int, offset: int)

  /** `GET /history`: one page of the caller's transactions, newest first, with the
      count of all of them. A negative offset, or a status that names no status, is
      refused by the store. */
  function History(s: DbState, user: Option<JwtPayload>, limit: Option<string>, offset: Option<string>,
                   status: Option<string>): (r: Reply<HistoryPage>)
    requires OrderedKeys(s.transactions, s.txOrder)
    ensures user.None? ==> r == Fail(AuthRequired, 401)
    ensures r.Ok? <==> && user.Some? && !HistoryStatus(status).BadStatus?
                       && HistoryOffset(offset) >= 0 && HistoryLimit(limit) >= 0
    ensures r.Ok? ==> r.status == 200 && r.value.limit == HistoryLimit(limit) && r.value.offset == HistoryOffset(offset)
  {
    if user.None? then Fail(AuthRequired, 401)
    else
      var lim := HistoryLimit(limit);
      var off := HistoryOffset(offset);
      var filter := HistoryStatus(status);
      if filter.BadStatus? || off < 0 || lim < 0 then Failed(Internal("invalid query arguments"))
      else
        var matches := HistoryMatches(s, user.value.userId, filter);
        Ok(200, HistoryPage(Ordering.Page(matches, off, lim), |matches|, lim, off))
  }

  /** The page's bounds: `limit` is at most 100, at most `limit` rows come back,
      `offset` is never negative, and `total` counts every match in the table. */
  lemma HistoryPageBounds(s: DbState, user: Option<JwtPayload>, limit: Option<string>, offset: Option<string>,
                          status: Option<string>)
    requires OrderedKeys(s.transactions, s.txOrder)
    requires History(s, user, limit, offset, status).Ok?
    ensures var page := History(s, user, limit, offset, status).value;
      && page.limit == HistoryLimit(limit) && 0 <= page.limit <= MaxHistoryLimit
      && page.offset == HistoryOffset(offset) >= 0
      && |page.transactions| <= page.limit
      && page.total == |Ordering.Filter(TransactionRows(s), t => Visible(user.value.userId, HistoryStatus(status), t))|
  {
  }

  /** A history page is the whole slice of the full list that starts `offset` places
      in and holds `limit` rows, or fewer where the list runs out: `take`/`skip`. It is
      newest first, and holds only stored transactions the caller sent or received
      (with the requested status). */
  lemma HistoryPageContents(s: DbState, user: Option<JwtPayload>, limit: Option<string>, offset: Option<string>,
                            status: Option<string>)
    requires OrderedKeys(s.transactions, s.txOrder)
    requires History(s, user, limit, offset, status).Ok?
    ensures var page := History(s, user, limit, offset, status).value;
      var matches := HistoryMatches(s, user.value.userId, HistoryStatus(status));
      && 0 <= page.offset && 0 <= page.limit
      && page.transactions == Ordering.Page(matches, page.offset, page.limit)
      && |page.transactions| == Ordering.Min(page.limit, if page.offset <= |matches| then |matches| - page.offset else 0)
      && Ordering.SortedBy(page.transactions, NewestFirst)
      && (forall i :: 0 <= i < |page.transactions| ==>
            && page.offset + i < |matches| && page.transactions[i] == matches[page.offset + i]
            && Visible(user.value.userId, HistoryStatus(status), page.transactions[i])
            && page.transactions[i] in s.transactions.Values)
  {
    var page := History(s, user, limit, offset, status).value;
    var matches := HistoryMatches(s, user.value.userId, HistoryStatus(status));
    assert page.transactions == Ordering.Page(matches, page.offset, page.limit);
    HistoryMatchesSound(s, user.value.userId, HistoryStatus(status));
    Ordering.PageOfSorted(matches, NewestFirst, page.offset, page.limit);
  }

  /** Every entry of the full list is a stored transaction the caller may see. */
  lemma HistoryMatchesSound(s: DbState, uid: Id, filter: StatusFilter)
    requires OrderedKeys(s.transactions, s.txOrder)
    ensures forall i :: 0 <= i < |HistoryMatches(s, uid, filter)| ==>
              && Visible(uid, filter, HistoryMatches(s, uid, filter)[i])
              && HistoryMatches(s, uid, filter)[i] in s.transactions.Values
  {
    var rows := TransactionRows(s);
    var p := t => Visible(uid, filter, t);
    var matches := HistoryMatches(s, uid, filter);
    Ordering.SortedFilterSatisfies(rows, p, NewestFirst);
    forall i | 0 <= i < |matches|
      ensures matches[i] in s.transactions.Values
    {
      var t := matches[i];
      assert t in multiset(matches);
      assert t in Ordering.Filter(rows, p);
      var j :| 0 <= j < |rows| && rows[j] == t;
      var id := s.txOrder[j];
      assert id in s.transactions && s.transactions[id] == t;
    }
  }

  /** Every transaction of the caller's shows up in the full list, as often as in the
      table. */
  lemma HistoryMatchesComplete(s: DbState, uid: Id, filter: StatusFilter)
    requires OrderedKeys(s.transactions, s.txOrder)
    ensures forall id :: id in s.transactions && Visible(uid, filter, s.transactions[id]) ==>
              && s.transactions[id] in HistoryMatches(s, uid, filter)
              && multiset(HistoryMatches(s, uid, filter))[s.transactions[id]] == multiset(TransactionRows(s))[s.transactions[id]]
  {
    var rows := TransactionRows(s);
    var p := t => Visible(uid, filter, t);
    forall id | id in s.transactions && Visible(uid, filter, s.transactions[id])
      ensures s.transactions[id] in HistoryMatches(s, uid, filter)
      ensures multiset(HistoryMatches(s, uid, filter))[s.transactions[id]] == multiset(rows)[s.transactions[id]]
    {
      RowInScan(s, id);
      assert multiset(Ordering.Filter(rows, p))[s.transactions[id]] == multiset(rows)[s.transactions[id]];
      assert s.transactions[id] in multiset(HistoryMatches(s, uid, filter));
    }
  }

  /** Paging tiles the list: with the same filter, the page at `offset` followed by
      the page at `offset + limit` is the page at `offset` twice as long. */
  lemma HistoryPagesTile(s: DbState, uid: Id, filter: StatusFilter, offset: nat, limit: nat)
    requires OrderedKeys(s.transactions, s.txOrder)
    ensures var m := HistoryMatches(s, uid, filter);
      Ordering.Page(m, offset, limit) + Ordering.Page(m, offset + limit, limit) == Ordering.Page(m, offset, 2 * limit)
  {
    Ordering.PageSplit(HistoryMatches(s, uid, filter), offset, limit, limit);
  }

  // ----- GET /:id -----

  /** `GET /:id`: the transaction, shown only to its sender or recipient. */
  function GetTransaction(s: DbState, user: Option<JwtPayload>, id: Id): (r: Reply<Transaction>)
    ensures r.Ok? <==> user.Some? && id in s.transactions
                       && (s.transactions[id].fromUserId == user.value.userId || s.transactions[id].toUserId == user.value.userId)
    ensures r.Ok? ==> r.status == 200 && r.value == s.transactions[id]
    ensures user.Some? && id !in s.transactions ==> r == Fail(TransactionNotFound, 404)
    ensures user.Some? && id in s.transactions && r.Failed? ==> r == Fail(AccessDenied, 403)
  {
    if user.None? then Fail(AuthRequired, 401)
    else if id !in s.transactions then Fail(TransactionNotFound, 404)
    else
      var t := s.transactions[id];
      if t.fromUserId != user.value.userId && t.toUserId != user.value.userId then Fail(AccessDenied, 403)
      else Ok(200, t)
  }
}
