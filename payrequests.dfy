/** The pay-request routes: a merchant asks a consumer for money (`/create`), each
    side lists its requests (`/sent`, `/received`), and the consumer answers once,
    by approving (which records a pending transaction for the sweeper to settle) or
    rejecting. */
module PayRequestRoutes {
  import opened Models
  import opened Database
  import opened Schemas
  import opened ErrorHandler
  import Ordering

  const AuthRequired := "Authentication required"
  const ConsumerNotFound := "Consumer not found"
  const NotAConsumer := "Pay requests can only be sent to consumers"
  const SelfRequest := "Cannot create pay request to yourself"
  const PayRequestNotFound := "Pay request not found"
  const AccessDenied := "Access denied"
  const InsufficientBalance := "Insufficient balance"
  const AlreadyPrefix := "Pay request already "

  /** The row the store refuses when the merchant's own row is gone: the foreign key
      on `merchantId` is violated. */
  const MerchantMissing := "foreign key violation on merchantId"

  // ----- POST /create -----

  /** The create handler as a function of the store before it. Its guards, in order:
      the caller is known, the body validates, the e-mail belongs to a user, that user
      is a consumer, and it is not the caller. */
  function CreateOutcome(s: DbState, user: Option<JwtPayload>, body: Body, isEmail: string -> bool,
                         newId: Id, now: Timestamp): (r: (Reply<PayRequest>, DbState))
    requires WellFormed(s)
    ensures user.None? ==> r.0 == Fail(AuthRequired, 401)
    ensures user.Some? && ParseCreatePayRequest(body, isEmail).None? ==> r.0 == Failed(ValidationFailed)
    ensures user.Some? && ParseCreatePayRequest(body, isEmail).Some? ==>
              var consumer := UserByEmail(s.users, ParseCreatePayRequest(body, isEmail).value.consumerEmail);
              && (consumer.None? ==> r.0 == Fail(ConsumerNotFound, 404))
              && (consumer.Some? && consumer.value.userType != CONSUMER ==> r.0 == Fail(NotAConsumer, 400))
              && (consumer.Some? && consumer.value.userType == CONSUMER && consumer.value.id == user.value.userId ==>
                    r.0 == Fail(SelfRequest, 400))
              && ((consumer.Some? && consumer.value.userType == CONSUMER && consumer.value.id != user.value.userId
                   && user.value.userId !in s.users) ==> r.0 == Failed(Internal(MerchantMissing)))
    ensures r.0.Failed? ==> r.1 == s
    ensures r.0.Failed? && r.0.error.App? ==> r.0.error.app.statusCode in {400, 401, 404}
    ensures r.0.Failed? && r.0.error.Internal? ==> user.Some? && user.value.userId !in s.users
    ensures r.0.Ok? ==> r.0.status == 201 && r.1 == InsertPayRequest(s, r.0.value)
  {
    if user.None? then (Fail(AuthRequired, 401), s)
    else
      match ParseCreatePayRequest(body, isEmail)
      case None => (Failed(ValidationFailed), s)
      case Some(input) =>
        match UserByEmail(s.users, input.consumerEmail)
        case None => (Fail(ConsumerNotFound, 404), s)
        case Some(consumer) =>
          if consumer.userType != CONSUMER then (Fail(NotAConsumer, 400), s)
          else if consumer.id == user.value.userId then (Fail(SelfRequest, 400), s)
          else if user.value.userId !in s.users then (Failed(Internal(MerchantMissing)), s)
          else
            var p := PayRequest(newId, user.value.userId, consumer.id, input.amount, PayRequestStatus.PENDING,
                                input.message, now, now);
            (Ok(201, p), InsertPayRequest(s, p))
  }

  /** `POST /create` against the store; `newId` is the id the store generates. */
  method Create(db: Store, user: Option<JwtPayload>, body: Body, isEmail: string -> bool, newId: Id, now: Timestamp)
    returns (reply: Reply<PayRequest>)
    requires db.Valid() && newId !in db.payRequests
    modifies db
    ensures (reply, db.State()) == CreateOutcome(old(db.State()), user, body, isEmail, newId, now)
    ensures db.Valid()
  {
    ghost var s := db.State();
    if user.None? {
      return Fail(AuthRequired, 401);
    }
    var input := ParseCreatePayRequest(body, isEmail);
    if input.None? {
      return Failed(ValidationFailed);
    }
    var consumer := db.FindUserByEmail(input.value.consumerEmail);
    if consumer.None? {
      return Fail(ConsumerNotFound, 404);
    }
    if consumer.value.userType != CONSUMER {
      return Fail(NotAConsumer, 400);
    }
    if consumer.value.id == user.value.userId {
      return Fail(SelfRequest, 400);
    }
    var merchant := db.FindUser(user.value.userId);
    if merchant.None? {
      return Failed(Internal(MerchantMissing));
    }
    var p := PayRequest(newId, user.value.userId, consumer.value.id, input.value.amount, PayRequestStatus.PENDING,
                        input.value.message, now, now);
    CreateKeepsWellFormed(s, user, body, isEmail, newId, now);
    db.CreatePayRequest(p);
    reply := Ok(201, p);
  }

  /** A request is created exactly when every guard passes; a refused one leaves the
      store as it was. */
  lemma CreateGuards(s: DbState, user: Option<JwtPayload>, body: Body, isEmail: string -> bool, newId: Id, now: Timestamp)
    requires WellFormed(s)
    ensures var (reply, s') := CreateOutcome(s, user, body, isEmail, newId, now);
      var input := ParseCreatePayRequest(body, isEmail);
      && (reply.Ok? <==>
            && user.Some? && input.Some?
            && UserByEmail(s.users, input.value.consumerEmail).Some?
            && UserByEmail(s.users, input.value.consumerEmail).value.userType == CONSUMER
            && UserByEmail(s.users, input.value.consumerEmail).value.id != user.value.userId
            && user.value.userId in s.users)
      && (reply.Failed? ==> s' == s)
  {
  }

  /** A created request is PENDING, from the caller to the consumer registered under
      the e-mail, for the validated amount and message; it is the only change to the
      store, and no balance moves. */
  lemma CreateInserts(s: DbState, user: Option<JwtPayload>, body: Body, isEmail: string -> bool, newId: Id, now: Timestamp)
    requires WellFormed(s) && newId !in s.payRequests
    requires CreateOutcome(s, user, body, isEmail, newId, now).0.Ok?
    ensures var (reply, s') := CreateOutcome(s, user, body, isEmail, newId, now);
      var p := reply.value;
      var input := ParseCreatePayRequest(body, isEmail).value;
      && reply.status == 201
      && p.id == newId && p.status == PayRequestStatus.PENDING
      && p.merchantId == user.value.userId && p.consumerId in s.users
      && s.users[p.consumerId].email == input.consumerEmail && s.users[p.consumerId].userType == CONSUMER
      && p.consumerId != p.merchantId
      && p.amount == input.amount && ValidAmount(p.amount) && p.message == input.message
      && s'.payRequests == s.payRequests[newId := p] && s'.users == s.users && s'.transactions == s.transactions
      && PayRequestRows(s') == PayRequestRows(s) + [p]
  {
    var (reply, s') := CreateOutcome(s, user, body, isEmail, newId, now);
    InsertPayRequestWellFormed(s, reply.value);
  }

  lemma CreateKeepsWellFormed(s: DbState, user: Option<JwtPayload>, body: Body, isEmail: string -> bool, newId: Id, now: Timestamp)
    requires WellFormed(s) && newId !in s.payRequests
    ensures WellFormed(CreateOutcome(s, user, body, isEmail, newId, now).1)
  {
    var (reply, s') := CreateOutcome(s, user, body, isEmail, newId, now);
    if reply.Ok? {
      InsertPayRequestWellFormed(s, reply.value);
    }
  }

  // ----- PATCH /:id/approve and /:id/reject -----

  /** The guards approval and rejection share: the caller is known, the request
      exists, the caller is its consumer, and it is still PENDING. */
  function Answerable(s: DbState, user: Option<JwtPayload>, id: Id): (r: Option<Error>)
    ensures r.None? <==> && user.Some? && id in s.payRequests
                         && s.payRequests[id].consumerId == user.value.userId
                         && s.payRequests[id].status == PayRequestStatus.PENDING
    ensures user.None? ==> r == Some(App(AppError(AuthRequired, 401)))
    ensures user.Some? && id !in s.payRequests ==> r == Some(App(AppError(PayRequestNotFound, 404)))
    ensures user.Some? && id in s.payRequests && s.payRequests[id].consumerId != user.value.userId ==>
              r == Some(App(AppError(AccessDenied, 403)))
    ensures (user.Some? && id in s.payRequests && s.payRequests[id].consumerId == user.value.userId
             && s.payRequests[id].status != PayRequestStatus.PENDING) ==>
              r == Some(App(AppError(AlreadyPrefix + PayRequestStatusLower(s.payRequests[id].status), 400)))
  {
    if user.None? then Some(App(AppError(AuthRequired, 401)))
    else if id !in s.payRequests then Some(App(AppError(PayRequestNotFound, 404)))
    else
      var p := s.payRequests[id];
      if p.consumerId != user.value.userId then Some(App(AppError(AccessDenied, 403)))
      else if p.status != PayRequestStatus.PENDING then
        Some(App(AppError(AlreadyPrefix + PayRequestStatusLower(p.status), 400)))
      else None
  }

  datatype Approval = Approval(payRequest: PayRequest, transaction: Transaction)

  /** The payment an approval records: PENDING, from the consumer to the merchant. */
  function PaymentRow(p: PayRequest, newTxId: Id, now: Timestamp): Transaction
  {
    Transaction(newTxId, p.consumerId, p.merchantId, p.amount, TransactionStatus.PENDING, PAY_REQUEST, now, None, None)
  }

  /** The approve handler as a function of the store before it. After the shared
      guards, the consumer's balance must cover the amount; then, in one unit of work,
      the request becomes APPROVED and a pending payment row is created. */
  function ApproveOutcome(s: DbState, user: Option<JwtPayload>, id: Id, newTxId: Id, now: Timestamp)
    : (r: (Reply<Approval>, DbState))
    requires WellFormed(s)
    ensures Answerable(s, user, id).Some? ==> r.0 == Failed(Answerable(s, user, id).value)
    ensures Answerable(s, user, id).None? && s.users[s.payRequests[id].consumerId].balance < s.payRequests[id].amount ==>
              r.0 == Fail(InsufficientBalance, 400)
    ensures r.0.Failed? ==> r.1 == s && r.0.error.App? && r.0.error.app.statusCode in {400, 401, 403, 404}
    ensures r.0.Ok? ==> r.0.status == 200
    ensures r.1.users == s.users
  {
    match Answerable(s, user, id)
    case Some(e) => (Failed(e), s)
    case None =>
      var p := s.payRequests[id];
      if s.users[p.consumerId].balance < p.amount then (Fail(InsufficientBalance, 400), s)
      else
        var p' := p.(status := APPROVED, updatedAt := now);
        var t := PaymentRow(p, newTxId, now);
        (Ok(200, Approval(p', t)), InsertTransaction(PutPayRequest(s, id, p'), t))
  }

  /** `PATCH /:id/approve` against the store. `newTxId` is the id the store generates
      for the payment row. */
  method Approve(db: Store, user: Option<JwtPayload>, id: Id, newTxId: Id, now: Timestamp) returns (reply: Reply<Approval>)
    requires db.Valid() && newTxId !in db.transactions
    modifies db
    ensures (reply, db.State()) == ApproveOutcome(old(db.State()), user, id, newTxId, now)
    ensures db.Valid()
  {
    ghost var s := db.State();
    var refusal := Answerable(db.State(), user, id);
    if refusal.Some? {
      return Failed(refusal.value);
    }
    var p := db.FindPayRequest(id);
    var balance := db.FindBalance(p.value.consumerId);
    if balance.value < p.value.amount {
      return Fail(InsufficientBalance, 400);
    }
    var p' := p.value.(status := APPROVED, updatedAt := now);
    var t := PaymentRow(p.value, newTxId, now);
    ApproveKeepsWellFormed(s, user, id, newTxId, now);
    db.UpdatePayRequest(id, p');
    db.CreateTransaction(t);
    reply := Ok(200, Approval(p', t));
  }

  /** An approval goes through exactly when the shared guards pass and the consumer
      can cover the amount; a refused one leaves the store as it was. */
  lemma ApproveGuards(s: DbState, user: Option<JwtPayload>, id: Id, newTxId: Id, now: Timestamp)
    requires WellFormed(s)
    ensures var (reply, s') := ApproveOutcome(s, user, id, newTxId, now);
      && (reply.Ok? <==> Answerable(s, user, id).None? && s.users[s.payRequests[id].consumerId].balance >= s.payRequests[id].amount)
      && (reply.Failed? ==> s' == s)
  {
  }

  /** A successful approval marks the request APPROVED and records exactly one PENDING
      payment of its amount from the consumer to the merchant. No balance moves: the
      money only moves when the sweeper settles the payment. */
  lemma ApproveEffect(s: DbState, user: Option<JwtPayload>, id: Id, newTxId: Id, now: Timestamp)
    requires WellFormed(s) && newTxId !in s.transactions
    requires ApproveOutcome(s, user, id, newTxId, now).0.Ok?
    ensures var (reply, s') := ApproveOutcome(s, user, id, newTxId, now);
      var p := s.payRequests[id];
      var t := reply.value.transaction;
      && reply.status == 200
      && s'.payRequests == s.payRequests[id := reply.value.payRequest]
      && reply.value.payRequest == p.(status := APPROVED, updatedAt := now)
      && t.id == newTxId && t.fromUserId == p.consumerId && t.toUserId == p.merchantId
      && t.amount == p.amount && t.status == TransactionStatus.PENDING && t.kind == PAY_REQUEST
      && s'.transactions == s.transactions[newTxId := t]
      && TransactionRows(s') == TransactionRows(s) + [t]
      && s'.users == s.users
  {
    ApproveKeepsWellFormed(s, user, id, newTxId, now);
  }

  lemma ApproveKeepsWellFormed(s: DbState, user: Option<JwtPayload>, id: Id, newTxId: Id, now: Timestamp)
    requires WellFormed(s) && newTxId !in s.transactions
    ensures WellFormed(ApproveOutcome(s, user, id, newTxId, now).1)
    ensures ApproveOutcome(s, user, id, newTxId, now).0.Ok? ==>
              var t := ApproveOutcome(s, user, id, newTxId, now).0.value.transaction;
              TransactionRows(ApproveOutcome(s, user, id, newTxId, now).1) == TransactionRows(s) + [t]
  {
    var (reply, s') := ApproveOutcome(s, user, id, newTxId, now);
    if reply.Ok? {
      var p := s.payRequests[id];
      var mid := PutPayRequest(s, id, p.(status := APPROVED, updatedAt := now));
      PutPayRequestKeepsWellFormed(s, id, p.(status := APPROVED, updatedAt := now));
      InsertTransactionWellFormed(mid, reply.value.transaction);
    }
  }

  /** The reject handler: after the shared guards the request becomes REJECTED, and
      nothing else changes. */
  function RejectOutcome(s: DbState, user: Option<JwtPayload>, id: Id, now: Timestamp): (r: (Reply<PayRequest>, DbState))
    ensures Answerable(s, user, id).Some? ==> r.0 == Failed(Answerable(s, user, id).value)
    ensures r.0.Failed? ==> r.1 == s && r.0.error.App? && r.0.error.app.statusCode in {400, 401, 403, 404}
    ensures r.0.Ok? ==> r.0.status == 200 && r.1.transactions == s.transactions && r.1.users == s.users
  {
    match Answerable(s, user, id)
    case Some(e) => (Failed(e), s)
    case None =>
      var p' := s.payRequests[id].(status := REJECTED, updatedAt := now);
      (Ok(200, p'), PutPayRequest(s, id, p'))
  }

  /** `PATCH /:id/reject` against the store. */
  method Reject(db: Store, user: Option<JwtPayload>, id: Id, now: Timestamp) returns (reply: Reply<PayRequest>)
    requires db.Valid()
    modifies db
    ensures (reply, db.State()) == RejectOutcome(old(db.State()), user, id, now)
    ensures db.Valid()
  {
    ghost var s := db.State();
    var refusal := Answerable(db.State(), user, id);
    if refusal.Some? {
      return Failed(refusal.value);
    }
    var p := db.FindPayRequest(id);
    var p' := p.value.(status := REJECTED, updatedAt := now);
    RejectKeepsWellFormed(s, user, id, now);
    db.UpdatePayRequest(id, p');
    reply := Ok(200, p');
  }

  /** A rejection goes through exactly when the shared guards pass; it then changes
      only the request's status and time stamp. A refused one changes nothing. */
  lemma RejectEffect(s: DbState, user: Option<JwtPayload>, id: Id, now: Timestamp)
    ensures var (reply, s') := RejectOutcome(s, user, id, now);
      && (reply.Ok? <==> Answerable(s, user, id).None?)
      && (reply.Failed? ==> s' == s)
      && (reply.Ok? ==>
            && reply.status == 200
            && reply.value == s.payRequests[id].(status := REJECTED, updatedAt := now)
            && s' == s.(payRequests := s.payRequests[id := reply.value]))
  {
  }

  lemma RejectKeepsWellFormed(s: DbState, user: Option<JwtPayload>, id: Id, now: Timestamp)
    requires WellFormed(s)
    ensures WellFormed(RejectOutcome(s, user, id, now).1)
  {
    var (reply, s') := RejectOutcome(s, user, id, now);
    if reply.Ok? {
      PutPayRequestKeepsWellFormed(s, id, s.payRequests[id].(status := REJECTED, updatedAt := now));
    }
  }

  /** A request is answered at most once: after a successful approval, approving or
      rejecting it again fails with 400 "Pay request already approved" and changes
      nothing. */
  lemma ApprovedOnce(s: DbState, user: Option<JwtPayload>, id: Id, newTxId: Id, now: Timestamp,
                     user2: Option<JwtPayload>, newTxId2: Id, now2: Timestamp)
    requires WellFormed(s) && newTxId !in s.transactions
    requires ApproveOutcome(s, user, id, newTxId, now).0.Ok?
    ensures var s1 := ApproveOutcome(s, user, id, newTxId, now).1;
      && WellFormed(s1)
      && (user2 == user ==> ApproveOutcome(s1, user2, id, newTxId2, now2) == (Fail(AlreadyPrefix + "approved", 400), s1))
      && (user2 == user ==> RejectOutcome(s1, user2, id, now2) == (Fail(AlreadyPrefix + "approved", 400), s1))
      && ApproveOutcome(s1, user2, id, newTxId2, now2).0.Failed?
      && RejectOutcome(s1, user2, id, now2).0.Failed?
  {
    ApproveKeepsWellFormed(s, user, id, newTxId, now);
  }

  /** After a successful rejection, approving or rejecting the request again fails
      with 400 "Pay request already rejected" and changes nothing. */
  lemma RejectedOnce(s: DbState, user: Option<JwtPayload>, id: Id, now: Timestamp,
                     user2: Option<JwtPayload>, newTxId2: Id, now2: Timestamp)
    requires WellFormed(s)
    requires RejectOutcome(s, user, id, now).0.Ok?
    ensures var s1 := RejectOutcome(s, user, id, now).1;
      && WellFormed(s1)
      && (user2 == user ==> ApproveOutcome(s1, user2, id, newTxId2, now2) == (Fail(AlreadyPrefix + "rejected", 400), s1))
      && (user2 == user ==> RejectOutcome(s1, user2, id, now2) == (Fail(AlreadyPrefix + "rejected", 400), s1))
      && ApproveOutcome(s1, user2, id, newTxId2, now2).0.Failed?
      && RejectOutcome(s1, user2, id, now2).0.Failed?
  {
    RejectKeepsWellFormed(s, user, id, now);
  }

  /** Neither answer moves money: approval and rejection leave every balance as it
      was, whatever their outcome. */
  lemma AnswersKeepBalances(s: DbState, user: Option<JwtPayload>, id: Id, newTxId: Id, now: Timestamp)
    requires WellFormed(s)
    ensures ApproveOutcome(s, user, id, newTxId, now).1.users == s.users
    ensures RejectOutcome(s, user, id, now).1.users == s.users
  {
  }

  // ----- GET /sent and GET /received -----

  datatype PayRequestList = PayRequestList(payRequests: seq<PayRequest>, total: nat)

  function NewestFirst(p: PayRequest): int
  {
    -p.createdAt
  }

  /** The rows satisfying `p`, newest first, with their count. */
  function Listing(s: DbState, p: PayRequest -> bool): (r: PayRequestList)
    requires OrderedKeys(s.payRequests, s.prOrder)
  {
    var rows := Ordering.SortBy(Ordering.Filter(PayRequestRows(s), p), NewestFirst);
    PayRequestList(rows, |rows|)
  }

  /** `GET /sent`: the merchant's requests, newest first. */
  function Sent(s: DbState, user: Option<JwtPayload>): (r: Reply<PayRequestList>)
    requires OrderedKeys(s.payRequests, s.prOrder)
    ensures r.Ok? <==> user.Some?
    ensures user.None? ==> r == Fail(AuthRequired, 401)
    ensures r.Ok? ==> r.status == 200 && r.value.total == |r.value.payRequests|
  {
    if user.None? then Fail(AuthRequired, 401)
    else Ok(200, Listing(s, (p: PayRequest) => p.merchantId == user.value.userId))
  }

  /** `GET /received`: the consumer's requests, newest first. */
  function Received(s: DbState, user: Option<JwtPayload>): (r: Reply<PayRequestList>)
    requires OrderedKeys(s.payRequests, s.prOrder)
    ensures r.Ok? <==> user.Some?
    ensures user.None? ==> r == Fail(AuthRequired, 401)
    ensures r.Ok? ==> r.status == 200 && r.value.total == |r.value.payRequests|
  {
    if user.None? then Fail(AuthRequired, 401)
    else Ok(200, Listing(s, (p: PayRequest) => p.consumerId == user.value.userId))
  }

  /** A listing holds only stored requests satisfying `p`, newest first, and `total`
      is their number. */
  lemma ListingSound(s: DbState, p: PayRequest -> bool)
    requires OrderedKeys(s.payRequests, s.prOrder)
    ensures var l := Listing(s, p);
      && Ordering.SortedBy(l.payRequests, NewestFirst)
      && l.total == |l.payRequests|
      && (forall i :: 0 <= i < |l.payRequests| ==> p(l.payRequests[i]) && l.payRequests[i] in s.payRequests.Values)
  {
    var rows := PayRequestRows(s);
    var l := Listing(s, p).payRequests;
    Ordering.SortedFilterSatisfies(rows, p, NewestFirst);
    forall i | 0 <= i < |l|
      ensures l[i] in s.payRequests.Values
    {
      assert l[i] in multiset(l);
      assert l[i] in Ordering.Filter(rows, p);
      var j :| 0 <= j < |rows| && rows[j] == l[i];
      assert s.prOrder[j] in s.payRequests;
    }
  }

  /** A listing holds every stored request satisfying `p`, as often as the table does. */
  lemma ListingComplete(s: DbState, p: PayRequest -> bool)
    requires OrderedKeys(s.payRequests, s.prOrder)
    ensures forall id :: id in s.payRequests && p(s.payRequests[id]) ==>
              multiset(Listing(s, p).payRequests)[s.payRequests[id]] == multiset(PayRequestRows(s))[s.payRequests[id]] > 0
  {
    var rows := PayRequestRows(s);
    forall id | id in s.payRequests && p(s.payRequests[id])
      ensures multiset(Listing(s, p).payRequests)[s.payRequests[id]] == multiset(rows)[s.payRequests[id]] > 0
    {
      var j :| 0 <= j < |s.prOrder| && s.prOrder[j] == id;
      assert rows[j] == s.payRequests[id];
      assert s.payRequests[id] in multiset(rows);
    }
  }

  /** `/sent` shows a merchant every request it made and nothing else. */
  lemma SentBelongsToCaller(s: DbState, user: JwtPayload)
    requires OrderedKeys(s.payRequests, s.prOrder)
    ensures var l := Sent(s, Some(user)).value.payRequests;
      forall id :: id in s.payRequests ==> (s.payRequests[id] in l <==> s.payRequests[id].merchantId == user.userId)
  {
    var mine := (p: PayRequest) => p.merchantId == user.userId;
    ListedExactly(s, mine);
  }

  /** `/received` shows a consumer every request addressed to it and nothing else. */
  lemma ReceivedBelongsToCaller(s: DbState, user: JwtPayload)
    requires OrderedKeys(s.payRequests, s.prOrder)
    ensures var l := Received(s, Some(user)).value.payRequests;
      forall id :: id in s.payRequests ==> (s.payRequests[id] in l <==> s.payRequests[id].consumerId == user.userId)
  {
    var mine := (p: PayRequest) => p.consumerId == user.userId;
    ListedExactly(s, mine);
  }

  lemma ListedExactly(s: DbState, p: PayRequest -> bool)
    requires OrderedKeys(s.payRequests, s.prOrder)
    ensures forall id :: id in s.payRequests ==> (s.payRequests[id] in Listing(s, p).payRequests <==> p(s.payRequests[id]))
  {
    var l := Listing(s, p).payRequests;
    ListingSound(s, p);
    ListingComplete(s, p);
    forall id | id in s.payRequests
      ensures s.payRequests[id] in l <==> p(s.payRequests[id])
    {
      assert s.payRequests[id] in l <==> s.payRequests[id] in multiset(l);
    }
  }
}
