# paynxt ledger core, modelled in Dafny

paynxt is a small payments ledger with three kinds of rows: accounts (consumers and merchants, each with a balance in cents), transactions and pay requests. The API never moves money itself. A transfer, or the approval of a merchant's pay request, only records a PENDING transaction. A separate sweeper process polls for pending transactions and settles each one in a single unit of work: it debits the sender, credits the recipient and marks the transaction COMPLETED, or it leaves everything as it was.

This project models that core:

- **`Models`** (`models.dfy`): the record shapes and status enumerations.
- **`Database`** (`database.dfy`): the store. It is a pure value `DbState`, plus a `Store` class whose map fields the handlers update in place. Every write is specified as a function of the previous state. `WellFormed` states what the store's schema guarantees: primary keys, a unique e-mail index, foreign keys and positive amounts.
- **`Ordering`** (`ordering.dfy`): the generic query building blocks, namely `where` filtering, `orderBy` (a sorted permutation), `take` of the smallest elements, and `skip`/`take` paging.
- **`Processor`** (`processor.dfy`): `processTransaction`, as the callback of the unit of work run step by step against the store (`SettlementCallback`), wrapped in the all-or-nothing commit (`ProcessTransaction`). The pure specification, `Settlement`, carries the lemmas: conservation, non-negativity, at-most-once mutation and roll-back. The module also models the backlog query `fetchPendingTransactions`.
- **`Sweeper`** (`sweeper.dfy`): `runSweeperLoop` and `shutdown`, as a `SweeperService` class with the shutdown flag as a field.
  - The loop's nested `while`/`for` loops are imperative methods, proved against the pure functions `Run`, `Pass` and `SettleBatch`.
  - The outside world is an `Environment`: when the signal arrives, which backlog queries fail, the clock and store faults at each commit.
- **`PayRequestRoutes`** and **`TransactionRoutes`** (`payrequests.dfy`, `transactions.dfy`): the handlers.
  - Each handler that writes is a method on the store. Its contract ties the reply and the new state to a pure outcome function, such as `TransferOutcome` or `ApproveOutcome`.
  - The read-only handlers are functions.
  - `parseInt`, as `/history` uses it, is modelled character by character.
- **`Schemas`** (`schemas.dfy`): the request validators, as parsers over a JSON object with round-trip lemmas.
- **`Auth`** and **`ErrorHandler`** (`auth.dfy`, `errors.dfy`): the bearer-token gate, the role gate, `AppError`, and the error-to-status mapping.

## Where the code works against its own data model

The model follows the code.

- **Insufficient balance.** The program expects an underfunded transaction to end FAILED, with a reason. The `Transaction` type carries a `failureReason` (`packages/types/src/models.ts:23`), and the transaction list has a FAILED badge (`packages/ui/src/components/transaction-list.tsx:26`). In the sweeper, the FAILED write (`apps/sweeper/src/processor.ts:45-52`) is followed by a `throw` (line 53) inside the same unit of work, so the unit aborts and the write is discarded. The transaction stays PENDING, and the next backlog query returns it again.
  - `Processor.InsufficientBalanceRollsBack` proves this outcome.
  - `Sweeper.RunWhenStuck` proves that a backlog made only of underfunded transactions never drains.

## Model

| member | source | states |
|---|---|---|
| Models.ParseTransactionStatus | apps/api/src/routes/transaction.routes.ts:80-88 | A status string is read back to the one status whose store spelling it is, and to nothing when no status is spelled that way. |
| Models.ParseUserType | packages/types/src/schemas.ts:10-12 | A user-type string is accepted exactly when it spells CONSUMER or MERCHANT, and it is read back to that type. |
| Database.UserByEmail | apps/api/src/routes/transaction.routes.ts:19-21 | Under the unique e-mail index, a lookup by e-mail finds a row exactly when some user has that e-mail, and the row it finds has that e-mail. |
| Database.AdjustBalance | apps/sweeper/src/processor.ts:56-64 | A balance increment changes that one account's balance by exactly `delta`, keeps the set of accounts, and leaves every other account and both other tables untouched. |
| Database.RowInScan | apps/sweeper/src/processor.ts:87-93 | Every stored transaction appears in a full scan of the table. |
| Database.InsertTransactionWellFormed | apps/api/src/routes/transaction.routes.ts:44-60 | Inserting a fresh transaction between existing users, with a positive amount, keeps the store well formed and makes the new row the last one a scan returns. |
| Database.InsertPayRequestWellFormed | apps/api/src/routes/pay-request.routes.ts:35-51 | Inserting a fresh pay request between existing users keeps the store well formed and lists the new row last. |
| Database.AdjustBalanceKeepsWellFormed | apps/sweeper/src/processor.ts:56-64 | A balance change keeps primary keys, the unique e-mail index and all foreign keys intact. |
| Database.PutTransactionKeepsWellFormed | apps/sweeper/src/processor.ts:66-72 | Overwriting a transaction's status fields, keeping its id, participants and amount, keeps the store well formed. |
| Database.PutPayRequestKeepsWellFormed | apps/api/src/routes/pay-request.routes.ts:207-214 | Overwriting a pay request's status, keeping its id, parties and amount, keeps the store well formed. |
| Database.TotalBalanceUpdate | apps/sweeper/src/processor.ts:56-64 | Replacing one account changes the ledger-wide sum of balances by exactly that account's change. |
| Database.Store.FindTransaction | apps/sweeper/src/processor.ts:9-14 | The read that filters on id and status finds the row exactly when it exists with that status. |
| Database.Store.FindBalance | apps/sweeper/src/processor.ts:20-31 | The balance read returns a balance exactly when the account row exists, and that balance is the account's. |
| Database.Store.FindUserByEmail | apps/api/src/routes/pay-request.routes.ts:19-21 | The handle's e-mail lookup is the unique-index lookup on the current users table. |
| Database.Store.FindUser | apps/api/src/routes/transaction.routes.ts:31-34 | A lookup by id returns the row exactly when it exists. |
| Database.Store.FindPayRequest | apps/api/src/routes/pay-request.routes.ts:125-131 | A lookup by id returns the pay request exactly when it exists. |
| Database.Store.IncrementBalance | apps/sweeper/src/processor.ts:56-64 | The in-place balance update leaves the store in the state `AdjustBalance` describes. |
| Database.Store.UpdateTransaction | apps/sweeper/src/processor.ts:66-72 | The in-place row update overwrites only the transaction stored under the id. |
| Database.Store.CreateTransaction | apps/api/src/routes/transaction.routes.ts:44-60 | The in-place insert adds the row and appends its id to the table's scan order. |
| Database.Store.UpdatePayRequest | apps/api/src/routes/pay-request.routes.ts:150-157 | The in-place update overwrites only the pay request stored under the id. |
| Database.Store.CreatePayRequest | apps/api/src/routes/pay-request.routes.ts:35-51 | The in-place insert adds the pay request and appends its id to the scan order. |
| Database.Store.Restore | apps/sweeper/src/processor.ts:7-78 | An aborted unit of work leaves the store exactly in its saved pre-state. |
| Processor.SettlementUnit | apps/sweeper/src/processor.ts:8-73 | The callback returns exactly when the row is PENDING, both accounts exist and the sender covers the amount. Otherwise it throws one of its four messages. Every throw but the balance one comes before any write. The balance throw comes after the FAILED write, with no balance changed. Its partner lemmas are SettlementSuccess and InsufficientBalanceRollsBack. |
| Processor.Settlement | apps/sweeper/src/processor.ts:3-85 | A settlement succeeds exactly when the callback returns and the commit has no fault, and then keeps the callback's writes. Every failure carries an error and restores the pre-state. Its partner lemmas are SettlementConservesTotal, SettleTwiceMutatesOnce and SettlementKeepsWellFormed. |
| Processor.SettlementCallback | apps/sweeper/src/processor.ts:8-73 | The callback run against the store either returns with the debit, credit and COMPLETED writes made, or throws with the matching message. A missing or non-PENDING row, a missing sender or recipient, and an underfunded sender each throw. The writes made before a throw, including FAILED on insufficient balance, are left for the unit of work to undo. |
| Processor.ProcessTransaction | apps/sweeper/src/processor.ts:3-85 | The result and the new store are those of the specification `Settlement`: the callback's writes are kept only if it returned and the commit succeeded. Otherwise the store keeps its pre-state, and the thrown message, or "Unknown error" for a non-`Error`, is returned as `{ success: false, error }`. |
| Processor.FetchPendingTransactions | apps/sweeper/src/processor.ts:87-93 | The backlog batch holds only PENDING rows taken from the table, in non-decreasing `createdAt` order, and at most `limit` of them. A pending row is left out only when `limit` rows were taken, and then no taken row is newer than it. |
| Processor.NotPendingIsNoop | apps/sweeper/src/processor.ts:9-18 | A missing or non-PENDING transaction changes nothing, with the error "Transaction not found or already processed"; a COMPLETED or FAILED row is never touched again. |
| Processor.MissingParticipantAborts | apps/sweeper/src/processor.ts:33-39 | A missing sender or recipient row aborts the unit with "Sender not found" or "Recipient not found", in that order of precedence, and nothing changes. |
| Processor.WellFormedHasParticipants | apps/sweeper/src/processor.ts:33-39 | In a store whose foreign keys hold, the callback never throws either missing-participant error. |
| Processor.InsufficientBalanceRollsBack | apps/sweeper/src/processor.ts:44-54 | On insufficient balance the callback has written FAILED when it throws. The settlement nevertheless leaves the store exactly as it was, the transaction stays PENDING, and the result is `{ success: false, error: "Insufficient balance" }`. |
| Processor.CommitFaultRollsBack | apps/sweeper/src/processor.ts:74-84 | A commit-time store fault discards every write of the unit and reports failure. |
| Processor.ResultIsTotal | apps/sweeper/src/processor.ts:80-84 | Every settlement ends in a value: success exactly when no error is carried, and a failed settlement leaves the store as it was. |
| Processor.SettlementSuccess | apps/sweeper/src/processor.ts:56-72 | A successful settlement had a PENDING, funded transaction and no fault. It debits the sender and credits the recipient by exactly the amount (a self-transfer nets to zero), so their sum is unchanged. It changes no other account and marks the transaction COMPLETED at `now`. The result is `{ success: true }`. |
| Processor.SettleTwiceMutatesOnce | apps/sweeper/src/processor.ts:9-18 | Settling the same id twice changes the store at most once: the first call changed nothing, or the second reports the row already processed. |
| Processor.SettlementConservesTotal | apps/sweeper/src/processor.ts:56-64 | No settlement changes the sum of all balances in the ledger. |
| Processor.SettlementKeepsBalancesNonNegative | apps/sweeper/src/processor.ts:44-59 | Balances only change when the sender covers the amount, so a ledger with no negative balance keeps none. |
| Processor.CommittedKeepsWellFormed | apps/sweeper/src/processor.ts:56-72 | The writes of a callback that returns keep the store well formed and add or remove no rows. |
| Processor.SettlementKeepsWellFormed | apps/sweeper/src/processor.ts:7-78 | Every settlement outcome keeps the store well formed and leaves the set of transactions, both scan orders and the pay requests unchanged. |
| Processor.SettlementKeepsScan | apps/sweeper/src/processor.ts:7-78 | Even without well-formedness, a settlement keeps the transactions table scannable over the same ids in the same order. |
| Sweeper.Started | apps/sweeper/src/index.ts:22-23 | A pass gets to settle only as many items as there are clear flag checks before the signal. It stops short of the batch only when a check finds the flag set. |
| Sweeper.SettleBatch | apps/sweeper/src/index.ts:22-34 | The item loop makes flag checks only up to the one that sees the flag, and keeps the transactions table scannable. |
| Sweeper.Pass | apps/sweeper/src/index.ts:14-46 | A pass counts as one pass, whether its backlog query failed or not, and keeps the transactions table scannable. |
| Sweeper.Run | apps/sweeper/src/index.ts:13-47 | The loop ends after the check that first sees the flag set, never gives back a pass, and keeps the table scannable. Its partner lemmas are RunTrace, RunKeepsSolvent, RunConservesTotal and RunWhenStuck. |
| Sweeper.SettleBatchTrace | apps/sweeper/src/index.ts:22-34 | A pass settles a prefix of its batch, in batch order, one attempt per item, each after its own flag check, whatever the outcome of earlier items. The whole batch is settled when all its checks precede the signal. It stops short only when a check finds the flag set. |
| Sweeper.PassTrace | apps/sweeper/src/index.ts:14-46 | A failed backlog query costs only the pass. Otherwise the pass starts at most `batchSize` settlements, over the fetched ids in order, and only extends the log. |
| Sweeper.RunTrace | apps/sweeper/src/index.ts:13-47 | The loop ends with a check that finds the flag set. Every settlement it starts follows a check made before the signal, with strictly rising checks: once the flag is up no pass and no item is started, and a started settlement is always finished. |
| Sweeper.PassKeepsSolvent | apps/sweeper/src/index.ts:14-46 | A pass keeps the store well formed with no negative balance. |
| Sweeper.PassConservesTotal | apps/sweeper/src/index.ts:14-46 | A pass keeps the ledger-wide sum of balances. |
| Sweeper.RunKeepsSolvent | apps/sweeper/src/index.ts:13-47 | The whole run keeps the store well formed with no negative balance. |
| Sweeper.RunConservesTotal | apps/sweeper/src/index.ts:13-47 | The whole run keeps the ledger-wide sum of balances. |
| Sweeper.SettlementWhenStuck | apps/sweeper/src/processor.ts:44-54 | When every pending transaction is underfunded, a settlement changes nothing and is refused. |
| Sweeper.PassWhenStuck | apps/sweeper/src/index.ts:14-46 | In such a store, a pass changes nothing and every attempt it logs is refused. |
| Sweeper.RunWhenStuck | apps/sweeper/src/index.ts:13-47 | A backlog of only underfunded transactions never drains: the whole run leaves the store as it was, and every settlement it starts is refused. |
| Sweeper.SweeperService.constructor | apps/sweeper/src/index.ts:5 | The worker starts with the flag clear, the connection held and an empty log. |
| Sweeper.SweeperService.Shutdown | apps/sweeper/src/index.ts:56-67 | `shutdown` raises the flag and releases the store connection. |
| Sweeper.SweeperService.ReadFlag | apps/sweeper/src/index.ts:23 | A read of the flag sees it set exactly when the signal has come, and the flag is never lowered again. |
| Sweeper.SweeperService.RunPass | apps/sweeper/src/index.ts:14-46 | One pass of the loop, run in place, leaves the worker and the store as `Pass` says. |
| Sweeper.SweeperService.CompletePass | apps/sweeper/src/index.ts:15-38 | The part of a pass after a backlog query that returned is the item loop over the fetched ids. |
| Sweeper.SweeperService.SettleItems | apps/sweeper/src/index.ts:22-34 | The `for` loop with its `break` leaves the worker, the log and the store as `SettleBatch` says. |
| Sweeper.SweeperService.RunSweeperLoop | apps/sweeper/src/index.ts:7-50 | The `while` loop ends with the flag set and the connection released, in the state `Run` describes. |
| Schemas.AmountField | packages/types/src/schemas.ts:26-30 | An amount is accepted exactly when it is a whole number with 0 < amount ≤ 1 000 000 000, and it is read as that number. |
| Schemas.BoundedIntField | packages/types/src/schemas.ts:56-57 | An absent field takes its default. A present one is accepted exactly when it is a whole number within the bounds. |
| Schemas.MessageField | packages/types/src/schemas.ts:42 | A message is optional, and a present one is accepted exactly when it is a string of at most 500 characters. |
| Schemas.ParseRegister | packages/types/src/schemas.ts:4-13 | A registration is accepted exactly when it has an e-mail, a password of 8 to 100 characters and a valid user type. What it yields is what the body holds. |
| Schemas.RegisterRoundTrip | packages/types/src/schemas.ts:4-13 | Every valid registration, written as a body, is accepted and read back unchanged. |
| Schemas.ParseLogin | packages/types/src/schemas.ts:17-20 | A login is accepted exactly when it has an e-mail and a non-empty password. |
| Schemas.LoginRoundTrip | packages/types/src/schemas.ts:17-20 | Every valid login is read back unchanged. |
| Schemas.ParseTransfer | packages/types/src/schemas.ts:24-31 | A transfer is accepted exactly when it has a recipient e-mail and a valid amount. |
| Schemas.TransferRoundTrip | packages/types/src/schemas.ts:24-31 | Every valid transfer is read back unchanged. |
| Schemas.ParseCreatePayRequest | packages/types/src/schemas.ts:35-43 | A pay request is accepted exactly when it has a consumer e-mail, a valid amount and an optional message of at most 500 characters. The e-mail, the amount and a present message are read as the body holds them, and the message is absent exactly when the body has none. |
| Schemas.CreatePayRequestRoundTrip | packages/types/src/schemas.ts:35-43 | Every valid pay request, with or without a message, is read back unchanged. |
| Schemas.ParseAction | packages/types/src/schemas.ts:47-51 | An action is accepted exactly when it is "approve" or "reject". |
| Schemas.ActionRoundTrip | packages/types/src/schemas.ts:47-51 | Both actions are read back from their spelling. |
| Schemas.ParseQuery | packages/types/src/schemas.ts:55-59 | A query is accepted exactly when its limit, if present, is a whole number in 1..100, its offset, if present, a whole number of at least 0, and its status, if present, a string; out-of-range values are refused, not clamped. A present limit, offset or status is the value returned; absent ones take 20, 0 and no status. |
| Schemas.QueryRoundTrip | packages/types/src/schemas.ts:55-59 | Every valid query is read back unchanged. |
| ErrorHandler.NewAppError | apps/api/src/middleware/error-handler.ts:6-15 | An `AppError` keeps its message, and its status is the given one or 500 by default. |
| ErrorHandler.Handle | apps/api/src/middleware/error-handler.ts:18-46 | A validation error becomes 400 "Validation failed", and an `AppError` keeps its own status and message. Anything else becomes a 500 with the generic message. |
| ErrorHandler.DefaultStatusIsServerError | apps/api/src/middleware/error-handler.ts:9 | An `AppError` raised without a status reaches the client as a 500 with its own message. An unexpected error never leaks its message. |
| Auth.BearerToken | apps/api/src/middleware/auth.ts:19-28 | A header yields a token exactly when it starts with "Bearer ". The token is the header without those 7 characters. |
| Auth.BearerRoundTrip | apps/api/src/middleware/auth.ts:28 | A header built from a token yields that token. |
| Auth.Authenticate | apps/api/src/middleware/auth.ts:17-41 | A request passes exactly when its header carries a bearer token that verifies, and then carries the decoded payload. A missing or malformed header is refused with 401 and the first message, a failing token with 401 and the second. |
| Auth.Request.constructor | apps/api/src/middleware/auth.ts:8-14 | A request arrives with its header and without a user. |
| Auth.RequireAuth | apps/api/src/middleware/auth.ts:17-41 | The gate sets `req.user` to the decoded payload and calls `next` only for a verified token. A refusal leaves `req.user` as it was. |
| Auth.JoinTypes | apps/api/src/middleware/auth.ts:57 | A single allowed type is named on its own. |
| Auth.RequireUserType | apps/api/src/middleware/auth.ts:44-64 | The role gate calls `next` exactly when a user is present whose type is allowed. It answers 401 without a user, and 403 naming the allowed types otherwise. |
| Auth.GatesInSequence | apps/api/src/middleware/auth.ts:17-64 | The two gates in a row let a request through exactly when its header is "Bearer " followed by a token that verifies to a payload of an allowed type. |
| PayRequestRoutes.CreateOutcome | apps/api/src/routes/pay-request.routes.ts:11-61 | Each guard, once the ones before it pass, gives its own refusal: 401 "Authentication required" without a user, the validation error for a bad body, 404 "Consumer not found" for an unregistered e-mail, 400 "Pay requests can only be sent to consumers" for a non-consumer, and 400 "Cannot create pay request to yourself" for the caller's own e-mail. When the merchant row is missing, the store's foreign-key failure is an internal error. Every refusal leaves the store unchanged. A success answers 201, and its only write inserts the returned row. Its partner lemmas are CreateGuards and CreateInserts. |
| PayRequestRoutes.Create | apps/api/src/routes/pay-request.routes.ts:11-61 | `POST /create`, run on the store, gives the reply and the new state that `CreateOutcome` gives, and keeps the store well formed. |
| PayRequestRoutes.CreateGuards | apps/api/src/routes/pay-request.routes.ts:13-33 | A request is created exactly when the caller is known, the body validates, the e-mail belongs to a consumer, that consumer is not the caller, and the caller's own row exists (without it the insert fails on the foreign key). Every refusal leaves the store as it was. |
| PayRequestRoutes.CreateInserts | apps/api/src/routes/pay-request.routes.ts:35-53 | A created request is one new PENDING row, answered with 201. It runs from the caller to the consumer registered under the e-mail, with the validated amount and message. It is the only change to the store, and no balance moves. |
| PayRequestRoutes.CreateKeepsWellFormed | apps/api/src/routes/pay-request.routes.ts:35-51 | Creation keeps the store well formed. |
| PayRequestRoutes.Answerable | apps/api/src/routes/pay-request.routes.ts:133-143 | Approval and rejection get past their shared guards exactly when the request exists, the caller is its consumer and it is still PENDING. Otherwise the refusal is, in guard order: 401 "Authentication required" without a user, 404 "Pay request not found", 403 "Access denied" for a caller who is not the consumer, and 400 "Pay request already <status>" naming the request's status in lower case. |
| PayRequestRoutes.ApproveOutcome | apps/api/src/routes/pay-request.routes.ts:119-183 | A shared-guard refusal is the one `Answerable` gives. Past those guards, a consumer whose balance does not cover the amount gets 400 "Insufficient balance". Every refusal is an `AppError` and changes nothing. A success answers 200. No balance changes either way. Its partner lemmas are ApproveGuards, ApproveEffect and ApprovedOnce. |
| PayRequestRoutes.Approve | apps/api/src/routes/pay-request.routes.ts:119-183 | `PATCH /:id/approve`, run on the store, gives the reply and the new state that `ApproveOutcome` gives, and keeps the store well formed. |
| PayRequestRoutes.ApproveGuards | apps/api/src/routes/pay-request.routes.ts:133-147 | An approval goes through exactly when the shared guards pass and the consumer's balance covers the amount. A refused approval (401, 404, 403, 400) leaves the store as it was. |
| PayRequestRoutes.ApproveEffect | apps/api/src/routes/pay-request.routes.ts:149-170 | A successful approval marks the request APPROVED and records exactly one PENDING PAY_REQUEST transaction of its amount, from the consumer to the merchant. No balance moves. |
| PayRequestRoutes.ApproveKeepsWellFormed | apps/api/src/routes/pay-request.routes.ts:149-170 | Approval keeps the store well formed and lists the payment row last. |
| PayRequestRoutes.RejectOutcome | apps/api/src/routes/pay-request.routes.ts:185-224 | A refusal is the one `Answerable` gives, an `AppError`, and changes nothing. A success answers 200, creates no transaction and moves no balance. Its partner lemmas are RejectEffect and RejectedOnce. |
| PayRequestRoutes.Reject | apps/api/src/routes/pay-request.routes.ts:185-224 | `PATCH /:id/reject`, run on the store, gives the reply and the new state that `RejectOutcome` gives, and keeps the store well formed. |
| PayRequestRoutes.RejectEffect | apps/api/src/routes/pay-request.routes.ts:195-214 | A rejection goes through exactly when the shared guards pass. It then changes only the request's status and time stamp, and creates no transaction. A refused rejection changes nothing. |
| PayRequestRoutes.RejectKeepsWellFormed | apps/api/src/routes/pay-request.routes.ts:207-214 | Rejection keeps the store well formed. |
| PayRequestRoutes.ApprovedOnce | apps/api/src/routes/pay-request.routes.ts:141-143 | After an approval, approving or rejecting again fails (for the same caller with 400 "Pay request already approved") and changes nothing. |
| PayRequestRoutes.RejectedOnce | apps/api/src/routes/pay-request.routes.ts:203-205 | After a rejection, approving or rejecting again fails (for the same caller with 400 "Pay request already rejected") and changes nothing. |
| PayRequestRoutes.AnswersKeepBalances | apps/api/src/routes/pay-request.routes.ts:149-214 | Neither approval nor rejection changes any balance, whatever its outcome. |
| PayRequestRoutes.Sent | apps/api/src/routes/pay-request.routes.ts:63-89 | `/sent` answers 200 exactly when there is a caller, with `total` equal to the number of requests listed, and 401 otherwise. Its partner lemma SentBelongsToCaller shows it lists exactly the caller's requests. |
| PayRequestRoutes.Received | apps/api/src/routes/pay-request.routes.ts:91-117 | `/received` answers 200 exactly when there is a caller, with `total` equal to the number listed, and 401 otherwise. Its partner lemma ReceivedBelongsToCaller shows it lists exactly the requests addressed to the caller. |
| PayRequestRoutes.ListingSound | apps/api/src/routes/pay-request.routes.ts:69-77 | A listing holds only stored requests that pass its filter, newest first, and its `total` is its length. |
| PayRequestRoutes.ListingComplete | apps/api/src/routes/pay-request.routes.ts:97-105 | A listing holds every stored request that passes its filter. |
| PayRequestRoutes.SentBelongsToCaller | apps/api/src/routes/pay-request.routes.ts:63-89 | `/sent` shows a merchant each request whose merchant it is, and nothing else. |
| PayRequestRoutes.ReceivedBelongsToCaller | apps/api/src/routes/pay-request.routes.ts:91-117 | `/received` shows a consumer each request addressed to it, and nothing else. |
| PayRequestRoutes.ListedExactly | apps/api/src/routes/pay-request.routes.ts:69-77 | A stored request is in a listing exactly when it passes the filter. |
| TransactionRoutes.TransferOutcome | apps/api/src/routes/transaction.routes.ts:11-70 | Each guard, once the ones before it pass, gives its own refusal: 401 "Authentication required" without a user, the validation error for a bad body, 404 "Recipient not found", 400 "Cannot transfer to yourself", 404 "Sender not found" when the caller's row is gone, and 400 "Insufficient balance". No refusal is an internal error, and every refusal leaves the store unchanged. A success answers 201, and its only write inserts the returned row. Its partner lemmas are TransferGuards and TransferInserts. |
| TransactionRoutes.Transfer | apps/api/src/routes/transaction.routes.ts:11-70 | `POST /transfer`, run on the store, gives the reply and the new state that `TransferOutcome` gives, and keeps the store well formed. |
| TransactionRoutes.TransferGuards | apps/api/src/routes/transaction.routes.ts:13-42 | A transfer goes through exactly when each of these holds: the caller is known, the body validates, the recipient is registered and is not the caller, the sender exists, and the sender's balance covers the amount. Every refusal creates nothing. |
| TransactionRoutes.TransferInserts | apps/api/src/routes/transaction.routes.ts:44-62 | A successful transfer is answered with 201 and inserts exactly one row: a PENDING TRANSFER from the caller to the recipient, for the validated amount. That row comes last in a scan. No balance changes. |
| TransactionRoutes.TransferKeepsWellFormed | apps/api/src/routes/transaction.routes.ts:44-60 | A transfer keeps the store well formed. |
| TransactionRoutes.TrimStart | apps/api/src/routes/transaction.routes.ts:78 | `parseInt` skips a suffix-preserving run of leading white space and stops at the first other character. |
| TransactionRoutes.DigitRun | apps/api/src/routes/transaction.routes.ts:78 | `parseInt` reads the longest run of digits, stopping at the first non-digit. |
| TransactionRoutes.Signed | apps/api/src/routes/transaction.routes.ts:78 | A sign applies to the magnitude, and `NaN` stays `NaN`. |
| TransactionRoutes.Decimal | apps/api/src/routes/transaction.routes.ts:78 | The decimal spelling of a number is a non-empty run of digits without a leading zero. |
| TransactionRoutes.DecimalValue | apps/api/src/routes/transaction.routes.ts:78 | The digits of a decimal spelling are read as the number spelled. |
| TransactionRoutes.ParseIntDecimal | apps/api/src/routes/transaction.routes.ts:78-79 | `parseInt` reads back the decimal spelling of any natural number, with or without a sign. |
| TransactionRoutes.OrDefault | apps/api/src/routes/transaction.routes.ts:78-79 | The fallback after `parseInt` keeps a parsed number unless it is `NaN` or 0, which give way to the default. |
| TransactionRoutes.HistoryLimit | apps/api/src/routes/transaction.routes.ts:78 | The limit never exceeds 100. It is 20 for an absent, unreadable or zero value, otherwise `min(value, 100)`, and it is not positive only for a negative value. |
| TransactionRoutes.HistoryOffset | apps/api/src/routes/transaction.routes.ts:79 | The offset is the parsed value, or 0 when none can be read. |
| TransactionRoutes.HistoryStatus | apps/api/src/routes/transaction.routes.ts:80-88 | An absent or empty status filters nothing. A string that spells a status filters on exactly that status. Any other non-empty string is one the store refuses. |
| TransactionRoutes.History | apps/api/src/routes/transaction.routes.ts:72-120 | `GET /history` answers 401 without a caller. Otherwise it answers 200 exactly when the status filter names a status or is absent and the offset and limit are not negative, echoing the parsed limit and offset. Its partner lemmas are HistoryPageBounds, HistoryPageContents, HistoryMatchesSound and HistoryMatchesComplete. |
| TransactionRoutes.HistoryPageBounds | apps/api/src/routes/transaction.routes.ts:90-116 | An answered history page keeps the parsed limit (between 0 and 100) and offset (at least 0). It holds at most `limit` rows, and `total` counts every match regardless of paging. |
| TransactionRoutes.HistoryPageContents | apps/api/src/routes/transaction.routes.ts:82-106 | A page is exactly `Ordering.Page` of the caller's matching transactions, newest first: the slice that starts `offset` places in, holding min(`limit`, matches − `offset`) rows and none past the end, as `skip`/`take` return. It holds only stored rows the caller sent or received, with the requested status. |
| TransactionRoutes.HistoryMatchesSound | apps/api/src/routes/transaction.routes.ts:82-88 | Every match is a stored transaction the caller sent or received, with the requested status. |
| TransactionRoutes.HistoryMatchesComplete | apps/api/src/routes/transaction.routes.ts:82-88 | Every stored transaction of the caller's with the requested status is a match. |
| TransactionRoutes.HistoryPagesTile | apps/api/src/routes/transaction.routes.ts:102-103 | Consecutive pages of the same query tile the list with no gap or overlap. |
| TransactionRoutes.GetTransaction | apps/api/src/routes/transaction.routes.ts:122-158 | `GET /:id` shows a transaction exactly to its sender or recipient. A missing id gives 404, and any other caller gets 403. |
| Ordering.Filter | apps/api/src/routes/transaction.routes.ts:82-88 | A `where` keeps exactly the rows that pass it, each as often as in the table. |
| Ordering.SortBy | apps/api/src/routes/transaction.routes.ts:101 | An `orderBy` returns a sorted permutation of its rows. |
| Ordering.Page | apps/api/src/routes/transaction.routes.ts:102-103 | `skip`/`take` returns the elements from `offset` on, at most `limit` of them. |
| Ordering.PageSplit | apps/api/src/routes/transaction.routes.ts:102-103 | Two adjacent pages are one page of their combined length. |
| Ordering.SmallestBy | apps/sweeper/src/processor.ts:88-92 | A filtered, ordered `take` returns rows that pass the filter, in order, at most `limit` of them. Any passing row left out is no smaller than every row taken, and is left out only when `limit` rows were taken. |

## Left out

- **Concurrency.** Locking, lock order and two settlements racing are not modelled. The sweeper locks both account rows with `SELECT … FOR UPDATE` (`apps/sweeper/src/processor.ts:19-30`), issuing the two queries together with `Promise.all`, so no lock order is fixed. Each unit of work runs alone, and the sweeper is the only writer during a settlement. The same applies to the race between the status check in approve/reject and their update, which does not re-check the status: in the model, guard and update happen together.
- **Timing options.** The unit of work's `maxWait`/`timeout` options are not modelled. A commit that fails for any reason is the `fault` parameter. Store faults are modelled only at the commit: a store error raised by a read or write inside the callback, which would replace the business message (`Sender not found`, `Insufficient balance`, …) with the store's own, cannot be represented.
- **Process control.** `sleep` and the poll interval, the 2-second grace wait in `shutdown`, the signal handlers, `process.exit`, and the fatal catch around the loop (`apps/sweeper/src/index.ts:72-76`) are left out. The moment the signal arrives is the `Environment`'s `shutdownAt`.
- **Disconnect.** Only the order (flag first, then disconnect) is kept. A settlement still running when the connection closes is not modelled.
- **Log lines.** Console output is replaced by the log of attempts.
- **Inputs of the model.** Row ids generated by the store, the clock, the e-mail format check, `jwt.verify` and store failures are parameters. Ids are UUID strings in the store and naturals here, since the core only compares them for equality.
- **Numbers.** JSON numbers are exact rationals. Floating-point rounding, `Number(bigint)` and fractional `parseInt` input beyond the first non-digit are not modelled.
- **String lengths.** Lengths count characters of `seq<char>`, not UTF-16 code units.
- **`parseInt` whitespace.** The white-space set `parseInt` skips is the ECMAScript one as listed in `TransactionRoutes.IsSpace`.
- TransactionRoutes.HistoryPagesTile: pages tile the list only because the model breaks ties in `createdAt` by insertion order (the sort in `Ordering.SortBy` is stable over the table's scan order). The store orders by `createdAt` alone and leaves the order of tied rows unspecified, so between two page queries a row tied with another may appear on both pages or on neither. The same tie order is fixed in `TransactionRoutes.HistoryMatches`, `PayRequestRoutes.Listing` and `Processor.FetchPendingTransactions`, whose contracts do not depend on it.
- TransactionRoutes.History: a negative parsed limit is modelled as a store error (`Internal`). The store's own treatment of a negative `take` is not modelled. A query parameter given several times, and so arriving as an array, is not modelled.
- **Error details.** The `details` field of error responses, and the related rows (`include`/`select` of sender, recipient, merchant and consumer) that the API attaches to its answers, are left out.
- **Routing.** Router-level middleware chaining is not modelled. The handlers take the `user` the gates leave on the request, and the gates are modelled separately.
- **Configuration.** Configuration parsing and the sweeper's deployment defaults (`POLL_INTERVAL_MS` 5000, `BATCH_SIZE` 10 in `apps/sweeper/src/config.ts`) are not modelled. The batch size is a parameter of every pass and run, and the poll interval only paces the loop.
- **Unmodelled files.** `apps/api/src/routes/auth.routes.ts`, `apps/api/src/routes/user.routes.ts`, the client applications and the UI package are not part of this model.
