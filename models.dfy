/** Record shapes of the ledger: users (accounts), transactions and pay requests,
    with their status enumerations, and the payload carried by an access token. */
module Models {

  datatype Option<+T> = None | Some(value: T)

  /** Every row is addressed by an opaque identifier (a UUID string in the store). The
      core only compares identifiers for equality, so they are modelled as naturals. */
  type Id = nat

  /** Wall-clock instants in milliseconds; the clock itself is an input of the model. */
  type Timestamp = int

  datatype UserType = CONSUMER | MERCHANT

  datatype TransactionStatus = PENDING | COMPLETED | FAILED

  datatype TransactionType = TRANSFER | PAY_REQUEST

  datatype PayRequestStatus = PENDING | APPROVED | REJECTED

  /** An account. `balance` is in minor currency units (cents). */
  datatype User = User(
    id: Id,
    email: string,
    userType: UserType,
    balance: int,
    createdAt: Timestamp,
    updatedAt: Timestamp)

  /** An intent to move `amount` from `fromUserId` to `toUserId`.
      `kind` is the row's `type` column. */
  datatype Transaction = Transaction(
    id: Id,
    fromUserId: Id,
    toUserId: Id,
    amount: int,
    status: TransactionStatus,
    kind: TransactionType,
    createdAt: Timestamp,
    completedAt: Option<Timestamp>,
    failureReason: Option<string>)

  /** A merchant's request for `amount` from a consumer. */
  datatype PayRequest = PayRequest(
    id: Id,
    merchantId: Id,
    consumerId: Id,
    amount: int,
    status: PayRequestStatus,
    message: Option<string>,
    createdAt: Timestamp,
    updatedAt: Timestamp)

  /** What a verified access token says about its bearer. */
  datatype JwtPayload = JwtPayload(userId: Id, email: string, userType: UserType)

  /** The enumeration values as the store spells them. */
  function UserTypeName(t: UserType): string
  {
    match t
    case CONSUMER => "CONSUMER"
    case MERCHANT => "MERCHANT"
  }

  function TransactionStatusName(s: TransactionStatus): string
  {
    match s
    case PENDING => "PENDING"
    case COMPLETED => "COMPLETED"
    case FAILED => "FAILED"
  }

  /** The pay-request status in lower case, as error messages print it. */
  function PayRequestStatusLower(s: PayRequestStatus): string
  {
    match s
    case PENDING => "pending"
    case APPROVED => "approved"
    case REJECTED => "rejected"
  }

  /** Reading a status name back is the inverse of printing it. */
  function ParseTransactionStatus(name: string): (r: Option<TransactionStatus>)
    ensures r.Some? ==> TransactionStatusName(r.value) == name
    ensures forall s: TransactionStatus :: TransactionStatusName(s) == name ==> r == Some(s)
  {
    if name == "PENDING" then Some(TransactionStatus.PENDING)
    else if name == "COMPLETED" then Some(COMPLETED)
    else if name == "FAILED" then Some(FAILED)
    else None
  }

  function ParseUserType(name: string): (r: Option<UserType>)
    ensures r.Some? ==> UserTypeName(r.value) == name
    ensures forall t: UserType :: UserTypeName(t) == name ==> r == Some(t)
  {
    if name == "CONSUMER" then Some(CONSUMER)
    else if name == "MERCHANT" then Some(MERCHANT)
    else None
  }
}
