/** The request validators. A request body is a JSON object; each schema either
    accepts it, producing a typed input, or rejects it (a validation error). Keys a
    schema does not name are ignored. Whether a string is an e-mail address is
    decided by the validation library and is a parameter here. */
module Schemas {
  import opened Models

  /** A JSON value as far as the validators look into it: arrays and objects are
      never accepted where a validator expects a scalar. */
  datatype Json = JNull | JBool(b: bool) | JNumber(n: real) | JString(s: string) | JComposite

  type Body = map<string, Json>

  const MaxAmount := 1000000000
  const MaxMessageLength := 500
  const MinPasswordLength := 8
  const MaxPasswordLength := 100
  const DefaultLimit := 20
  const MaxLimit := 100
  const DefaultOffset := 0

  predicate IsInteger(x: real)
  {
    x.Floor as real == x
  }

  /** An amount in cents as the transfer and pay-request schemas admit it. */
  predicate ValidAmount(amount: int)
  {
    0 < amount <= MaxAmount
  }

  // ----- field validators -----

  /** `z.string()`: present and a string. */
  function StringField(body: Body, key: string): (r: Option<string>)
    ensures r.Some? <==> key in body && body[key].JString?
    ensures r.Some? ==> body[key] == JString(r.value)
  {
    if key in body && body[key].JString? then Some(body[key].s) else None
  }

  /** `z.string().email()`. */
  function EmailField(body: Body, key: string, isEmail: string -> bool): (r: Option<string>)
    ensures r.Some? <==> key in body && body[key].JString? && isEmail(body[key].s)
    ensures r.Some? ==> body[key] == JString(r.value)
  {
    match StringField(body, key)
    case Some(s) => if isEmail(s) then Some(s) else None
    case None => None
  }

  /** `z.number().int().positive().max(1000000000)`. */
  function AmountField(body: Body, key: string): (r: Option<int>)
    ensures r.Some? <==> key in body && body[key].JNumber? && IsInteger(body[key].n)
                         && 0.0 < body[key].n <= MaxAmount as real
    ensures r.Some? ==> ValidAmount(r.value) && body[key] == JNumber(r.value as real)
  {
    if key in body && body[key].JNumber? && IsInteger(body[key].n) && 0.0 < body[key].n <= MaxAmount as real
    then Some(body[key].n.Floor)
    else None
  }

  /** `z.number().int().min(lo).default(d)`, with an optional upper bound: an absent
      field takes the default, a present one must be an integer in range. */
  function BoundedIntField(body: Body, key: string, lo: int, hi: Option<int>, default: int): (r: Option<int>)
    ensures key !in body ==> r == Some(default)
    ensures key in body ==>
      (r.Some? <==> body[key].JNumber? && IsInteger(body[key].n) && lo as real <= body[key].n
                    && (hi.Some? ==> body[key].n <= hi.value as real))
    ensures key in body && r.Some? ==> body[key] == JNumber(r.value as real)
  {
    if key !in body then Some(default)
    else if body[key].JNumber? && IsInteger(body[key].n) && lo as real <= body[key].n
            && (hi.Some? ==> body[key].n <= hi.value as real)
    then Some(body[key].n.Floor)
    else None
  }

  // ----- registerSchema -----

  datatype RegisterInput = RegisterInput(email: string, password: string, userType: UserType)

  predicate ValidRegister(x: RegisterInput, isEmail: string -> bool)
  {
    isEmail(x.email) && MinPasswordLength <= |x.password| <= MaxPasswordLength
  }

  function RegisterBody(x: RegisterInput): Body
  {
    map["email" := JString(x.email), "password" := JString(x.password), "userType" := JString(UserTypeName(x.userType))]
  }

  /** `registerSchema.parse`: an e-mail, a password of 8 to 100 characters and a
      user type spelled as the enumeration spells it. */
  function ParseRegister(body: Body, isEmail: string -> bool): (r: Option<RegisterInput>)
    ensures r.Some? <==> && EmailField(body, "email", isEmail).Some?
                         && "password" in body && body["password"].JString?
                         && MinPasswordLength <= |body["password"].s| <= MaxPasswordLength
                         && "userType" in body && body["userType"].JString?
                         && ParseUserType(body["userType"].s).Some?
    ensures r.Some? ==> ValidRegister(r.value, isEmail)
    ensures r.Some? ==> && body["email"] == JString(r.value.email) && body["password"] == JString(r.value.password)
                        && body["userType"] == JString(UserTypeName(r.value.userType))
  {
    match (EmailField(body, "email", isEmail), StringField(body, "password"), StringField(body, "userType"))
    case (Some(email), Some(password), Some(t)) =>
      if MinPasswordLength <= |password| <= MaxPasswordLength && ParseUserType(t).Some? then
        Some(RegisterInput(email, password, ParseUserType(t).value))
      else None
    case _ => None
  }

  lemma RegisterRoundTrip(x: RegisterInput, isEmail: string -> bool)
    requires ValidRegister(x, isEmail)
    ensures ParseRegister(RegisterBody(x), isEmail) == Some(x)
  {
    assert ParseUserType(UserTypeName(x.userType)) == Some(x.userType);
  }

  // ----- loginSchema -----

  datatype LoginInput = LoginInput(email: string, password: string)

  predicate ValidLogin(x: LoginInput, isEmail: string -> bool)
  {
    isEmail(x.email) && |x.password| >= 1
  }

  function LoginBody(x: LoginInput): Body
  {
    map["email" := JString(x.email), "password" := JString(x.password)]
  }

  /** `loginSchema.parse`: an e-mail and a non-empty password. */
  function ParseLogin(body: Body, isEmail: string -> bool): (r: Option<LoginInput>)
    ensures r.Some? <==> && "email" in body && body["email"].JString? && isEmail(body["email"].s)
                         && "password" in body && body["password"].JString? && |body["password"].s| >= 1
    ensures r.Some? ==> ValidLogin(r.value, isEmail)
    ensures r.Some? ==> body["email"] == JString(r.value.email) && body["password"] == JString(r.value.password)
  {
    match (EmailField(body, "email", isEmail), StringField(body, "password"))
    case (Some(email), Some(password)) => if |password| >= 1 then Some(LoginInput(email, password)) else None
    case _ => None
  }

  lemma LoginRoundTrip(x: LoginInput, isEmail: string -> bool)
    requires ValidLogin(x, isEmail)
    ensures ParseLogin(LoginBody(x), isEmail) == Some(x)
  {
  }

  // ----- transferSchema -----

  datatype TransferInput = TransferInput(toEmail: string, amount: int)

  predicate ValidTransfer(x: TransferInput, isEmail: string -> bool)
  {
    isEmail(x.toEmail) && ValidAmount(x.amount)
  }

  function TransferBody(x: TransferInput): Body
  {
    map["toEmail" := JString(x.toEmail), "amount" := JNumber(x.amount as real)]
  }

  /** `transferSchema.parse`: a recipient e-mail and a whole, positive amount of at
      most 1 000 000 000 cents. */
  function ParseTransfer(body: Body, isEmail: string -> bool): (r: Option<TransferInput>)
    ensures r.Some? <==> EmailField(body, "toEmail", isEmail).Some? && AmountField(body, "amount").Some?
    ensures r.Some? ==> ValidTransfer(r.value, isEmail)
    ensures r.Some? ==> body["toEmail"] == JString(r.value.toEmail) && body["amount"] == JNumber(r.value.amount as real)
  {
    match (EmailField(body, "toEmail", isEmail), AmountField(body, "amount"))
    case (Some(toEmail), Some(amount)) => Some(TransferInput(toEmail, amount))
    case _ => None
  }

  lemma TransferRoundTrip(x: TransferInput, isEmail: string -> bool)
    requires ValidTransfer(x, isEmail)
    ensures ParseTransfer(TransferBody(x), isEmail) == Some(x)
  {
    assert (x.amount as real).Floor == x.amount;
  }

  // ----- createPayRequestSchema -----

  datatype CreatePayRequestInput = CreatePayRequestInput(consumerEmail: string, amount: int, message: Option<string>)

  predicate ValidCreatePayRequest(x: CreatePayRequestInput, isEmail: string -> bool)
  {
    isEmail(x.consumerEmail) && ValidAmount(x.amount) && (x.message.Some? ==> |x.message.value| <= MaxMessageLength)
  }

  function CreatePayRequestBody(x: CreatePayRequestInput): Body
  {
    var b := map["consumerEmail" := JString(x.consumerEmail), "amount" := JNumber(x.amount as real)];
    if x.message.Some? then b["message" := JString(x.message.value)] else b
  }

  /** `z.string().max(500).optional()`: absent, or a string of at most 500 characters.
      The outer `Option` is the verdict, the inner one the field's value. */
  function MessageField(body: Body): (r: Option<Option<string>>)
    ensures "message" !in body ==> r == Some(None)
    ensures "message" in body ==>
      (r.Some? <==> body["message"].JString? && |body["message"].s| <= MaxMessageLength)
    ensures "message" in body && r.Some? ==> r.value == Some(body["message"].s)
  {
    if "message" !in body then Some(None)
    else if body["message"].JString? && |body["message"].s| <= MaxMessageLength then Some(Some(body["message"].s))
    else None
  }

  /** `createPayRequestSchema.parse`: a consumer e-mail, an amount as for transfers and
      an optional message. */
  function ParseCreatePayRequest(body: Body, isEmail: string -> bool): (r: Option<CreatePayRequestInput>)
    ensures r.Some? <==> && EmailField(body, "consumerEmail", isEmail).Some? && AmountField(body, "amount").Some?
                         && MessageField(body).Some?
    ensures r.Some? ==> ValidCreatePayRequest(r.value, isEmail)
    ensures r.Some? ==> && body["consumerEmail"] == JString(r.value.consumerEmail)
                        && body["amount"] == JNumber(r.value.amount as real)
                        && (r.value.message.None? <==> "message" !in body)
    ensures r.Some? && "message" in body ==> r.value.message == Some(body["message"].s)
  {
    match (EmailField(body, "consumerEmail", isEmail), AmountField(body, "amount"), MessageField(body))
    case (Some(email), Some(amount), Some(message)) => Some(CreatePayRequestInput(email, amount, message))
    case _ => None
  }

  lemma CreatePayRequestRoundTrip(x: CreatePayRequestInput, isEmail: string -> bool)
    requires ValidCreatePayRequest(x, isEmail)
    ensures ParseCreatePayRequest(CreatePayRequestBody(x), isEmail) == Some(x)
  {
    assert (x.amount as real).Floor == x.amount;
  }

  // ----- payRequestActionSchema -----

  datatype Action = Approve | Reject

  function ActionName(a: Action): string
  {
    match a
    case Approve => "approve"
    case Reject => "reject"
  }

  /** `payRequestActionSchema.parse`: the action is exactly "approve" or "reject". */
  function ParseAction(body: Body): (r: Option<Action>)
    ensures r.Some? <==> "action" in body && (body["action"] == JString("approve") || body["action"] == JString("reject"))
    ensures r.Some? ==> body["action"] == JString(ActionName(r.value))
  {
    if "action" in body && body["action"] == JString("approve") then Some(Approve)
    else if "action" in body && body["action"] == JString("reject") then Some(Reject)
    else None
  }

  lemma ActionRoundTrip(a: Action)
    ensures ParseAction(map["action" := JString(ActionName(a))]) == Some(a)
  {
  }

  // ----- transactionQuerySchema -----

  datatype TransactionQuery = TransactionQuery(limit: int, offset: int, status: Option<string>)

  predicate ValidQuery(q: TransactionQuery)
  {
    1 <= q.limit <= MaxLimit && q.offset >= 0
  }

  function QueryBody(q: TransactionQuery): Body
  {
    var b := map["limit" := JNumber(q.limit as real), "offset" := JNumber(q.offset as real)];
    if q.status.Some? then b["status" := JString(q.status.value)] else b
  }

  /** `transactionQuerySchema.parse`: a limit in 1..100 defaulting to 20, an offset of
      at least 0 defaulting to 0, and an optional status string. */
  function ParseQuery(body: Body): (r: Option<TransactionQuery>)
    ensures r.Some? <==> && BoundedIntField(body, "limit", 1, Some(MaxLimit), DefaultLimit).Some?
                         && BoundedIntField(body, "offset", 0, None, DefaultOffset).Some?
                         && ("status" in body ==> body["status"].JString?)
    ensures r.Some? ==> ValidQuery(r.value)
    ensures r.Some? && "limit" in body ==> body["limit"] == JNumber(r.value.limit as real)
    ensures r.Some? && "offset" in body ==> body["offset"] == JNumber(r.value.offset as real)
    ensures r.Some? && "status" in body ==> r.value.status == Some(body["status"].s)
    ensures r.Some? && "limit" !in body ==> r.value.limit == DefaultLimit
    ensures r.Some? && "offset" !in body ==> r.value.offset == DefaultOffset
    ensures r.Some? ==> (r.value.status.None? <==> "status" !in body)
    ensures "limit" !in body && "offset" !in body && "status" !in body ==>
              r == Some(TransactionQuery(DefaultLimit, DefaultOffset, None))
  {
    var status := if "status" !in body then Some(None)
                  else if body["status"].JString? then Some(Some(body["status"].s))
                  else None;
    match (BoundedIntField(body, "limit", 1, Some(MaxLimit), DefaultLimit),
           BoundedIntField(body, "offset", 0, None, DefaultOffset), status)
    case (Some(limit), Some(offset), Some(st)) => Some(TransactionQuery(limit, offset, st))
    case _ => None
  }

  lemma QueryRoundTrip(q: TransactionQuery)
    requires ValidQuery(q)
    ensures ParseQuery(QueryBody(q)) == Some(q)
  {
    assert (q.limit as real).Floor == q.limit && (q.offset as real).Floor == q.offset;
  }
}
