/** The route handlers, each run after `existCustomer` (except the listing),
    as pure transitions from the customer collection to a reply and the next
    collection. */
module Routes {
  import Json
  import opened Options
  import opened Ledger
  import opened Middleware

  /** The error messages the handlers answer with. `TypeError` is the
      exception a handler throws when it reads a field of a request slot the
      middleware left undefined; Express answers it with a 500. */
  datatype Failure =
    | CustomerNotFound
    | CpfNotNumber
    | AlreadyRegistered
    | AmountMissing
    | TypeMissing
    | TypeNotString
    | TypeNotCredit
    | AmountNotNumber
    | InsufficientFunds
    | NothingToChange
    | NoCustomers
    | TypeError

  datatype Notice = DepositMade | WithdrawalPaid

  /** Response bodies, reduced to an outcome tag and the data they carry. */
  datatype Payload =
    | Empty
    | Error(failure: Failure)
    | Message(notice: Notice)
    | OneCustomer(customer: Customer)
    | Customers(customers: Store)
    | Operations(ops: seq<Operation>)
    | Updated(changed: Customer)
    | Deleted(remaining: Store)

  /** `NoReply` is a request left hanging: neither `next()` nor a response. */
  datatype Reply = Reply(status: int, payload: Payload) | NoReply
  {
    predicate Rejects() { NoReply? || status >= 400 }
  }

  datatype Transition = Transition(reply: Reply, store: Store)

  /** What the middleware attached to the request: `request.customer` and
      `request.findCustomer`, as positions in the collection. */
  datatype Context = Context(caller: Option<nat>, target: Option<nat>)

  predicate ValidContext(store: Store, ctx: Context)
  {
    && (ctx.caller.Some? ==> ctx.caller.value < |store|)
    && (ctx.target.Some? ==> ctx.target.value < |store|)
  }

  function Attach(res: Resolution): Context
  {
    match res
    case Found(Caller, i) => Context(Some(i), None)
    case Found(Target, i) => Context(None, Some(i))
    case _ => Context(None, None)
  }

  /** The middleware's own answer when it does not call `next()`. */
  function Refuse(res: Resolution): Reply
  {
    match res
    case NotFound => Reply(404, Error(CustomerNotFound))
    case BadType => Reply(400, Error(CpfNotNumber))
    case Duplicate => Reply(400, Error(AlreadyRegistered))
    case _ => NoReply
  }

  function Crash(store: Store): Transition
  {
    Transition(Reply(500, Error(TypeError)), store)
  }

  // ---------------------------------------------------------------------
  // Which customer a request reaches

  /** The header cpf is present and names a registered customer. */
  predicate HeaderFinds(store: Store, req: Request)
  {
    req.headerCpf.Some? && Registered(store, req.headerCpf.value)
  }

  /** There is no header, and the path cpf names a registered customer. */
  predicate PathFinds(store: Store, req: Request)
  {
    req.headerCpf.None? && req.paramCpf.Some? && Registered(store, req.paramCpf.value)
  }

  /** The position the header (or, failing that, the path) resolves to. */
  function Located(store: Store, req: Request): (i: nat)
    requires HeaderFinds(store, req) || PathFinds(store, req)
    ensures i < |store|
  {
    var n := if req.headerCpf.Some? then req.headerCpf.value else req.paramCpf.value;
    FindByCpf(store, n).value
  }

  lemma ResolveLocated(store: Store, req: Request)
    ensures HeaderFinds(store, req) ==> Resolve(store, req) == Found(Caller, Located(store, req))
    ensures PathFinds(store, req) ==> Resolve(store, req) == Found(Target, Located(store, req))
  {
  }

  // ---------------------------------------------------------------------
  // Handlers, given what the middleware attached

  /** POST /customers: a new customer with the body's cpf and name and an
      empty statement, under the identifier `freshId` standing for `uuid()`. */
  function CreateHandler(store: Store, body: Body, freshId: nat): Transition
  {
    Transition(Reply(201, Empty), store + [Customer(freshId, body.cpf, body.name, [])])
  }

  /** GET /statement. */
  function StatementHandler(store: Store, ctx: Context): Transition
    requires ValidContext(store, ctx)
  {
    match ctx.caller
    case Some(i) => Transition(Reply(200, Operations(store[i].statement)), store)
    case None => Crash(store)
  }

  /** GET /statement/date. `filter` always returns an array, and an array is
      truthy, so the 404 for a missing result is never answered. */
  function StatementByDayHandler(store: Store, ctx: Context, date: Option<int>): Transition
    requires ValidContext(store, ctx)
  {
    match ctx.caller
    case Some(i) => Transition(Reply(200, Operations(OnDay(store[i].statement, date))), store)
    case None => Crash(store)
  }

  /** The deposit body passes every check: a non-zero number as amount and
      the string "credit" as type. */
  predicate ValidDeposit(body: Body)
  {
    body.amount.Num? && body.amount.n != 0 && body.kind == Json.Str("credit")
  }

  /** POST /deposit/:cpf: the payload checks, first failure wins, then one
      credit appended to `request.findCustomer` on day `today`. */
  function DepositHandler(store: Store, ctx: Context, body: Body, today: int): (t: Transition)
    requires ValidContext(store, ctx)
    ensures t.reply.Reply? && t.reply.status < 400 <==> ValidDeposit(body) && ctx.target.Some?
  {
    if !Json.Truthy(body.amount) then Transition(Reply(422, Error(AmountMissing)), store)
    else if !Json.Truthy(body.kind) then Transition(Reply(422, Error(TypeMissing)), store)
    else if Json.TypeOf(body.kind) != "string" then Transition(Reply(400, Error(TypeNotString)), store)
    else if body.kind.s != "credit" then Transition(Reply(400, Error(TypeNotCredit)), store)
    else if Json.TypeOf(body.amount) != "number" then Transition(Reply(400, Error(AmountNotNumber)), store)
    else
      match ctx.target
      case None => Crash(store)
      case Some(i) =>
        var op := Operation(Credit, body.amount.n, body.description, today);
        Transition(Reply(200, Message(DepositMade)), store[i := store[i].(statement := store[i].statement + [op])])
  }

  /** POST /withdraw: refused when the amount exceeds the balance of
      `request.customer`, otherwise one debit appended on day `today`. */
  function WithdrawHandler(store: Store, ctx: Context, amount: int, today: int): Transition
    requires ValidContext(store, ctx)
  {
    match ctx.caller
    case None => Crash(store)
    case Some(i) =>
      if amount > Balance(store[i].statement) then Transition(Reply(400, Error(InsufficientFunds)), store)
      else
        var op := Operation(Debit, amount, Json.Undefined, today);
        Transition(Reply(201, Message(WithdrawalPaid)), store[i := store[i].(statement := store[i].statement + [op])])
  }

  /** GET /customer. With no customer attached the handler sends
      `json(undefined)`, an empty 200. */
  function CustomerHandler(store: Store, ctx: Context): Transition
    requires ValidContext(store, ctx)
  {
    match ctx.caller
    case Some(i) => Transition(Reply(200, OneCustomer(store[i])), store)
    case None => Transition(Reply(200, Empty), store)
  }

  /** The customer after an update: each truthy field replaces the stored one. */
  function Amend(c: Customer, body: Body): Customer
  {
    c.(name := if Json.Truthy(body.name) then body.name else c.name,
       cpf := if Json.Truthy(body.cpf) then body.cpf else c.cpf)
  }

  /** PUT /customer/:cpf. The `= null` defaults of the destructuring only
      turn one falsy value into another, so they are not modelled. */
  function UpdateHandler(store: Store, ctx: Context, body: Body): Transition
    requires ValidContext(store, ctx)
  {
    if !Json.Truthy(body.name) && !Json.Truthy(body.cpf) then Transition(Reply(400, Error(NothingToChange)), store)
    else
      match ctx.target
      case None => Crash(store)
      case Some(i) =>
        var changed := Amend(store[i], body);
        Transition(Reply(200, Updated(changed)), store[i := changed])
  }

  /** DELETE /customer/:cpf: every customer sharing the found one's `_id` goes. */
  function DeleteHandler(store: Store, ctx: Context): Transition
    requires ValidContext(store, ctx)
  {
    match ctx.target
    case None => Crash(store)
    case Some(i) =>
      var remaining := RemoveId(store, store[i].id);
      Transition(Reply(200, Deleted(remaining)), remaining)
  }

  // ---------------------------------------------------------------------
  // Routes: middleware, then handler

  lemma WithdrawBalance(store: Store, req: Request, today: int)
    requires HeaderFinds(store, req) ==> Json.IntConvertible(req.body.amount)
    ensures HeaderFinds(store, req) ==>
      var stmt := store[Located(store, req)].statement;
      var amount := Json.ToInt(req.body.amount);
      Balance(stmt + [Operation(Debit, amount, Json.Undefined, today)]) == Balance(stmt) - amount
  {
    if HeaderFinds(store, req) {
      var i := Located(store, req);
      BalanceAppend(store[i].statement, Operation(Debit, Json.ToInt(req.body.amount), Json.Undefined, today));
    }
  }

  lemma DeleteExactlyOne(store: Store, req: Request)
    ensures PathFinds(store, req) && UniqueIds(store) ==>
      var i := Located(store, req);
      RemoveId(store, store[i].id) == store[..i] + store[i + 1..]
  {
    if PathFinds(store, req) && UniqueIds(store) {
      RemoveIdExactlyOne(store, Located(store, req));
    }
  }

  /** POST /customers. */
  function PostCustomers(store: Store, req: Request, freshId: nat): (t: Transition)
    // Either nothing changes, or exactly one customer is appended.
    ensures t.store == store || t.store == store + [Customer(freshId, req.body.cpf, req.body.name, [])]
    ensures t.store != store <==> t.reply == Reply(201, Empty)
    // On the body path: created exactly when the cpf is a fresh non-zero number.
    ensures req.headerCpf.None? && req.paramCpf.None? ==>
      var cpf := req.body.cpf;
      && (t.reply == Reply(201, Empty) <==> cpf.Num? && cpf.n != 0 && !Registered(store, cpf.n))
      && (cpf.Num? && cpf.n != 0 && Registered(store, cpf.n) ==> t == Transition(Reply(400, Error(AlreadyRegistered)), store))
      && (Json.Truthy(cpf) && !cpf.Num? ==> t == Transition(Reply(400, Error(CpfNotNumber)), store))
      && (!Json.Truthy(cpf) ==> t == Transition(NoReply, store))
    // A header naming a registered customer skips every check on the body.
    ensures HeaderFinds(store, req) ==> t.reply == Reply(201, Empty)
  {
    var res := Resolve(store, req);
    if res.CallsNext() then CreateHandler(store, req.body, freshId) else Transition(Refuse(res), store)
  }

  /** GET /statement. */
  function GetStatement(store: Store, req: Request): (t: Transition)
    ensures t.store == store
    ensures t.reply.Reply? && t.reply.status == 200 <==> HeaderFinds(store, req)
    ensures HeaderFinds(store, req) ==>
      t.reply == Reply(200, Operations(store[Located(store, req)].statement))
    ensures req.headerCpf.Some? && !Registered(store, req.headerCpf.value) ==>
      t.reply == Reply(404, Error(CustomerNotFound))
  {
    ResolveLocated(store, req);
    var res := Resolve(store, req);
    if res.CallsNext() then StatementHandler(store, Attach(res)) else Transition(Refuse(res), store)
  }

  /** GET /statement/date. */
  function GetStatementByDate(store: Store, req: Request): (t: Transition)
    ensures t.store == store
    ensures t.reply.Reply? && t.reply.status == 200 <==> HeaderFinds(store, req)
    ensures t.reply.Reply? ==> t.reply.status != 404 || t.reply.payload == Error(CustomerNotFound)
    ensures HeaderFinds(store, req) ==>
      && t.reply.Reply? && t.reply.status == 200 && t.reply.payload.Operations?
      && var stmt := store[Located(store, req)].statement;
         && t.reply.payload.ops == OnDay(stmt, req.date)
         && forall op :: op in t.reply.payload.ops <==> op in stmt && req.date == Some(op.day)
  {
    ResolveLocated(store, req);
    var res := Resolve(store, req);
    if res.CallsNext() then StatementByDayHandler(store, Attach(res), req.date) else Transition(Refuse(res), store)
  }

  /** POST /deposit/:cpf. */
  function PostDeposit(store: Store, req: Request, today: int): (t: Transition)
    // Every refusal leaves the collection as it was.
    ensures t.reply.Rejects() ==> t.store == store
    // Accepted exactly when the path finds the customer and the body is valid.
    ensures t.reply == Reply(200, Message(DepositMade)) <==> PathFinds(store, req) && ValidDeposit(req.body)
    // A header resolves into the other slot: a valid body reaches `push` on undefined.
    ensures HeaderFinds(store, req) && ValidDeposit(req.body) ==> t == Transition(Reply(500, Error(TypeError)), store)
    ensures PathFinds(store, req) && ValidDeposit(req.body) ==>
      var i := Located(store, req);
      && |t.store| == |store|
      && (forall j :: 0 <= j < |store| && j != i ==> t.store[j] == store[j])
      && t.store[i].id == store[i].id && t.store[i].cpf == store[i].cpf && t.store[i].name == store[i].name
      && t.store[i].statement == store[i].statement + [Operation(Credit, req.body.amount.n, req.body.description, today)]
    // When the middleware lets the request through, the checks run in order.
    ensures Resolve(store, req).CallsNext() ==>
      var amount := req.body.amount;
      var kind := req.body.kind;
      && (!Json.Truthy(amount) <==> t.reply == Reply(422, Error(AmountMissing)))
      && (Json.Truthy(amount) && !Json.Truthy(kind) <==> t.reply == Reply(422, Error(TypeMissing)))
      && (Json.Truthy(amount) && Json.Truthy(kind) && !kind.Str? <==> t.reply == Reply(400, Error(TypeNotString)))
      && (Json.Truthy(amount) && kind.Str? && kind.s !in {"", "credit"} <==> t.reply == Reply(400, Error(TypeNotCredit)))
      && (Json.Truthy(amount) && !amount.Num? && kind == Json.Str("credit") <==> t.reply == Reply(400, Error(AmountNotNumber)))
  {
    ResolveLocated(store, req);
    var res := Resolve(store, req);
    if res.CallsNext() then DepositHandler(store, Attach(res), req.body, today) else Transition(Refuse(res), store)
  }

  /** POST /withdraw. Both `amount > balance` and the later `acc - amount`
      convert the body amount to a number; the model takes the amounts whose
      conversion is an integer fixed by the value (numbers, `null`, booleans)
      and records the converted amount. The amount is compared only after
      `customer.statement` has been read, so without a customer from the
      header the request fails before the amount matters. */
  function PostWithdraw(store: Store, req: Request, today: int): (t: Transition)
    requires HeaderFinds(store, req) ==> Json.IntConvertible(req.body.amount)
    ensures t.reply.Rejects() ==> t.store == store
    ensures t.reply.Reply? && t.reply.status == 201 <==>
      HeaderFinds(store, req) && Json.ToInt(req.body.amount) <= Balance(store[Located(store, req)].statement)
    ensures !HeaderFinds(store, req) ==> t.store == store
    // Without a customer from the header the request is refused, whatever the amount:
    // 404 for an unknown header cpf, otherwise the middleware's answer or the 500
    // of reading `statement` on undefined.
    ensures !HeaderFinds(store, req) ==> t.reply.Rejects()
    ensures req.headerCpf.Some? && !Registered(store, req.headerCpf.value) ==>
      t.reply == Reply(404, Error(CustomerNotFound))
    ensures req.headerCpf.None? && Resolve(store, req).CallsNext() ==> t == Crash(store)
    ensures HeaderFinds(store, req) ==>
      var i := Located(store, req);
      var amount := Json.ToInt(req.body.amount);
      var balance := Balance(store[i].statement);
      if amount > balance then
        t == Transition(Reply(400, Error(InsufficientFunds)), store)
      else
        && t.reply == Reply(201, Message(WithdrawalPaid))
        && |t.store| == |store|
        && (forall j :: 0 <= j < |store| && j != i ==> t.store[j] == store[j])
        && t.store[i] == store[i].(statement := store[i].statement + [Operation(Debit, amount, Json.Undefined, today)])
        && Balance(t.store[i].statement) == balance - amount >= 0
  {
    ResolveLocated(store, req);
    WithdrawBalance(store, req, today);
    var res := Resolve(store, req);
    if res.Found? && res.slot == Caller then WithdrawHandler(store, Attach(res), Json.ToInt(req.body.amount), today)
    else if res.CallsNext() then Crash(store)
    else Transition(Refuse(res), store)
  }

  /** The amount decides nothing unless the header finds the customer. */
  lemma WithdrawIgnoresAmount(store: Store, req: Request, today: int, amount: Json.Value)
    requires !HeaderFinds(store, req)
    ensures PostWithdraw(store, req, today) == PostWithdraw(store, req.(body := req.body.(amount := amount)), today)
  {
  }

  /** GET /customer. */
  function GetCustomer(store: Store, req: Request): (t: Transition)
    ensures t.store == store
    ensures t.reply.Reply? && t.reply.payload.OneCustomer? ==> HeaderFinds(store, req)
    ensures t.reply.Reply? && t.reply.status == 200 <==> Resolve(store, req).CallsNext()
    ensures HeaderFinds(store, req) ==> t.reply == Reply(200, OneCustomer(store[Located(store, req)]))
  {
    ResolveLocated(store, req);
    var res := Resolve(store, req);
    if res.CallsNext() then CustomerHandler(store, Attach(res)) else Transition(Refuse(res), store)
  }

  /** PUT /customer/:cpf. */
  function PutCustomer(store: Store, req: Request): (t: Transition)
    ensures t.reply.Rejects() ==> t.store == store
    ensures t.reply.Reply? && t.reply.status == 200 <==>
      PathFinds(store, req) && (Json.Truthy(req.body.name) || Json.Truthy(req.body.cpf))
    // A header resolves into the other slot: the handler throws on the first write.
    ensures HeaderFinds(store, req) && (Json.Truthy(req.body.name) || Json.Truthy(req.body.cpf)) ==>
      t == Transition(Reply(500, Error(TypeError)), store)
    ensures !PathFinds(store, req) ==> t.store == store
    ensures PathFinds(store, req) ==>
      var i := Located(store, req);
      var name := req.body.name;
      var cpf := req.body.cpf;
      if !Json.Truthy(name) && !Json.Truthy(cpf) then
        t == Transition(Reply(400, Error(NothingToChange)), store)
      else
        && |t.store| == |store|
        && t.reply == Reply(200, Updated(t.store[i]))
        && (forall j :: 0 <= j < |store| && j != i ==> t.store[j] == store[j])
        && t.store[i].id == store[i].id
        && t.store[i].statement == store[i].statement
        && t.store[i].name == (if Json.Truthy(name) then name else store[i].name)
        && t.store[i].cpf == (if Json.Truthy(cpf) then cpf else store[i].cpf)
  {
    ResolveLocated(store, req);
    var res := Resolve(store, req);
    if res.CallsNext() then UpdateHandler(store, Attach(res), req.body) else Transition(Refuse(res), store)
  }

  /** DELETE /customer/:cpf. */
  function DeleteCustomer(store: Store, req: Request): (t: Transition)
    ensures t.reply.Rejects() ==> t.store == store
    ensures t.reply.Reply? && t.reply.status == 200 <==> PathFinds(store, req)
    ensures HeaderFinds(store, req) ==> t == Transition(Reply(500, Error(TypeError)), store)
    ensures !PathFinds(store, req) ==> t.store == store
    ensures PathFinds(store, req) ==>
      var i := Located(store, req);
      && t.reply == Reply(200, Deleted(t.store))
      && (forall c :: c in t.store <==> c in store && c.id != store[i].id)
      && t.store == RemoveId(store, store[i].id)
      && (UniqueIds(store) ==> t.store == store[..i] + store[i + 1..])
  {
    ResolveLocated(store, req);
    DeleteExactlyOne(store, req);
    var res := Resolve(store, req);
    if res.CallsNext() then DeleteHandler(store, Attach(res)) else Transition(Refuse(res), store)
  }

  /** GET /customers, which runs no middleware. */
  function GetCustomers(store: Store): (t: Transition)
    ensures t.store == store
    ensures t.reply.Reply? && (t.reply.status == 404 <==> |store| == 0)
    ensures |store| > 0 ==> t.reply == Reply(200, Customers(store))
  {
    if |store| == 0 then Transition(Reply(404, Error(NoCustomers)), store)
    else Transition(Reply(200, Customers(store)), store)
  }
}
