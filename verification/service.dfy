/** The service as a whole: every route as one state machine over the
    customer collection, and what holds across all of its transitions. */
module Service {
  import Json
  import opened Options
  import opened Ledger
  import opened Middleware
  import opened Routes

  datatype Endpoint =
    | CreateCustomer       // POST /customers
    | ReadStatement        // GET /statement
    | ReadStatementByDate  // GET /statement/date
    | MakeDeposit          // POST /deposit/:cpf
    | MakeWithdrawal       // POST /withdraw
    | ReadCustomer         // GET /customer
    | ChangeCustomer       // PUT /customer/:cpf
    | RemoveCustomer       // DELETE /customer/:cpf
    | ListCustomers        // GET /customers

  /** One request against the collection. `today` is the clock reading and
      `freshId` the identifier `uuid()` would generate. */
  function Handle(e: Endpoint, store: Store, req: Request, today: int, freshId: nat): (t: Transition)
    requires e == MakeWithdrawal && HeaderFinds(store, req) ==> Json.IntConvertible(req.body.amount)
    // The reads never change the collection.
    ensures e in {ReadStatement, ReadStatementByDate, ReadCustomer, ListCustomers} ==> t.store == store
    // Only creation makes it longer, by one, and only deletion makes it shorter.
    ensures e != RemoveCustomer ==> |store| <= |t.store|
    ensures e != CreateCustomer ==> |t.store| <= |store|
    ensures |t.store| <= |store| + 1
  {
    match e
    case CreateCustomer => PostCustomers(store, req, freshId)
    case ReadStatement => GetStatement(store, req)
    case ReadStatementByDate => GetStatementByDate(store, req)
    case MakeDeposit => PostDeposit(store, req, today)
    case MakeWithdrawal => PostWithdraw(store, req, today)
    case ReadCustomer => GetCustomer(store, req)
    case ChangeCustomer => PutCustomer(store, req)
    case RemoveCustomer => DeleteCustomer(store, req)
    case ListCustomers => GetCustomers(store)
  }

  /** No partial application: every refused or unanswered request leaves
      the collection exactly as it was. */
  lemma RefusalsChangeNothing(e: Endpoint, store: Store, req: Request, today: int, freshId: nat)
    requires e == MakeWithdrawal && HeaderFinds(store, req) ==> Json.IntConvertible(req.body.amount)
    ensures Handle(e, store, req, today, freshId).reply.Rejects() ==> Handle(e, store, req, today, freshId).store == store
  {
  }

  /** A header cpf, or with no header a path cpf, that names no customer is
      answered 404 by the middleware on every route behind it, and nothing
      changes. */
  lemma UnknownCpfIs404(e: Endpoint, store: Store, req: Request, today: int, freshId: nat)
    requires e != ListCustomers
    requires || (req.headerCpf.Some? && !Registered(store, req.headerCpf.value))
             || (req.headerCpf.None? && req.paramCpf.Some? && !Registered(store, req.paramCpf.value))
    ensures Handle(e, store, req, today, freshId) == Transition(Reply(404, Error(CustomerNotFound)), store)
  {
  }

  /** Every customer after a request is either the freshly created one, with
      an empty statement, or was there before under the same `_id` with a
      statement that is a prefix of the new one: statements are append-only. */
  predicate StatementsGrow(before: Store, after: Store, freshId: nat)
  {
    forall j :: 0 <= j < |after| ==>
      || (after[j].id == freshId && after[j].statement == [])
      || exists k :: 0 <= k < |before| && before[k].id == after[j].id && before[k].statement <= after[j].statement
  }

  lemma HandleStatementsGrow(e: Endpoint, store: Store, req: Request, today: int, freshId: nat)
    requires e == MakeWithdrawal && HeaderFinds(store, req) ==> Json.IntConvertible(req.body.amount)
    ensures StatementsGrow(store, Handle(e, store, req, today, freshId).store, freshId)
  {
  }

  /** Identifiers stay pairwise distinct, given that `uuid()` returns one not
      yet in use. */
  lemma HandleKeepsIdsUnique(e: Endpoint, store: Store, req: Request, today: int, freshId: nat)
    requires e == MakeWithdrawal && HeaderFinds(store, req) ==> Json.IntConvertible(req.body.amount)
    requires UniqueIds(store)
    requires !IdUsed(store, freshId)
    ensures UniqueIds(Handle(e, store, req, today, freshId).store)
  {
    var after := Handle(e, store, req, today, freshId).store;
    if e !in {CreateCustomer, RemoveCustomer} {
      assert |after| == |store| && forall j :: 0 <= j < |after| ==> after[j].id == store[j].id;
    }
  }

  /** On its own path (no header, no path identifier) creation keeps
      numeric cpfs distinct: it is the only place uniqueness is checked. */
  lemma CreateKeepsCpfsUnique(store: Store, req: Request, freshId: nat)
    requires UniqueCpfs(store)
    requires req.headerCpf.None? && req.paramCpf.None?
    ensures UniqueCpfs(PostCustomers(store, req, freshId).store)
  {
  }

  /** Uniqueness is not an invariant of the service: with a registered
      header cpf, POST /customers skips the duplicate check. */
  lemma HeaderCreateDuplicates()
    ensures var store := [Customer(0, Json.Num(111), Json.Str("Ana"), [])];
            var body := Body(Json.Num(111), Json.Str("Bia"), Json.Undefined, Json.Undefined, Json.Undefined);
            var t := PostCustomers(store, Request(Some(111), None, body, None), 1);
            UniqueCpfs(store) && t.reply == Reply(201, Empty) && !UniqueCpfs(t.store)
  {
    var store := [Customer(0, Json.Num(111), Json.Str("Ana"), [])];
    var body := Body(Json.Num(111), Json.Str("Bia"), Json.Undefined, Json.Undefined, Json.Undefined);
    var req := Request(Some(111), None, body, None);
    assert Registered(store, 111) by { assert store[0].cpf == Json.Num(111); }
    assert HeaderFinds(store, req);
    var after := PostCustomers(store, req, 1).store;
    assert after[0].cpf == after[1].cpf;
  }

  /** Nor does an update check the new cpf against the other customers. */
  lemma UpdateDuplicates()
    ensures var store := [Customer(0, Json.Num(111), Json.Str("Ana"), []), Customer(1, Json.Num(222), Json.Str("Bia"), [])];
            var body := Body(Json.Num(111), Json.Undefined, Json.Undefined, Json.Undefined, Json.Undefined);
            var t := PutCustomer(store, Request(None, Some(222), body, None));
            UniqueCpfs(store) && t.reply.Reply? && t.reply.status == 200 && !UniqueCpfs(t.store)
  {
  }
}
