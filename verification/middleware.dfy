/** The `existCustomer` middleware: which customer a request is about, taken
    from the `cpf` header, the `:cpf` path parameter or the `cpf` body field,
    and whether the route handler runs at all. */
module Middleware {
  import Json
  import opened Options
  import opened Ledger

  /** The body fields the handlers read. */
  datatype Body = Body(cpf: Json.Value, name: Json.Value, amount: Json.Value, kind: Json.Value, description: Json.Value)

  /** A request as the handlers see it. `headerCpf` and `paramCpf` are
      present when the header or path segment is a non-empty string, and
      hold its value after `Number(...)`; `date` is the calendar day of the
      `date` query, `None` when it does not parse. */
  datatype Request = Request(headerCpf: Option<int>, paramCpf: Option<int>, body: Body, date: Option<int>)

  /** Where the middleware attaches the resolved customer: `request.customer`
      (from the header) or `request.findCustomer` (from the path). */
  datatype Slot = Caller | Target

  /** The middleware's decision. `Found` and `Proceed` call `next()`;
      `NotFound` is the 404 and `BadType` and `Duplicate` the two 400s;
      `NoResponse` is falling off the end without answering. */
  datatype Resolution =
    | Found(slot: Slot, index: nat)
    | NotFound
    | BadType
    | Duplicate
    | Proceed
    | NoResponse
  {
    predicate CallsNext() { Found? || Proceed? }
  }

  /** `existCustomer`. The header wins over the path, and the path over the
      body; the body is consulted only when neither identifier is present. */
  function Resolve(store: Store, req: Request): (r: Resolution)
    ensures r.Found? ==> r.index < |store|
    // Header present: the first customer with that cpf, or 404.
    ensures req.headerCpf.Some? ==>
      if Registered(store, req.headerCpf.value)
      then r.Found? && r.slot == Caller && FirstWithCpf(store, r.index, req.headerCpf.value)
      else r == NotFound
    // No header, path present: the same, into the other slot.
    ensures req.headerCpf.None? && req.paramCpf.Some? ==>
      if Registered(store, req.paramCpf.value)
      then r.Found? && r.slot == Target && FirstWithCpf(store, r.index, req.paramCpf.value)
      else r == NotFound
    // Neither: the body cpf decides.
    ensures req.headerCpf.None? && req.paramCpf.None? ==>
      var cpf := req.body.cpf;
      && (r == BadType <==> Json.Truthy(cpf) && !cpf.Num?)
      && (r == Duplicate <==> cpf.Num? && cpf.n != 0 && Registered(store, cpf.n))
      && (r == Proceed <==> cpf.Num? && cpf.n != 0 && !Registered(store, cpf.n))
      && (r == NoResponse <==> !Json.Truthy(cpf))
  {
    if req.headerCpf.Some? then
      match FindByCpf(store, req.headerCpf.value)
      case Some(i) => Found(Caller, i)
      case None => NotFound
    else if req.paramCpf.Some? then
      match FindByCpf(store, req.paramCpf.value)
      case Some(i) => Found(Target, i)
      case None => NotFound
    else
      var cpf := req.body.cpf;
      if Json.Truthy(cpf) && Json.TypeOf(cpf) != "number" then BadType
      else if Json.Truthy(cpf) then
        if FindByCpf(store, cpf.n).Some? then Duplicate else Proceed
      else NoResponse
  }

  /** When a header is present, the path and the body are never consulted. */
  lemma HeaderShadowsPathAndBody(store: Store, req: Request, param: Option<int>, body: Body)
    requires req.headerCpf.Some?
    ensures Resolve(store, req) == Resolve(store, req.(paramCpf := param, body := body))
  {
  }

  /** When a path identifier is present and no header, the body is never consulted. */
  lemma PathShadowsBody(store: Store, req: Request, body: Body)
    requires req.headerCpf.None? && req.paramCpf.Some?
    ensures Resolve(store, req) == Resolve(store, req.(body := body))
  {
  }
}
