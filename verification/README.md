# Customer ledger model

A Dafny model of the in-memory customer ledger behind a small Express
banking service (`src/index.js`). The service keeps a module-level array
of customers, each with a generated `_id`, a `cpf` (numeric identifier),
a `name` and a `statement` of credit and debit operations. Requests go
through the `existCustomer` middleware, which resolves the customer from
the `cpf` header, the `:cpf` path parameter or the `cpf` body field, and
then through one route handler.

The model is functional: the customer array is a `seq<Customer>`, and
every route is a pure function from the collection and a request to a
`Transition`, which holds a reply (status code and outcome tag) and the
next collection.

- `options.dfy`: the `Option` type, for a `find` that may come back
  empty and for request fields that may be absent.
- `json.dfy`: `Json.Value`, the JavaScript values a request body can
  carry, with JavaScript truthiness, `typeof` and the numeric conversion
  of the values that convert to an integer. The model needs these
  because the source's checks depend on them: `!payload.amount` rejects
  an amount of 0, and a falsy body `cpf` leaves the request unanswered.
- `ledger.dfy`: operations, customers and the collection. `Balance` is
  the `reduce` fold from `getBalance`, and `Credits` and `Debits` are an
  independent sum definition it is proved equal to. Also here: the
  `find` scan by cpf, removal by `_id` and the filter by calendar day.
- `middleware.dfy`: `Resolve`, the decision `existCustomer` takes.
  `Found` carries the slot the customer is attached to:
  `request.customer` for the header and `request.findCustomer` for the
  path. The other outcomes are the 404, the two 400s, `Proceed` and
  `NoResponse`. `NoResponse` is the fall-through at the end of the
  middleware, where it neither calls `next()` nor answers.
- `routes.dfy`: the handlers, and each route as middleware plus
  handler. A handler that reads a field of a slot the middleware did
  not fill (`customer.statement`, `findCustomer.statement`, `.name`,
  `.cpf`, `._id`) throws a `TypeError`, and Express answers that with a
  500. For example, a deposit sent with a header instead of a path cpf
  ends that way. GET /customer is the exception: it sends the unfilled
  `request.customer` itself, and `json(undefined)` is an empty 200. The model keeps these 500s. Every one of them happens before
  anything is written.
- `service.dfy`: every route behind one `Handle` state machine, with the
  properties that hold across all of them.
- `scenarios.dfy`: three concrete request sequences. The first is a
  deposit followed by a refused and an accepted withdrawal. The second
  is a withdrawal with a `null` amount. The third lists an empty
  collection, then a collection with one customer.

The header takes precedence over the path, and the path over the body,
exactly as in the source. So `POST /customers` sent with the header of a
registered customer skips the duplicate check and creates a customer
with any body. `PUT /customer/:cpf` does not check the new cpf either.
cpf uniqueness is therefore not an invariant of the service.
`Service.CreateKeepsCpfsUnique` proves the one place where it is kept.
`Service.HeaderCreateDuplicates` and `Service.UpdateDuplicates` exhibit
the two ways it breaks.

## Behaviour worth knowing

- Update tests truthiness (src/index.js:192, :196, :200), so `0`, `""`
  and `false` count as absent. Two such fields give the 400.
- No amount's sign is checked. A deposit accepts any non-zero number
  (:141, :157). A withdrawal accepts any amount up to the balance
  (:170), so a negative withdrawal raises the balance.
- The 404 at :124-126 is unreachable, because `filter` returns an array
  and an array is truthy.
- Delete (:209) removes every customer whose `_id` equals the found
  one's. That is exactly one customer while the ids are distinct.
- The reducer in `getBalance` returns `undefined` for an operation that
  is neither credit nor debit (:71-77). No handler ever stores such an
  operation: deposits store "credit" (:153) and withdrawals "debit"
  (:176). So `Kind` has only those two.

## Model

| member | source | states |
|---|---|---|
| `Json.Truthy` | src/index.js:23-52 | the values `if (x)` and `!x` treat as false are exactly `undefined`, `null`, `false`, `0` and `""` |
| `Json.ToInt` | src/index.js:170 | the numeric conversion `>` and `-` apply: a number is itself, `null` and `false` are 0, `true` is 1 |
| `Json.TypeOf` | src/index.js:48 | `typeof` yields "number" exactly for numbers and "string" exactly for strings |
| `Ledger.BalanceOfEmpty` | src/index.js:67-80 | the balance of an empty statement is 0 |
| `Ledger.BalanceFrom` | src/index.js:69-78 | the reduce started at any accumulator equals accumulator + sum of credit amounts − sum of debit amounts |
| `Ledger.Balance` | src/index.js:67-80 | `getBalance`: balance = sum of credit amounts − sum of debit amounts, for every statement |
| `Ledger.BalanceAppend` | src/index.js:71-76 | appending a credit adds its amount to the balance; appending a debit subtracts it |
| `Ledger.FindFrom` | src/index.js:25 | the scan from position k returns the first position at or after k whose cpf is the number, or none when no later position has it |
| `Ledger.FindByCpf` | src/index.js:40 | `find` by cpf succeeds exactly when some customer has that cpf, and returns a position exactly when it is the first one with that cpf |
| `Ledger.RemoveId` | src/index.js:209 | the filtered collection holds exactly the customers whose `_id` differs, and is no longer |
| `Ledger.RemoveIdAppend` | src/index.js:209 | removal by `_id` distributes over concatenation, so the order is kept |
| `Ledger.RemoveIdExactlyOne` | src/index.js:207-211 | with distinct ids, deleting the found customer's `_id` removes exactly that position and keeps the rest in order |
| `Ledger.OnDay` | src/index.js:117-121 | the day filter keeps exactly the operations created on the requested day; an unparsable date keeps none |
| `Ledger.OnDayAppend` | src/index.js:117-121 | the day filter distributes over concatenation, so it keeps the statement order |
| `Middleware.Resolve` | src/index.js:13-60 | header first: first match or 404. Then path: first match or 404. Then body: non-number cpf 400, registered cpf 400, fresh cpf proceeds, falsy cpf gets no response |
| `Middleware.HeaderShadowsPathAndBody` | src/index.js:23-36 | with a header present, the path and body cpf do not affect the resolution |
| `Middleware.PathShadowsBody` | src/index.js:38-46 | with a path cpf and no header, the body cpf does not affect the resolution |
| `Routes.ResolveLocated` | src/index.js:23-46 | a header or path cpf that names a customer resolves to the first customer with that cpf, in the matching slot |
| `Routes.DepositHandler` | src/index.js:141-162 | the deposit handler answers below 400 exactly when the amount is a non-zero number, the type is "credit" and a path customer is attached |
| `Routes.PostCustomers` | src/index.js:82-93 | either nothing changes or exactly one customer (fresh id, body cpf and name, empty statement) is appended with 201. On the body path: created iff the cpf is a fresh non-zero number; duplicate 400, non-number 400 and falsy-cpf no-reply leave the collection unchanged. A found header skips the checks |
| `Routes.GetStatement` | src/index.js:95-99 | read-only; 200 with the header customer's statement exactly when the header finds a customer; 404 when it names none |
| `Routes.GetStatementByDate` | src/index.js:101-129 | read-only. 200 exactly when the header finds a customer. The payload is the day filter of that customer's statement: exactly the operations of the requested day, in statement order, with repeats kept. The "Statements not found" 404 is never answered |
| `Routes.PostDeposit` | src/index.js:131-163 | first-failure-wins order: falsy amount 422, falsy type 422, non-string type 400, type not "credit" 400, non-number amount 400. Every refusal leaves the collection unchanged. Success (exactly a path-found customer and a valid body) appends one credit to that customer only. A header sends a valid deposit to 500 |
| `Routes.PostWithdraw` | src/index.js:165-181 | the amount is converted to a number. Above the header customer's balance: 400, nothing changes. Otherwise 201 and exactly one debit of the converted amount appended to that customer only, with new balance = old − amount ≥ 0. Without a header customer the request is refused whatever the amount: 404 for an unknown header cpf, 500 when the middleware calls `next()` with no header |
| `Routes.WithdrawIgnoresAmount` | src/index.js:165-168 | unless the header finds the customer, changing the body amount does not change the reply or the collection |
| `Routes.GetCustomer` | src/index.js:183-186 | read-only; the customer is returned only when the header finds one; 200 exactly when the middleware calls `next()` |
| `Routes.PutCustomer` | src/index.js:188-205 | no truthy name or cpf: 400, nothing changes. Otherwise only the truthy fields of the path customer change; its `_id`, its statement and every other customer stay. 200 iff path-found and some field truthy; a header gives 500 |
| `Routes.DeleteCustomer` | src/index.js:207-211 | 200 exactly when the path finds a customer. The result is the `_id` filter of the collection: exactly the customers with its `_id` are removed (with distinct ids: that one position), and the rest keep their order. A header gives 500 |
| `Routes.GetCustomers` | src/index.js:213-219 | read-only; 404 exactly when the collection is empty, otherwise 200 with the whole collection |
| `Service.Handle` | src/index.js:82-219 | the route dispatch. Reads never change the collection. Only creation makes it longer, and by at most one. Only deletion makes it shorter |
| `Service.UnknownCpfIs404` | src/index.js:23-46 | on every route behind the middleware, a header cpf naming no customer, or with no header a path cpf naming none, is answered 404 and nothing changes |
| `Service.RefusalsChangeNothing` | src/index.js:13-219 | on every route, a refused or unanswered request leaves the collection unchanged |
| `Service.HandleStatementsGrow` | src/index.js:161-179 | on every route, each customer afterwards is the new one with an empty statement, or an existing `_id` whose old statement is a prefix of the new |
| `Service.HandleKeepsIdsUnique` | src/index.js:85-91 | if `uuid()` returns an unused id, every route keeps `_id`s pairwise distinct |
| `Service.CreateKeepsCpfsUnique` | src/index.js:48-58 | creation through the body path keeps numeric cpfs distinct |
| `Service.HeaderCreateDuplicates` | src/index.js:23-36 | a registered header cpf lets `POST /customers` create a second customer with the same cpf |
| `Service.UpdateDuplicates` | src/index.js:200-202 | an update can give a customer another customer's cpf |
| `Scenarios.DepositThenWithdraw` | src/index.js:131-181 | create 111, deposit 100: balance 100. Withdraw 150: 400, balance 100. Withdraw 40: 201, balance 60 |
| `Scenarios.NullWithdrawal` | src/index.js:165-180 | a `null` amount converts to 0, so on a zero balance it is paid as a debit of 0 |
| `Scenarios.ListAfterCreate` | src/index.js:213-219 | listing an empty collection is 404; after one creation it is the one-element list |

## Left out

- Express plumbing is not modelled: `express.json()`, route registration, `server.listen` and its callback. Each route is a function of explicit inputs, and the sync-throw-to-500 behaviour of Express is written into the handlers.
- `uuid()` is a parameter, `freshId`. The `_id` uniqueness lemma assumes the id is unused.
- Clocks and dates are abstracted. `new Date()` becomes a `today` parameter. `createdAt` and the `date` query are calendar days (`int`), and `toDateString()` is equality of days. A query that does not parse is `None` and matches nothing, as "Invalid Date" does.
- Header and path cpfs are taken as already converted by `Number(...)`. Present means the string is non-empty. Strings that convert to a fraction, or to NaN, are not modelled.
- Amounts and cpfs are integers. JavaScript floating point, including fractional amounts and NaN, is not modelled.
- Routes.PostWithdraw: when the header finds the customer, requires the body amount to be a number, `null` or a boolean. Without such a customer any amount is allowed, since it is never compared. Three kinds of amount are excluded on the compared path:
  - A missing amount (`undefined`) and plain objects convert to NaN. `amount > balance` is then false, the debit is appended, and every later balance is NaN, which integers cannot express.
  - Strings convert through JavaScript's number syntax (decimal fractions, exponents, hexadecimal, surrounding blanks). The integer model does not carry that syntax.
  - Arrays convert according to their contents, which `Json.Compound` does not keep.
- Routes.PostWithdraw: the debit records the converted amount, where the source keeps the value as sent (`null`, `true`, `false`). Balances are the same either way, because `-` applies the same conversion.
- A single request shape serves every route, so a path cpf can be present or absent on any route. In the source it is always present on the routes with `:cpf` (deposit, update, delete) and always absent on the others. Contracts about the other combinations describe requests Express never produces. One example: a delete with no path cpf and a fresh body cpf.
- The `= null` defaults in the update handler only replace one falsy value with another, so they have no effect and are not modelled.
- Unknown operation types in `getBalance` cannot arise: deposits store only "credit" and withdrawals only "debit". So `Kind` has just those two.
- Objects and arrays in a body (`Json.Compound`) are only ever truthy, non-number and non-string here. Their reference identity is not modelled.
- `console.log` calls and response serialisation are not modelled. A reply keeps only its status and an outcome tag or the data it returns.
- Concurrency is not modelled. Each handler runs to completion synchronously in the source, so every transition is atomic.
