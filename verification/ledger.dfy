/** The in-memory customer ledger: customers, their statements, the balance
    fold over a statement and the scans the request handlers run over the
    customer collection. */
module Ledger {
  import Json
  import opened Options

  datatype Kind = Credit | Debit

  /** One statement entry. `day` abstracts the `createdAt` timestamp to the
      calendar day it falls on; `description` is whatever the deposit body
      carried (withdrawals carry none). */
  datatype Operation = Operation(kind: Kind, amount: int, description: Json.Value, day: int)

  /** `id` is the generated `_id`; `cpf` and `name` are stored as the request
      body sent them, so they are JSON values. */
  datatype Customer = Customer(id: nat, cpf: Json.Value, name: Json.Value, statement: seq<Operation>)

  /** The module-level `customers` array, in insertion order. */
  type Store = seq<Customer>

  // ---------------------------------------------------------------------
  // Balance

  /** What one operation contributes to the balance. */
  function Effect(op: Operation): int
  {
    match op.kind
    case Credit => op.amount
    case Debit => -op.amount
  }

  /** `statement.reduce(step, acc)`: a left fold, as `Array.prototype.reduce` is. */
  function BalanceFrom(acc: int, statement: seq<Operation>): (r: int)
    // The fold adds every credit and subtracts every debit to the accumulator.
    ensures r == acc + Credits(statement) - Debits(statement)
    decreases |statement|
  {
    if statement == [] then acc
    else BalanceFrom(acc + Effect(statement[0]), statement[1..])
  }

  /** `getBalance`: the fold started at 0. */
  function Balance(statement: seq<Operation>): (r: int)
    // The balance is the sum of the credits minus the sum of the debits.
    ensures r == Credits(statement) - Debits(statement)
  {
    BalanceFrom(0, statement)
  }

  /** Sum of the amounts of the credit entries. */
  function Credits(statement: seq<Operation>): int
  {
    if statement == [] then 0
    else (if statement[0].kind == Credit then statement[0].amount else 0) + Credits(statement[1..])
  }

  /** Sum of the amounts of the debit entries. */
  function Debits(statement: seq<Operation>): int
  {
    if statement == [] then 0
    else (if statement[0].kind == Debit then statement[0].amount else 0) + Debits(statement[1..])
  }

  lemma BalanceOfEmpty()
    ensures Balance([]) == 0
  {
  }

  lemma {:induction false} CreditsAppend(statement: seq<Operation>, op: Operation)
    ensures Credits(statement + [op]) == Credits(statement) + (if op.kind == Credit then op.amount else 0)
    ensures Debits(statement + [op]) == Debits(statement) + (if op.kind == Debit then op.amount else 0)
    decreases |statement|
  {
    if statement == [] {
      assert statement + [op] == [op];
    } else {
      assert (statement + [op])[1..] == statement[1..] + [op];
      CreditsAppend(statement[1..], op);
    }
  }

  /** Appending a credit adds its amount to the balance; appending a debit
      subtracts it. */
  lemma BalanceAppend(statement: seq<Operation>, op: Operation)
    ensures op.kind == Credit ==> Balance(statement + [op]) == Balance(statement) + op.amount
    ensures op.kind == Debit ==> Balance(statement + [op]) == Balance(statement) - op.amount
  {
    CreditsAppend(statement, op);
  }

  // ---------------------------------------------------------------------
  // Lookup by cpf

  /** Some customer's cpf is strictly equal (`===`) to the number `n`. */
  predicate Registered(store: Store, n: int)
  {
    exists i :: 0 <= i < |store| && store[i].cpf == Json.Num(n)
  }

  /** `i` is the first position whose cpf is the number `n`. */
  predicate FirstWithCpf(store: Store, i: int, n: int)
  {
    && 0 <= i < |store|
    && store[i].cpf == Json.Num(n)
    && forall j :: 0 <= j < i ==> store[j].cpf != Json.Num(n)
  }

  /** The scan `find` performs from position `k` on. */
  function FindFrom(store: Store, n: int, k: nat): (r: Option<nat>)
    requires k <= |store|
    ensures r.Some? ==> k <= r.value < |store| && store[r.value].cpf == Json.Num(n)
    ensures r.Some? ==> forall j :: k <= j < r.value ==> store[j].cpf != Json.Num(n)
    ensures r.None? ==> forall j :: k <= j < |store| ==> store[j].cpf != Json.Num(n)
    decreases |store| - k
  {
    if k == |store| then None
    else if store[k].cpf == Json.Num(n) then Some(k)
    else FindFrom(store, n, k + 1)
  }

  /** `customers.find(customer => customer.cpf === n)`, as a position:
      the first match, or nothing when no customer has that cpf. */
  function FindByCpf(store: Store, n: int): (r: Option<nat>)
    ensures r.Some? <==> Registered(store, n)
    // The result is exactly the first position with that cpf.
    ensures forall i :: FirstWithCpf(store, i, n) <==> r == Some(i)
  {
    FindFrom(store, n, 0)
  }

  // ---------------------------------------------------------------------
  // Identity

  /** The generated identifiers are pairwise distinct. */
  predicate UniqueIds(store: Store)
  {
    forall i, j :: 0 <= i < j < |store| ==> store[i].id != store[j].id
  }

  predicate IdUsed(store: Store, id: nat)
  {
    exists i :: 0 <= i < |store| && store[i].id == id
  }

  /** No two customers share a numeric cpf. */
  predicate UniqueCpfs(store: Store)
  {
    forall i, j :: 0 <= i < j < |store| && store[i].cpf.Num? ==> store[i].cpf != store[j].cpf
  }

  /** `customers.filter(customer => customer._id !== id)`. */
  function RemoveId(store: Store, id: nat): (r: Store)
    ensures |r| <= |store|
    ensures forall c :: c in r <==> c in store && c.id != id
  {
    if store == [] then []
    else if store[0].id == id then RemoveId(store[1..], id)
    else [store[0]] + RemoveId(store[1..], id)
  }

  /** Removal distributes over concatenation, so the kept customers stay in
      their original order. */
  lemma {:induction false} RemoveIdAppend(s: Store, t: Store, id: nat)
    ensures RemoveId(s + t, id) == RemoveId(s, id) + RemoveId(t, id)
    decreases |s|
  {
    if s == [] {
      assert s + t == t;
    } else {
      assert (s + t)[1..] == s[1..] + t;
      RemoveIdAppend(s[1..], t, id);
    }
  }

  lemma {:induction false} RemoveAbsentId(s: Store, id: nat)
    requires forall j :: 0 <= j < |s| ==> s[j].id != id
    ensures RemoveId(s, id) == s
    decreases |s|
  {
    if s != [] {
      RemoveAbsentId(s[1..], id);
    }
  }

  /** With distinct identifiers, removing the identifier found at position
      `i` removes exactly that customer and keeps every other one, in order. */
  lemma RemoveIdExactlyOne(store: Store, i: nat)
    requires UniqueIds(store)
    requires i < |store|
    ensures RemoveId(store, store[i].id) == store[..i] + store[i + 1..]
    ensures |RemoveId(store, store[i].id)| == |store| - 1
  {
    var id := store[i].id;
    assert store == store[..i] + ([store[i]] + store[i + 1..]);
    RemoveIdAppend(store[..i], [store[i]] + store[i + 1..], id);
    RemoveIdAppend([store[i]], store[i + 1..], id);
    RemoveAbsentId(store[..i], id);
    RemoveAbsentId(store[i + 1..], id);
    assert RemoveId([store[i]], id) == [];
  }

  // ---------------------------------------------------------------------
  // Statement by day

  /** The operations created on `day`, in statement order. A query date
      that does not parse (`None`) matches no operation. */
  function OnDay(statement: seq<Operation>, day: Option<int>): (r: seq<Operation>)
    ensures |r| <= |statement|
    ensures forall op :: op in r <==> op in statement && day == Some(op.day)
  {
    if statement == [] then []
    else if day == Some(statement[0].day) then [statement[0]] + OnDay(statement[1..], day)
    else OnDay(statement[1..], day)
  }

  /** The day filter distributes over concatenation: it keeps the original
      order and never reorders or merges entries. */
  lemma {:induction false} OnDayAppend(s: seq<Operation>, t: seq<Operation>, day: Option<int>)
    ensures OnDay(s + t, day) == OnDay(s, day) + OnDay(t, day)
    decreases |s|
  {
    if s == [] {
      assert s + t == t;
    } else {
      assert (s + t)[1..] == s[1..] + t;
      OnDayAppend(s[1..], t, day);
    }
  }
}
