/** Worked request sequences against the model. */
module Scenarios {
  import Json
  import opened Options
  import opened Ledger
  import opened Middleware
  import opened Routes

  function BodyOf(cpf: Json.Value, name: Json.Value, amount: Json.Value, kind: Json.Value): Body
  {
    Body(cpf, name, amount, kind, Json.Undefined)
  }

  /** Create Ana with cpf 111, deposit 100, try to withdraw 150 (refused,
      balance still 100), withdraw 40 (balance 60). */
  lemma DepositThenWithdraw()
    ensures
      var t1 := PostCustomers([], Request(None, None, BodyOf(Json.Num(111), Json.Str("Ana"), Json.Undefined, Json.Undefined), None), 7);
      var t2 := PostDeposit(t1.store, Request(None, Some(111), BodyOf(Json.Undefined, Json.Undefined, Json.Num(100), Json.Str("credit")), None), 1);
      var t3 := PostWithdraw(t2.store, Request(Some(111), None, BodyOf(Json.Undefined, Json.Undefined, Json.Num(150), Json.Undefined), None), 2);
      var t4 := PostWithdraw(t3.store, Request(Some(111), None, BodyOf(Json.Undefined, Json.Undefined, Json.Num(40), Json.Undefined), None), 3);
      && t1.reply == Reply(201, Empty) && |t1.store| == 1
      && t2.reply == Reply(200, Message(DepositMade)) && Balance(t2.store[0].statement) == 100
      && t3.reply == Reply(400, Error(InsufficientFunds)) && Balance(t3.store[0].statement) == 100
      && t4.reply == Reply(201, Message(WithdrawalPaid)) && Balance(t4.store[0].statement) == 60
  {
  }

  /** Listing an empty collection is a 404; after one creation it is the
      one-element list. */
  lemma ListAfterCreate()
    ensures GetCustomers([]).reply == Reply(404, Error(NoCustomers))
    ensures
      var t := PostCustomers([], Request(None, None, BodyOf(Json.Num(111), Json.Str("Ana"), Json.Undefined, Json.Undefined), None), 7);
      GetCustomers(t.store).reply == Reply(200, Customers([Customer(7, Json.Num(111), Json.Str("Ana"), [])]))
  {
    var t := PostCustomers([], Request(None, None, BodyOf(Json.Num(111), Json.Str("Ana"), Json.Undefined, Json.Undefined), None), 7);
    assert !Registered([], 111);
    assert t.store == [Customer(7, Json.Num(111), Json.Str("Ana"), [])];
  }

  /** A `null` amount converts to 0: `0 > balance` is false for a balance of
      0, so the withdrawal is paid as a debit of 0. */
  lemma NullWithdrawal()
    ensures
      var store := [Customer(7, Json.Num(111), Json.Str("Ana"), [])];
      var t := PostWithdraw(store, Request(Some(111), None, BodyOf(Json.Undefined, Json.Undefined, Json.Null, Json.Undefined), None), 1);
      && t.reply == Reply(201, Message(WithdrawalPaid))
      && t.store == [store[0].(statement := [Operation(Debit, 0, Json.Undefined, 1)])]
  {
    var store := [Customer(7, Json.Num(111), Json.Str("Ana"), [])];
    var req := Request(Some(111), None, BodyOf(Json.Undefined, Json.Undefined, Json.Null, Json.Undefined), None);
    assert Registered(store, 111) by { assert store[0].cpf == Json.Num(111); }
    assert HeaderFinds(store, req) && Located(store, req) == 0;
    assert Json.ToInt(Json.Null) == 0 && Balance([]) == 0;
    var t := PostWithdraw(store, req, 1);
    assert |t.store| == 1;
    assert t.store[0].statement == [] + [Operation(Debit, 0, Json.Undefined, 1)];
    assert t.reply == Reply(201, Message(WithdrawalPaid));
    assert t.store[0] == store[0].(statement := [Operation(Debit, 0, Json.Undefined, 1)]);
    assert t.store == [t.store[0]];
  }
}
