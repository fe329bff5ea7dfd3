/**
 A request that nobody interrupts: run statement by statement through the interleaved system, it
 commits exactly what the call's outcome says, and is rolled back exactly when the call fails.
 */
module Solo {
  import opened Schema
  import opened Reservation
  import opened OrderRules
  import opened OrderService
  import opened Interleaving
  import opened LockProofs

  function PhasesLeft(phase: Phase): nat {
    match phase
    case Reading => 12
    case Limiting => 11
    case Testing => 10
    case Fetching => 9
    case Restoring => 8
    case Checking => 7
    case Taking => 6
    case Pricing => 5
    case Using => 4
    case Reviewing => 3
    case Refunding => 2
    case Writing => 1
    case Ready => 0
  }

  // Rounds left in the loop a request is in.
  function RoundsLeft(t: Txn): nat {
    var lines := |LinesOfRequest(t.req)|;
    match t.phase
    case Restoring => if t.restored < |t.held| then |t.held| - t.restored else 0
    case Checking => if |t.entries| < lines then lines - |t.entries| else 0
    case Taking => if t.taken < lines then lines - t.taken else 0
    case _ => 0
  }

  // Every statement brings a request nearer to its end.
  lemma StatementsRunOut(limit: int, db: Db, t: Txn, rows: seq<Item>)
    requires Advance(limit, db, t, rows).Some?
    ensures var next := Advance(limit, db, t, rows).value;
            || PhasesLeft(next.phase) < PhasesLeft(t.phase)
            || (next.phase == t.phase && RoundsLeft(next) < RoundsLeft(t))
  {
    if t.phase in {Restoring, Checking, Taking} {
      LoopsRunOut(limit, db, t, rows);
    } else {
      PhasesRunOut(limit, db, t, rows);
    }
  }

  lemma LoopsRunOut(limit: int, db: Db, t: Txn, rows: seq<Item>)
    requires Advance(limit, db, t, rows).Some? && t.phase in {Restoring, Checking, Taking}
    ensures var next := Advance(limit, db, t, rows).value;
            || PhasesLeft(next.phase) < PhasesLeft(t.phase)
            || (next.phase == t.phase && RoundsLeft(next) < RoundsLeft(t))
  {
  }

  lemma PhasesRunOut(limit: int, db: Db, t: Txn, rows: seq<Item>)
    requires Advance(limit, db, t, rows).Some? && t.phase !in {Restoring, Checking, Taking}
    ensures PhasesLeft(Advance(limit, db, t, rows).value.phase) < PhasesLeft(t.phase)
  {
    if t.phase == Pricing { PriceShape(db, t); }
    if t.phase == Reviewing { ReviewShape(db, t); }
    if t.phase == Refunding { RefundShape(db, t); }
  }

  // The request run to its commit point with nobody in between; None when it is rolled back.
  function Alone(limit: int, db: Db, t: Txn): Option<Txn>
    decreases PhasesLeft(t.phase), RoundsLeft(t)
  {
    if t.phase == Ready then Some(t)
    else
      var rows := ItemsOf(db.items, Target(t.req));
      match Advance(limit, db, t, rows)
      case None => None
      case Some(next) =>
        StatementsRunOut(limit, db, t, rows);
        Alone(limit, db, next)
  }

  lemma FetchAlone(limit: int, db: Db, t: Txn)
    requires t.phase == Fetching
    ensures Alone(limit, db, t) == Alone(limit, db, t.(held := ItemsOf(db.items, Target(t.req)), phase := Restoring))
  {
  }

  // ---- The loops ----

  lemma SeenStep(db: Db, t: Txn, p: ProductId, row: Product)
    ensures db.products + t.products[p := row] == SeenProducts(db, t)[p := row]
  {
  }

  lemma RestoreOne(db: Db, t: Txn)
    requires ProductsOk(db.products) && t.phase == Restoring && Positive(LinesOf(t.held)) && t.restored < |t.held|
    requires SeenProducts(db, t) == Given(db.products, LinesOf(t.held)[..t.restored])
    requires forall p :: p in db.products ==> Given(db.products, LinesOf(t.held)[..t.restored])[p].stock <= MAX_INT
    ensures var lines := LinesOf(t.held);
            match RestoreNext(db, t)
            case None => !FitsBack(db.products, lines)
            case Some(next) =>
              && next == t.(restored := t.restored + 1, products := next.products)
              && SeenProducts(db, next) == Given(db.products, lines[..t.restored + 1])
              && forall p :: p in db.products ==> Given(db.products, lines[..t.restored + 1])[p].stock <= MAX_INT
  {
    var lines := LinesOf(t.held);
    var p := t.held[t.restored].product;
    GivenStep(db.products, lines, t.restored);
    var next := RestoreNext(db, t);
    if next.None? {
      RefusedIncrement(db.products, lines, t.restored);
    } else if p in SeenProducts(db, t) {
      SeenStep(db, t, p, next.value.products[p]);
    }
  }

  lemma {:induction false} RestoreLoop(limit: int, db: Db, t: Txn) returns (done: Txn)
    requires ProductsOk(db.products) && t.phase == Restoring && Positive(LinesOf(t.held)) && t.restored <= |t.held|
    requires SeenProducts(db, t) == Given(db.products, LinesOf(t.held)[..t.restored])
    requires forall p :: p in db.products ==> Given(db.products, LinesOf(t.held)[..t.restored])[p].stock <= MAX_INT
    ensures Alone(limit, db, t).Some? ==> FitsBack(db.products, LinesOf(t.held))
    ensures FitsBack(db.products, LinesOf(t.held)) ==>
              && done == t.(restored := |t.held|, products := done.products,
                            phase := if t.req.CancelRequest? then Refunding else Checking)
              && SeenProducts(db, done) == Given(db.products, LinesOf(t.held))
              && Alone(limit, db, t) == Alone(limit, db, done)
    decreases |t.held| - t.restored
  {
    var lines := LinesOf(t.held);
    if t.restored == |t.held| {
      done := t.(phase := if t.req.CancelRequest? then Refunding else Checking);
      assert lines[..t.restored] == lines;
      GivenAllMeansFitsBack(db.products, lines);
    } else {
      done := t;
      RestoreOne(db, t);
      if RestoreNext(db, t).Some? {
        done := RestoreLoop(limit, db, RestoreNext(db, t).value);
      }
    }
  }

  function RowsRead(products: Products, lines: seq<Line>): seq<Product>
    requires AllFound(products, lines)
  {
    seq(|lines|, i requires 0 <= i < |lines| => products[lines[i].product])
  }

  lemma CheckOne(db: Db, t: Txn, products: Products)
    requires t.phase == Checking && products == SeenProducts(db, t) && |t.entries| < |LinesOfRequest(t.req)|
    requires var earlier := LinesOfRequest(t.req)[..|t.entries|];
             && FirstLineError(products, earlier) == None && AllFound(products, earlier)
             && t.entries == RowsRead(products, earlier) && (t.short <==> Shortages(products, earlier) != [])
    ensures var lines := LinesOfRequest(t.req)[..|t.entries| + 1];
            match CheckNext(db, t)
            case None => FirstLineError(products, lines).Some?
            case Some(next) =>
              && next == t.(entries := next.entries, short := next.short, products := next.products)
              && SeenProducts(db, next) == products && FirstLineError(products, lines) == None
                   && AllFound(products, lines)
              && next.entries == RowsRead(products, lines) && (next.short <==> Shortages(products, lines) != [])
  {
    var lines, n := LinesOfRequest(t.req), |t.entries|;
    assert lines[..n + 1][..n] == lines[..n];
    if CheckNext(db, t).Some? {
      SeenStep(db, t, lines[n].product, products[lines[n].product]);
    }
  }

  lemma {:induction false} CheckLoop(limit: int, db: Db, t: Txn, products: Products) returns (done: Txn)
    requires t.phase == Checking && products == SeenProducts(db, t)
    requires var lines := LinesOfRequest(t.req);
             var n := |t.entries|;
             && n <= |lines| && FirstLineError(products, lines[..n]) == None && AllFound(products, lines[..n])
             && t.entries == RowsRead(products, lines[..n]) && (t.short <==> Shortages(products, lines[..n]) != [])
    ensures var lines := LinesOfRequest(t.req);
            if FirstLineError(products, lines) == None && Shortages(products, lines) == [] then
              && AllFound(products, lines)
              && done == t.(entries := RowsRead(products, lines), short := false, products := done.products,
                   phase := Taking)
              && SeenProducts(db, done) == products
              && Alone(limit, db, t) == Alone(limit, db, done)
            else Alone(limit, db, t).None?
    decreases |LinesOfRequest(t.req)| - |t.entries|
  {
    var lines := LinesOfRequest(t.req);
    var n := |t.entries|;
    done := t;
    if n == |lines| {
      assert lines[..n] == lines;
      done := t.(phase := Taking);
    } else {
      CheckOne(db, t, products);
      if CheckNext(db, t).None? {
        FirstLineErrorSticks(products, lines, n + 1);
      } else {
        done := CheckLoop(limit, db, CheckNext(db, t).value, products);
      }
    }
  }

  lemma TakeOne(db: Db, t: Txn, products: Products)
    requires t.phase == Taking && ProductsOk(products) && Positive(LinesOfRequest(t.req))
    requires t.taken < |LinesOfRequest(t.req)| && AllFound(products, LinesOfRequest(t.req))
    requires SeenProducts(db, t) == Taken(products, LinesOfRequest(t.req)[..t.taken])
    requires forall p :: p in products ==> 0 <= Taken(products, LinesOfRequest(t.req)[..t.taken])[p].stock
    ensures var lines := LinesOfRequest(t.req);
            match TakeNext(db, t)
            case None => !Covered(products, lines)
            case Some(next) =>
              && next == t.(taken := t.taken + 1, products := next.products)
              && SeenProducts(db, next) == Taken(products, lines[..t.taken + 1])
              && forall p :: p in products ==> 0 <= Taken(products, lines[..t.taken + 1])[p].stock
  {
    var lines := LinesOfRequest(t.req);
    var p := lines[t.taken].product;
    TakenStep(products, lines, t.taken);
    var next := TakeNext(db, t);
    if next.None? {
      RefusedDecrement(products, lines, t.taken);
    } else {
      SeenStep(db, t, p, next.value.products[p]);
    }
  }

  lemma {:induction false} TakeLoop(limit: int, db: Db, t: Txn, products: Products) returns (done: Txn)
    requires t.phase == Taking && ProductsOk(products) && Positive(LinesOfRequest(t.req))
    requires t.taken <= |LinesOfRequest(t.req)| && AllFound(products, LinesOfRequest(t.req))
    requires SeenProducts(db, t) == Taken(products, LinesOfRequest(t.req)[..t.taken])
    requires forall p :: p in products ==> 0 <= Taken(products, LinesOfRequest(t.req)[..t.taken])[p].stock
    ensures var lines := LinesOfRequest(t.req);
            if Covered(products, lines) then
              && done == t.(taken := |lines|, products := done.products,
                            phase := if t.req.CreateRequest? then Pricing else Reviewing)
              && SeenProducts(db, done) == Taken(products, lines)
              && Alone(limit, db, t) == Alone(limit, db, done)
            else Alone(limit, db, t).None?
    decreases |LinesOfRequest(t.req)| - t.taken
  {
    var lines := LinesOfRequest(t.req);
    done := t;
    if t.taken == |lines| {
      assert lines[..t.taken] == lines;
      TakenAllMeansCovered(products, lines);
      done := t.(phase := if t.req.CreateRequest? then Pricing else Reviewing);
    } else {
      TakeOne(db, t, products);
      if TakeNext(db, t).Some? {
        done := TakeLoop(limit, db, TakeNext(db, t).value, products);
      }
    }
  }

  // Both loops, from a request that has not taken anything yet.
  lemma ReserveAlone(limit: int, db: Db, t: Txn, products: Products) returns (done: Txn)
    requires t.phase == Checking && t.entries == [] && !t.short && t.taken == 0
    requires products == SeenProducts(db, t) && ProductsOk(products) && Positive(LinesOfRequest(t.req))
    ensures var lines := LinesOfRequest(t.req);
            if Reserve(products, lines).Ok? then
              && AllFound(products, lines)
              && done == t.(entries := RowsRead(products, lines), taken := |lines|, products := done.products,
                            phase := if t.req.CreateRequest? then Pricing else Reviewing)
              && Ok(SeenProducts(db, done)) == Reserve(products, lines)
              && RowsOf(done) == Snapshot(products, lines)
              && Alone(limit, db, t) == Alone(limit, db, done)
            else Alone(limit, db, t).None?
  {
    var lines := LinesOfRequest(t.req);
    assert lines[..0] == [];
    done := CheckLoop(limit, db, t, products);
    if FirstLineError(products, lines) == None && Shortages(products, lines) == [] {
      NothingMoved(products);
      done := TakeLoop(limit, db, done, products);
    }
  }

  // ---- The calls ----

  // The request ended as the call's outcome says.
  ghost predicate EndsAs(db: Db, end: Option<Txn>, outcome: Outcome) {
    match end
    case None => outcome.result.Err?
    case Some(t) =>
      && t.order.Some?
      && (if Collides(db, t) then outcome.result.Err? else outcome == Outcome(Publish(db, t), Ok(t.order.value)))
  }

  lemma WriteTail(limit: int, db: Db, t: Txn)
    requires t.phase == Writing
    ensures Alone(limit, db, t) == WriteOrder(db, t)
  {
  }

  lemma UseTail(limit: int, db: Db, t: Txn)
    requires t.phase == Using
    ensures Alone(limit, db, t) == match UsePromo(db, t) case None => None case Some(next) => WriteOrder(db, next)
  {
    if UsePromo(db, t).Some? { WriteTail(limit, db, UsePromo(db, t).value); }
  }

  // Writing the row of a new order, once promo and discount are settled.
  lemma CreateWrites(db: Db, t: Txn, rows: seq<Item>, quote: Quote)
    requires t.req.CreateRequest? && t.phase == Writing && RowsOf(t) == rows
    requires t.promo == quote.promo && t.discount == quote.discount && SeenPromos(db, t) == quote.promos
    requires QuoteNew(db.promos, db.codes, Gross(rows), t.req.create.code, t.req.create.at.priced) == Ok(quote)
    ensures EndsAs(db, WriteOrder(db, t), Placed(db, t.req.create, SeenProducts(db, t), rows))
  {
  }

  lemma CreateTail(limit: int, db: Db, t: Txn, rows: seq<Item>)
    requires SchemaOk(db) && t.req.CreateRequest? && t.phase == Pricing && t.promos == map[] && t.promo.None?
    requires t.discount == 0
    requires RowsOf(t) == rows
    ensures EndsAs(db, Alone(limit, db, t), Placed(db, t.req.create, SeenProducts(db, t), rows))
  {
    assert SeenPromos(db, t) == db.promos;
    if t.req.create.code.None? {
      var priced := t.(phase := Writing);
      assert Alone(limit, db, t) == Alone(limit, db, priced);
      WriteTail(limit, db, priced);
      CreateWrites(db, priced, rows, Quote(None, 0, db.promos));
    } else {
      CodeTail(limit, db, t, rows);
    }
  }

  lemma CodeTail(limit: int, db: Db, t: Txn, rows: seq<Item>)
    requires SchemaOk(db) && t.req.CreateRequest? && t.phase == Pricing && SeenPromos(db, t) == db.promos
    requires t.promos == map[]
    requires RowsOf(t) == rows && t.req.create.code.Some?
    ensures EndsAs(db, Alone(limit, db, t), Placed(db, t.req.create, SeenProducts(db, t), rows))
  {
    var c := t.req.create;
    match QuoteNew(db.promos, db.codes, Gross(rows), c.code, c.at.priced)
    case Err(e) =>
      assert Alone(limit, db, t).None?;
    case Ok(quote) =>
      var priced := t.(promo := quote.promo, discount := quote.discount, phase := Using);
      assert Alone(limit, db, t) == Alone(limit, db, priced);
      UseTail(limit, db, priced);
      UsedMatches(db, priced, quote);
      CreateWrites(db, UsePromo(db, priced).value, rows, quote);
  }

  lemma UsedMatches(db: Db, t: Txn, quote: Quote)
    requires t.phase == Using && t.promos == map[] && t.promo == quote.promo && quote.promo.Some?
    requires quote.promo.value in db.promos
    requires quote.promos == Used(db.promos, quote.promo.value) && db.promos[quote.promo.value].uses + 1 <= MAX_INT
    ensures UsePromo(db, t).Some?
    ensures var next := UsePromo(db, t).value;
            && next == t.(used := quote.promo, promos := next.promos, phase := Writing)
            && SeenPromos(db, next) == quote.promos
  {
  }

  // Create, from the moment it is past its guards.
  lemma CreateAloneInTx(limit: int, db: Db, c: CreateInput)
    requires SchemaOk(db) && Positive(c.lines)
    ensures EndsAs(db, Alone(limit, db, Begin(CreateRequest(c)).(phase := Checking)), CreatePastGuards(db, c))
  {
    var checking := Begin(CreateRequest(c)).(phase := Checking);
    assert SeenProducts(db, checking) == db.products;
    var done := ReserveAlone(limit, db, checking, db.products);
    if Reserve(db.products, c.lines).Ok? {
      CreateTail(limit, db, done, Snapshot(db.products, c.lines));
    }
  }

  // Create: guards, both loops, promo, rows.
  lemma CreateAlone(limit: int, db: Db, c: CreateInput)
    requires SchemaOk(db) && Positive(c.lines)
    ensures EndsAs(db, Alone(limit, db, Begin(CreateRequest(c))), CreateOutcome(limit, db, c))
  {
    var t := Begin(CreateRequest(c));
    var tested := t.(phase := Testing);
    if !RateLimited(db.ops, c.user, CREATE_ORDER, limit, c.at.checked) {
      assert Alone(limit, db, t) == Alone(limit, db, tested);
      if !HasActive(db.orders, c.user) {
        assert Alone(limit, db, tested) == Alone(limit, db, t.(phase := Checking));
        CreateAloneInTx(limit, db, c);
      }
    }
  }

  // Writing the row of an updated order.
  lemma UpdateWrites(db: Db, t: Txn, rows: seq<Item>)
    requires OrdersOk(db) && t.req.UpdateRequest? && t.phase == Writing && RowsOf(t) == rows
    requires t.req.update.order in db.orders
    requires Requote(db.promos, Gross(rows), db.orders[t.req.update.order].promo, t.req.update.at.priced)
          == Quote(t.promo, t.discount, SeenPromos(db, t))
    ensures EndsAs(db, WriteOrder(db, t), Rewritten(db, t.req.update, SeenProducts(db, t), rows))
  {
  }

  lemma UpdateTail(limit: int, db: Db, t: Txn, rows: seq<Item>)
    requires SchemaOk(db) && t.req.UpdateRequest? && t.phase == Reviewing && RowsOf(t) == rows
    requires t.promos == map[] && t.promo.None? && t.discount == 0
    requires t.req.update.order in db.orders && t.seen == Some(db.orders[t.req.update.order])
    ensures EndsAs(db, Alone(limit, db, t), Rewritten(db, t.req.update, SeenProducts(db, t), rows))
  {
    var next := ReviewPromo(db, t).value;
    assert SeenPromos(db, t) == db.promos;
    assert Alone(limit, db, t) == Alone(limit, db, next);
    ReviewMatches(db, t, rows);
    if next.phase == Refunding {
      RefundTail(limit, db, next);
      RefundMatches(db, next);
      UpdateWrites(db, RefundPromo(db, next).value, rows);
    } else {
      WriteTail(limit, db, next);
      UpdateWrites(db, next, rows);
    }
  }

  lemma ReviewMatches(db: Db, t: Txn, rows: seq<Item>)
    requires OrdersOk(db) && t.req.UpdateRequest? && t.phase == Reviewing && RowsOf(t) == rows
    requires t.promos == map[] && t.promo.None? && t.discount == 0
    requires t.req.update.order in db.orders && t.seen == Some(db.orders[t.req.update.order])
    ensures ReviewPromo(db, t).Some?
    ensures var next := ReviewPromo(db, t).value;
            var quote := Requote(db.promos, Gross(rows), t.seen.value.promo, t.req.update.at.priced);
            && SeenPromos(db, next) == db.promos
            && next == t.(promo := next.promo, discount := next.discount, promos := next.promos, phase := next.phase)
            && (next.phase == Refunding ==>
                 && next.promo.None? && next.discount == 0 && t.seen.value.promo.Some?
                 && quote == Quote(None, 0, Refunded(db.promos, t.seen.value.promo.value)))
            && (next.phase != Refunding ==>
                 next.phase == Writing && quote == Quote(next.promo, next.discount, db.promos))
  {
    assert SeenPromos(db, t) == db.promos;
  }

  lemma RefundTail(limit: int, db: Db, t: Txn)
    requires t.phase == Refunding && t.seen.Some?
    ensures RefundPromo(db, t).Some? && RefundPromo(db, t).value.phase == Writing
    ensures Alone(limit, db, t) == WriteOrder(db, RefundPromo(db, t).value)
  {
    WriteTail(limit, db, RefundPromo(db, t).value);
  }

  lemma RefundMatches(db: Db, t: Txn)
    requires t.phase == Refunding && t.seen.Some? && SeenPromos(db, t) == db.promos
    ensures RefundPromo(db, t).Some?
    ensures var next := RefundPromo(db, t).value;
            && next == t.(refunded := next.refunded, promos := next.promos, phase := Writing)
            && SeenPromos(db, next) == if t.seen.value.promo.Some? then Refunded(db.promos, t.seen.value.promo.value)
                 else db.promos
  {
  }

  // Update, from the moment it is past its guards.
  lemma UpdateAloneInTx(limit: int, db: Db, t: Txn)
    requires SchemaOk(db) && t.req.UpdateRequest? && Positive(t.req.update.lines)
    requires t.req.update.order in db.orders
    requires t == Begin(t.req).(seen := Some(db.orders[t.req.update.order]), phase := Fetching)
    ensures EndsAs(db, Alone(limit, db, t), Reordered(db, t.req.update))
  {
    var u := t.req.update;
    var rows := ItemsOf(db.items, u.order);
    var fetched := t.(held := rows, phase := Restoring);
    FetchAlone(limit, db, t);
    FetchedAtRest(db, fetched);
    var restored := RestoreLoop(limit, db, fetched);
    if FitsBack(db.products, OldLines(db, u.order)) {
      var released := Given(db.products, OldLines(db, u.order));
      ReleasedRowsOk(db.products, OldLines(db, u.order));
      var done := ReserveAlone(limit, db, restored, released);
      if Reserve(released, u.lines).Ok? {
        UpdateTail(limit, db, done, Snapshot(released, u.lines));
      }
    }
  }

  lemma FetchedAtRest(db: Db, t: Txn)
    requires SchemaOk(db) && t.restored == 0 && t.products == map[] && t.held == ItemsOf(db.items, Target(t.req))
    ensures Positive(LinesOf(t.held))
    ensures SeenProducts(db, t) == Given(db.products, LinesOf(t.held)[..0]) == db.products
  {
    NothingMoved(db.products);
    assert LinesOf(t.held)[..0] == [];
  }

  lemma UpdateAlone(limit: int, db: Db, u: UpdateInput)
    requires SchemaOk(db) && Positive(u.lines)
    ensures EndsAs(db, Alone(limit, db, Begin(UpdateRequest(u))), UpdateOutcome(limit, db, u))
  {
    var t := Begin(UpdateRequest(u));
    if u.order in db.orders && MayTouch(db.orders[u.order], u.caller, u.role) && db.orders[u.order].status == CREATED {
      var read := t.(seen := Some(db.orders[u.order]), phase := Limiting);
      assert Alone(limit, db, t) == Alone(limit, db, read);
      if !RateLimited(db.ops, u.caller, UPDATE_ORDER, limit, u.at.checked) {
        assert Alone(limit, db, read) == Alone(limit, db, read.(phase := Fetching));
        UpdateAloneInTx(limit, db, read.(phase := Fetching));
      }
    }
  }

  // Cancel, from the moment it has read its order; `seen` may be older than the state it works on.
  lemma CancelAloneInTx(limit: int, db: Db, t: Txn)
    requires SchemaOk(db) && t.req.CancelRequest? && t.req.cancel.order in db.orders && t.seen.Some?
    requires t == Begin(t.req).(seen := t.seen, phase := Fetching)
    ensures Alone(limit, db, t).Some? <==> FitsBack(db.products, OldLines(db, t.req.cancel.order))
    ensures Alone(limit, db, t).Some? ==>
              var end := Alone(limit, db, t).value;
              && end.req == t.req && end.phase == Ready
                   && end.order == Some(db.orders[t.req.cancel.order].(status := CANCELED))
              && SeenProducts(db, end) == Given(db.products, OldLines(db, t.req.cancel.order))
              && SeenPromos(db, end) == if t.seen.value.promo.Some? then Refunded(db.promos, t.seen.value.promo.value)
                   else db.promos
  {
    var o := t.req.cancel.order;
    var fetched := t.(held := ItemsOf(db.items, o), phase := Restoring);
    FetchAlone(limit, db, t);
    FetchedAtRest(db, fetched);
    var restored := RestoreLoop(limit, db, fetched);
    if FitsBack(db.products, OldLines(db, o)) {
      CancelTail(limit, db, restored);
    }
  }

  lemma CancelTail(limit: int, db: Db, t: Txn)
    requires OrdersOk(db) && t.req.CancelRequest? && t.req.cancel.order in db.orders && t.seen.Some?
    requires t.phase == Refunding && SeenPromos(db, t) == db.promos
    ensures Alone(limit, db, t).Some?
    ensures var end := Alone(limit, db, t).value;
            && end.req == t.req && end.phase == Ready && end.products == t.products
            && end.order == Some(db.orders[t.req.cancel.order].(status := CANCELED))
            && SeenPromos(db, end) == if t.seen.value.promo.Some? then Refunded(db.promos, t.seen.value.promo.value)
                 else db.promos
  {
    RefundTail(limit, db, t);
    RefundMatches(db, t);
  }

  lemma CancelAlone(limit: int, db: Db, x: CancelInput)
    requires SchemaOk(db)
    ensures EndsAs(db, Alone(limit, db, Begin(CancelRequest(x))), CancelOutcome(db, x))
  {
    var t := Begin(CancelRequest(x));
    if x.order in db.orders && MayTouch(db.orders[x.order], x.caller, x.role) && IsActive(db.orders[x.order]) {
      var read := t.(seen := Some(db.orders[x.order]), phase := Fetching);
      assert Alone(limit, db, t) == Alone(limit, db, read);
      CancelAloneInTx(limit, db, read);
    }
  }
}
