/**
 Stock over serial runs: conservation, cancellation that cannot overflow, and the round trip.
 */
module SupplyRuns {
  import opened Schema
  import opened Reservation
  import opened OrderRules
  import opened Balance
  import opened Invariant
  import opened Runs
  import Sums

  // Units of p a seller adds (or, negative, removes) with this event.
  function StockAdded(db: Db, e: Event, p: ProductId): int {
    match e
    case EditCall(x) =>
      if x.product == p && EditOutcome(db, x).result.Ok? then x.stock - db.products[p].stock else 0
    case AddProduct(q, price, stock, seller) =>
      if q == p && p !in db.products && ProductRowOk(Product(price, stock, ACTIVE, Some(seller))) then stock else 0
    case _ => 0
  }

  function TotalAdded(limit: int, w: World, events: seq<Event>, p: ProductId): int {
    if events == [] then 0
    else
      var before := events[..|events| - 1];
      TotalAdded(limit, w, before, p) + StockAdded(Run(limit, w, before).db, events[|events| - 1], p)
  }

  lemma UnknownProductUnheld(db: Db, p: ProductId)
    requires ItemsTableOk(db) && p !in db.products
    ensures Reserved(db, p) == 0
  {
    var f := (o: OrderId) => Load(db, o, p);
    forall o | o in db.orders ensures f(o) == 0 {
      OldLinesPositive(db, o);
      DemandBounds(OldLines(db, o), p);
    }
    Sums.SumOfZeros(db.orders.Keys, f);
  }

  lemma SameOrdersSameReserved(db: Db, next: Db, p: ProductId)
    requires next.orders == db.orders && next.items == db.items
    ensures Reserved(next, p) == Reserved(db, p)
  {
    Sums.SumSame(db.orders.Keys, (o: OrderId) => Load(db, o, p), (o: OrderId) => Load(next, o, p));
  }

  lemma BalancedStepKeepsSupply(db: Db, next: Db, o: OrderId, p: ProductId)
    requires ItemsTableOk(db) && ItemsTableOk(next) && Balanced(db, next, o)
    ensures Supply(next, p) == Supply(db, p)
  {
    if p in db.products {
      BalancedKeepsSupply(db, next, o, p);
    } else {
      UnknownProductUnheld(db, p);
      UnknownProductUnheld(next, p);
    }
  }

  lemma CallKeepsSupply(limit: int, w: World, e: Event, p: ProductId)
    requires Inv(w.db) && Legal(w, e) && (e.CreateCall? || e.UpdateCall? || e.CancelCall?)
    ensures Supply(Step(limit, w, e).db, p) == Supply(w.db, p)
  {
    match e
    case CreateCall(c) =>
      if CreateOutcome(limit, w.db, c).result.Ok? { CreateKeepsSupply(w.db, c, p); }
    case UpdateCall(u) =>
      if UpdateOutcome(limit, w.db, u).result.Ok? {
        UpdateThroughGuards(limit, w.db, u);
        UpdateKeepsSupply(w.db, u, p);
      }
    case CancelCall(x) =>
      if CancelOutcome(w.db, x).result.Ok? { CancelKeepsSupply(w.db, x, p); }
  }

  lemma CreateKeepsSupply(db: Db, c: CreateInput, p: ProductId)
    requires Inv(db) && Positive(c.lines) && CreateUnlimited(db, c).result.Ok?
    ensures Supply(CreateUnlimited(db, c).db, p) == Supply(db, p)
  {
    CreateKeepsInv(db, c);
    CreateIsBalanced(db, c);
    BalancedStepKeepsSupply(db, CreateUnlimited(db, c).db, c.id, p);
  }

  lemma UpdateKeepsSupply(db: Db, u: UpdateInput, p: ProductId)
    requires Inv(db) && Positive(u.lines) && Live(db, u.order) && Reordered(db, u).result.Ok?
    ensures Supply(Reordered(db, u).db, p) == Supply(db, p)
  {
    UpdateKeepsInv(db, u);
    UpdateIsBalanced(db, u);
    BalancedStepKeepsSupply(db, Reordered(db, u).db, u.order, p);
  }

  lemma CancelKeepsSupply(db: Db, x: CancelInput, p: ProductId)
    requires Inv(db) && CancelOutcome(db, x).result.Ok?
    ensures Supply(CancelOutcome(db, x).db, p) == Supply(db, p)
  {
    CancelKeepsInv(db, x);
    CancelIsBalanced(db, x);
    BalancedStepKeepsSupply(db, CancelOutcome(db, x).db, x.order, p);
  }

  lemma ProgressKeepsSupply(db: Db, o: OrderId, status: OrderStatus, p: ProductId)
    requires SchemaOk(db) && SchemaOk(Moved(db, o, status))
    ensures Supply(Moved(db, o, status), p) == Supply(db, p)
  {
    if o in db.orders {
      MovedIsBalanced(db, o, status);
      BalancedStepKeepsSupply(db, Moved(db, o, status), o, p);
    }
  }

  // Events that leave orders and items alone change the supply by what they do to the stock.
  lemma OtherEventSupply(limit: int, db: Db, e: Event, p: ProductId)
    requires !e.CreateCall? && !e.UpdateCall? && !e.CancelCall? && !e.Progress?
    ensures Supply(Apply(limit, db, e), p) == Supply(db, p) + StockAdded(db, e, p)
  {
    SameOrdersSameReserved(db, Apply(limit, db, e), p);
  }

  // Only sellers change the supply of a product; order calls, payment and delivery keep it.
  lemma StepSupply(limit: int, w: World, e: Event, p: ProductId)
    requires Inv(w.db) && Legal(w, e)
    ensures Supply(Step(limit, w, e).db, p) == Supply(w.db, p) + StockAdded(w.db, e, p)
  {
    if e.CreateCall? || e.UpdateCall? || e.CancelCall? {
      CallKeepsSupply(limit, w, e, p);
    } else if e.Progress? {
      MovedKeepsInv(w.db, e.order, e.status);
      ProgressKeepsSupply(w.db, e.order, e.status, p);
    } else {
      OtherEventSupply(limit, w.db, e, p);
    }
  }

  lemma {:induction false} SupplyOverRun(limit: int, w: World, events: seq<Event>, p: ProductId)
    requires Inv(w.db) && LegalRun(limit, w, events)
    ensures Supply(Run(limit, w, events).db, p) == Supply(w.db, p) + TotalAdded(limit, w, events, p)
  {
    if events != [] {
      var before := events[..|events| - 1];
      LegalPrefix(limit, w, events);
      SupplyOverRun(limit, w, before, p);
      RunKeepsInv(limit, w, before);
      StepSupply(limit, Run(limit, w, before), events[|events| - 1], p);
    }
  }

  // ---- Cancelling ----

  // Exactly when Cancel goes through: a guard per branch, and room for the units it gives back.
  lemma CancelSucceedsWhen(db: Db, input: CancelInput)
    requires SchemaOk(db)
    ensures CancelOutcome(db, input).result.Ok? <==>
            && input.order in db.orders
            && (input.role == ADMIN || db.orders[input.order].user == input.caller)
            && (db.orders[input.order].status == CREATED || db.orders[input.order].status == PAYMENT_PENDING)
            && forall p :: p in db.products ==> db.products[p].stock + Load(db, input.order, p) <= MAX_INT
  {
    var lines := OldLines(db, input.order);
    OldLinesPositive(db, input.order);
    forall p | p in db.products ensures
      (forall i :: 0 <= i < |lines| ==> lines[i].product != p) ==> Demand(lines, p) == 0
    {
      DemandBounds(lines, p);
    }
  }

  // Exactly when the stock part of Update goes through, restore loop included.
  lemma UpdateReservesWhen(db: Db, u: UpdateInput)
    requires SchemaOk(db) && Positive(u.lines) && Live(db, u.order)
    ensures var released := Release(db.products, OldLines(db, u.order));
            released.Ok? && Reserve(released.value, u.lines).Ok? <==>
              && (forall p :: p in db.products ==> db.products[p].stock + Load(db, u.order, p) <= MAX_INT)
              && forall i :: 0 <= i < |u.lines| ==>
                   var p := u.lines[i].product;
                   && p in db.products && db.products[p].status == ACTIVE
                   && Demand(u.lines, p) <= db.products[p].stock + Load(db, u.order, p)
    ensures (exists p :: p in db.products && db.products[p].stock + Load(db, u.order, p) > MAX_INT) ==>
              Reordered(db, u) == Outcome(db, Err(StatementFailed))
  {
    OldLinesPositive(db, u.order);
    ReleaseThenReserveAccepts(db.products, OldLines(db, u.order), u.lines);
  }

  ghost predicate SupplyFits(db: Db) {
    forall p :: p in db.products ==> Supply(db, p) <= MAX_INT
  }

  lemma LoadWithinReserved(db: Db, o: OrderId, p: ProductId)
    requires ItemsTableOk(db) && o in db.orders
    ensures 0 <= Load(db, o, p) <= Reserved(db, p)
  {
    var f := (k: OrderId) => Load(db, k, p);
    forall k | k in db.orders ensures f(k) >= 0 {
      OldLinesPositive(db, k);
      DemandBounds(OldLines(db, k), p);
    }
    Sums.SumAtLeast(db.orders.Keys, f, o);
  }

  // While every supply fits in INTEGER, every CREATED or PAYMENT_PENDING order can be cancelled by its owner.
  lemma OwnerCanCancel(db: Db, o: OrderId, role: Role)
    requires SchemaOk(db) && SupplyFits(db) && o in db.orders
    requires db.orders[o].status == CREATED || db.orders[o].status == PAYMENT_PENDING
    ensures CancelOutcome(db, CancelInput(o, db.orders[o].user, role)).result.Ok?
  {
    forall p | p in db.products ensures db.products[p].stock + Load(db, o, p) <= MAX_INT {
      LoadWithinReserved(db, o, p);
    }
    CancelSucceedsWhen(db, CancelInput(o, db.orders[o].user, role));
  }

  // No step of the restore loop leaves INTEGER, whatever order the rows are read in.
  lemma NoOverflowOnTheWay(db: Db, o: OrderId, read: seq<Item>, i: nat, p: ProductId)
    requires SchemaOk(db) && SupplyFits(db) && Live(db, o) && p in db.products
    requires multiset(read) == multiset(ItemsOf(db.items, o)) && i <= |read|
    ensures 0 <= Given(db.products, LinesOf(read)[..i])[p].stock <= MAX_INT
  {
    var lines := LinesOf(read);
    LinesOfPermutation(read, ItemsOf(db.items, o));
    DemandOfPermutation(lines, OldLines(db, o), p);
    OldLinesPositive(db, o);
    forall k | 0 <= k < |lines| ensures 1 <= lines[k].quantity <= MAX_INT {
      assert lines[k] in multiset(lines);
      assert lines[k] in OldLines(db, o);
    }
    PrefixDemandAtMost(lines, i, p);
    LoadWithinReserved(db, o, p);
  }

  // Only a stock edit can leave too little room for the units in orders.
  ghost predicate LeavesRoom(db: Db, e: Event) {
    e.EditCall? && EditOutcome(db, e.edit).result.Ok? ==> e.edit.stock + Reserved(db, e.edit.product) <= MAX_INT
  }

  // Supplies that fit keep fitting exactly when the event leaves room, new products included.
  lemma SupplyKeepsFitting(limit: int, w: World, e: Event)
    requires Inv(w.db) && Legal(w, e) && SupplyFits(w.db)
    ensures SupplyFits(Step(limit, w, e).db) <==> LeavesRoom(w.db, e)
  {
    var next := Step(limit, w, e).db;
    forall p | p in next.products && LeavesRoom(w.db, e) ensures Supply(next, p) <= MAX_INT {
      StepSupply(limit, w, e, p);
      if p !in w.db.products {
        UnknownProductUnheld(w.db, p);
      }
    }
    if e.EditCall? && EditOutcome(w.db, e.edit).result.Ok? {
      EditSupply(w.db, e.edit);
    }
  }

  lemma EditSupply(db: Db, x: ProductEdit)
    requires EditOutcome(db, x).result.Ok?
    ensures x.product in EditOutcome(db, x).db.products
    ensures Supply(EditOutcome(db, x).db, x.product) == x.stock + Reserved(db, x.product)
  {
    SameOrdersSameReserved(db, EditOutcome(db, x).db, x.product);
  }

  ghost predicate RoomThroughout(limit: int, w: World, events: seq<Event>) {
    forall i :: 0 <= i < |events| ==> LeavesRoom(Run(limit, w, events[..i]).db, events[i])
  }

  lemma {:induction false} SupplyKeepsFittingOverRun(limit: int, w: World, events: seq<Event>)
    requires Inv(w.db) && LegalRun(limit, w, events) && RoomThroughout(limit, w, events) && SupplyFits(w.db)
    ensures SupplyFits(Run(limit, w, events).db)
  {
    if events != [] {
      var n := |events| - 1;
      var before := events[..n];
      LegalPrefix(limit, w, events);
      forall i | 0 <= i < n ensures LeavesRoom(Run(limit, w, before[..i]).db, before[i]) {
        assert before[..i] == events[..i];
      }
      SupplyKeepsFittingOverRun(limit, w, before);
      RunKeepsInv(limit, w, before);
      SupplyKeepsFitting(limit, Run(limit, w, before), events[n]);
    }
  }

  // A seller's stock edit decides whether an order can still be cancelled: too large a stock makes
  // the restore statement fail, and nothing else an edit does gets in the way.
  lemma StockEditCanBlockCancel(db: Db, e: ProductEdit, x: CancelInput)
    requires SchemaOk(db) && EditOutcome(db, e).result.Ok?
    requires x.order in db.orders && IsActive(db.orders[x.order]) && MayTouch(db.orders[x.order], x.caller, x.role)
    ensures var after := CancelOutcome(EditOutcome(db, e).db, x).result;
            && (e.stock + Load(db, x.order, e.product) > MAX_INT ==> after == Err(StatementFailed))
            && (CancelOutcome(db, x).result.Ok? ==>
                  (after.Ok? <==> e.stock + Load(db, x.order, e.product) <= MAX_INT))
  {
    EditedSchema(db, e);
    CancelSucceedsWhen(db, x);
    CancelSucceedsWhen(EditOutcome(db, e).db, x);
    assert forall p :: Load(EditOutcome(db, e).db, x.order, p) == Load(db, x.order, p);
  }

  // An instance: one unit is reserved, the seller sets the stock to the maximum.
  lemma StockEditExample()
    ensures var db := Db({7, 8}, map[1 := Product(100, 0, ACTIVE, Some(8))], map[], map[],
                         map[5 := Order(7, CREATED, None, 100, 0)], map[5 := [Item(1, 1, 100)]], []);
            var edited := EditOutcome(db, ProductEdit(1, 8, SELLER, 100, MAX_INT, ACTIVE));
            && edited.result.Ok? && CancelOutcome(db, CancelInput(5, 7, USER)).result.Ok?
            && CancelOutcome(edited.db, CancelInput(5, 7, USER)).result == Err(StatementFailed)
  {
    var lines := LinesOf([Item(1, 1, 100)]);
    assert lines == [Line(1, 1)] && lines[..0] == [];
    assert Demand(lines, 1) == 1;
    assert lines[0].product == 1;
  }

  // ---- Round trip ----

  // Calls about order o that may fail or succeed, lost connections included.
  predicate Concerns(e: Event, o: OrderId) {
    match e
    case UpdateCall(u) => u.order == o
    case LostCall => true
    case _ => false
  }

  lemma NoChangeIsBalanced(db: Db, o: OrderId)
    requires o in db.orders && o in db.items
    ensures Balanced(db, db, o)
  {
  }

  lemma ConcerningStepIsBalanced(limit: int, w: World, e: Event, o: OrderId)
    requires Inv(w.db) && o in w.db.orders && Concerns(e, o)
    ensures Balanced(w.db, Step(limit, w, e).db, o)
  {
    if e.UpdateCall? && UpdateOutcome(limit, w.db, e.update).result.Ok? {
      SuccessfulUpdateIsBalanced(limit, w.db, e.update);
    } else {
      ConcerningFailure(limit, w, e, o);
      NoChangeIsBalanced(w.db, o);
    }
  }

  lemma SuccessfulUpdateIsBalanced(limit: int, db: Db, u: UpdateInput)
    requires Inv(db) && UpdateOutcome(limit, db, u).result.Ok?
    ensures Balanced(db, UpdateOutcome(limit, db, u).db, u.order)
  {
    UpdateThroughGuards(limit, db, u);
    UpdateIsBalanced(db, u);
  }

  lemma ConcerningFailure(limit: int, w: World, e: Event, o: OrderId)
    requires Concerns(e, o) && !(e.UpdateCall? && UpdateOutcome(limit, w.db, e.update).result.Ok?)
    ensures Step(limit, w, e).db == w.db
  {
  }

  // Such calls leave the owner and the status of the order alone.
  lemma ConcerningStepKeepsStatus(limit: int, w: World, e: Event, o: OrderId)
    requires Inv(w.db) && Legal(w, e) && o in w.db.orders && Concerns(e, o)
    ensures var next := Step(limit, w, e).db;
            o in next.orders && next.orders[o].user == w.db.orders[o].user
                && next.orders[o].status == w.db.orders[o].status
  {
    if e.UpdateCall? && UpdateOutcome(limit, w.db, e.update).result.Ok? {
      UpdateThroughGuards(limit, w.db, e.update);
      UpdateKeepsStatus(w.db, e.update);
    } else {
      ConcerningFailure(limit, w, e, o);
    }
  }

  lemma {:induction false} UpdatesKeepStatus(limit: int, w: World, events: seq<Event>, o: OrderId)
    requires Inv(w.db) && LegalRun(limit, w, events) && o in w.db.orders
    requires forall i :: 0 <= i < |events| ==> Concerns(events[i], o)
    ensures var last := Run(limit, w, events).db;
            o in last.orders && last.orders[o].user == w.db.orders[o].user
                && last.orders[o].status == w.db.orders[o].status
  {
    if events != [] {
      var before := events[..|events| - 1];
      LegalPrefix(limit, w, events);
      UpdatesKeepStatus(limit, w, before, o);
      RunKeepsInv(limit, w, before);
      ConcerningStepKeepsStatus(limit, Run(limit, w, before), events[|events| - 1], o);
    }
  }

  lemma {:induction false} UpdatesAreBalanced(limit: int, w: World, events: seq<Event>, o: OrderId)
    requires Inv(w.db) && LegalRun(limit, w, events) && o in w.db.orders
    requires forall i :: 0 <= i < |events| ==> Concerns(events[i], o)
    ensures Balanced(w.db, Run(limit, w, events).db, o)
  {
    if events == [] {
      NoChangeIsBalanced(w.db, o);
    } else {
      var before := events[..|events| - 1];
      LegalPrefix(limit, w, events);
      UpdatesAreBalanced(limit, w, before, o);
      RunKeepsInv(limit, w, before);
      var mid := Run(limit, w, before);
      ConcerningStepIsBalanced(limit, mid, events[|events| - 1], o);
      BalancedComposes(w.db, mid.db, Step(limit, mid, events[|events| - 1]).db, o);
    }
  }

  lemma CreatedOrderIsNew(limit: int, db: Db, c: CreateInput)
    requires Inv(db) && Positive(c.lines) && CreateOutcome(limit, db, c).result.Ok?
    ensures var next := CreateOutcome(limit, db, c).db;
            && c.id !in db.orders && c.id in next.orders
            && next.orders[c.id].user == c.user && next.orders[c.id].status == CREATED
  {
    CreateParts(db, c);
    PlacedParts(db, c, CreateUnlimited(db, c).db.products, CreatedRows(db, c));
  }

  // Create, then any number of Updates of that order, failed or not: its owner or an admin can
  // cancel it, and then products and promos are as they were.
  lemma RoundTrip(limit: int, w: World, c: CreateInput, events: seq<Event>, x: CancelInput)
    requires Inv(w.db) && Legal(w, CreateCall(c)) && CreateOutcome(limit, w.db, c).result.Ok?
    requires LegalRun(limit, Step(limit, w, CreateCall(c)), events)
    requires forall i :: 0 <= i < |events| ==> Concerns(events[i], c.id)
    requires x.order == c.id && (x.role == ADMIN || x.caller == c.user)
    ensures var after := CancelOutcome(Run(limit, Step(limit, w, CreateCall(c)), events).db, x);
            after.result.Ok? && after.db.products == w.db.products && after.db.promos == w.db.promos
  {
    var created := Step(limit, w, CreateCall(c));
    var updated := Run(limit, created, events);
    StepKeepsInv(limit, w, CreateCall(c));
    CreateIsBalanced(w.db, c);
    CreatedOrderIsNew(limit, w.db, c);
    UpdatesAreBalanced(limit, created, events, c.id);
    UpdatesKeepStatus(limit, created, events, c.id);
    BalancedComposes(w.db, created.db, updated.db, c.id);
    RunKeepsInv(limit, created, events);
    CancelFitsAgain(w.db, updated.db, x);
    CancelGivesBack(w.db, updated.db, x);
  }

  // What a balanced exchange has taken from a stock that fitted fits back.
  lemma CancelFitsAgain(start: Db, db: Db, x: CancelInput)
    requires x.order !in start.orders && Balanced(start, db, x.order) && ProductsOk(start.products) && SchemaOk(db)
    requires x.order in db.orders && db.orders[x.order].status == CREATED
    requires MayTouch(db.orders[x.order], x.caller, x.role)
    ensures CancelOutcome(db, x).result.Ok?
  {
    forall p | p in db.products ensures db.products[p].stock + Load(db, x.order, p) <= MAX_INT {
      assert ProductRowOk(start.products[p]) && Load(start, x.order, p) == 0;
    }
    CancelSucceedsWhen(db, x);
  }

  lemma CancelGivesBack(start: Db, db: Db, x: CancelInput)
    requires x.order !in start.orders && Balanced(start, db, x.order)
    requires SchemaOk(db) && PromoExact(db) && CancelOutcome(db, x).result.Ok?
    ensures CancelOutcome(db, x).db.products == start.products && CancelOutcome(db, x).db.promos == start.promos
  {
    var after := CancelOutcome(db, x).db;
    CancelIsBalanced(db, x);
    BalancedComposes(start, db, after, x.order);
    CancelParts(db, x);
    NothingHeldNothingMoved(start, after, x.order);
  }

  lemma NothingHeldNothingMoved(db: Db, after: Db, o: OrderId)
    requires Balanced(db, after, o) && !Live(db, o) && !Live(after, o)
    ensures after.products == db.products && after.promos == db.promos
  {
    forall p | p in db.products ensures after.products[p] == db.products[p] {
      assert Load(db, o, p) == 0 && Load(after, o, p) == 0;
    }
    forall r | r in db.promos ensures after.promos[r] == db.promos[r] {
      assert Carries(db, o, r) == 0 && Carries(after, o, r) == 0;
    }
  }
}
