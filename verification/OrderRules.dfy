/**
 What the order calls do, as functions from the database and the request to the database after the
 call and its result. The methods of OrderService are proved to compute exactly these.
 */
module OrderRules {
  import opened Money
  import opened Schema
  import opened Reservation

  // Instants of one call on the common clock: when the rate limit is checked, when the transaction
  // starts (NOW() in its statements), when the promo window is tested.
  datatype Instants = Instants(checked: Time, started: Time, priced: Time)

  datatype CreateInput = CreateInput(user: UserId, lines: seq<Line>, code: Option<string>, id: OrderId, at: Instants)
  datatype UpdateInput = UpdateInput(order: OrderId, caller: UserId, role: Role, lines: seq<Line>, at: Instants)
  datatype CancelInput = CancelInput(order: OrderId, caller: UserId, role: Role)

  datatype Outcome = Outcome(db: Db, result: Result<Order>)

  // ---- Rate limit ----

  // The latest entry of a kind for a user.
  function LastOperation(ops: seq<Operation>, user: UserId, kind: OperationType): Option<Time> {
    if ops == [] then None
    else
      var op := ops[|ops| - 1];
      var earlier := LastOperation(ops[..|ops| - 1], user, kind);
      if op.user != user || op.kind != kind then earlier
      else if earlier.Some? && earlier.value > op.at then earlier
      else Some(op.at)
  }

  predicate RateLimited(ops: seq<Operation>, user: UserId, kind: OperationType, limit: int, now: Time) {
    var last := LastOperation(ops, user, kind);
    last.Some? && now - last.value < limit
  }

  predicate Matches(op: Operation, user: UserId, kind: OperationType) {
    op.user == user && op.kind == kind
  }

  // ORDER BY created_at DESC LIMIT 1 yields the latest matching entry, if there is one.
  lemma {:induction false} LastOperationIsLatest(ops: seq<Operation>, user: UserId, kind: OperationType)
    ensures LastOperation(ops, user, kind).None? <==> forall i :: 0 <= i < |ops| ==> !Matches(ops[i], user, kind)
    ensures var last := LastOperation(ops, user, kind);
            last.Some? ==>
              && (exists i :: 0 <= i < |ops| && Matches(ops[i], user, kind) && ops[i].at == last.value)
              && (forall i :: 0 <= i < |ops| && Matches(ops[i], user, kind) ==> ops[i].at <= last.value)
  {
    if ops != [] {
      var n := |ops| - 1;
      LastOperationIsLatest(ops[..n], user, kind);
      var last := LastOperation(ops, user, kind);
      var earlier := LastOperation(ops[..n], user, kind);
      if earlier.Some? {
        var i :| 0 <= i < n && Matches(ops[..n][i], user, kind) && ops[..n][i].at == earlier.value;
        assert Matches(ops[i], user, kind);
      }
      if Matches(ops[n], user, kind) {
        assert last.Some?;
      }
    }
  }

  // Some entry of the user and kind is younger than the limit.
  ghost predicate Recent(ops: seq<Operation>, user: UserId, kind: OperationType, limit: int, now: Time) {
    exists i :: 0 <= i < |ops| && ops[i].user == user && ops[i].kind == kind && now - ops[i].at < limit
  }

  // A call is limited by a recent entry of its user and kind, and by nothing else.
  lemma RateLimitedWhen(ops: seq<Operation>, user: UserId, kind: OperationType, limit: int, now: Time)
    ensures RateLimited(ops, user, kind, limit, now) <==>
            exists i :: 0 <= i < |ops| && ops[i].user == user && ops[i].kind == kind && now - ops[i].at < limit
  {
    LastOperationIsLatest(ops, user, kind);
    if RateLimited(ops, user, kind, limit, now) {
      var i :| 0 <= i < |ops| && Matches(ops[i], user, kind) && ops[i].at == LastOperation(ops, user, kind).value;
    } else if exists i :: 0 <= i < |ops| && ops[i].user == user && ops[i].kind == kind && now - ops[i].at < limit {
      var i :| 0 <= i < |ops| && ops[i].user == user && ops[i].kind == kind && now - ops[i].at < limit;
      assert Matches(ops[i], user, kind);
    }
  }

  // ---- Promo codes ----

  // The promo an order ends up with, its exact discount in micros, and the promo table after that.
  datatype Quote = Quote(promo: Option<PromoId>, discount: int, promos: Promos)

  predicate InWindow(promo: Promo, now: Time) {
    promo.validFrom <= now <= promo.validUntil
  }

  function Used(promos: Promos, r: PromoId): Promos
    requires r in promos
  {
    promos[r := promos[r].(uses := promos[r].uses + 1)]
  }

  // The decrement statement is guarded by current_uses > 0.
  function Refunded(promos: Promos, r: PromoId): Promos {
    if r in promos && promos[r].uses > 0 then promos[r := promos[r].(uses := promos[r].uses - 1)] else promos
  }

  function QuoteNew(promos: Promos, codes: map<string, PromoId>, gross: int, code: Option<string>,
      now: Time): Result<Quote> {
    if code.None? then Ok(Quote(None, 0, promos))
    else if code.value !in codes || codes[code.value] !in promos then Err(PromoCodeInvalid)
    else
      var r := codes[code.value];
      var promo := promos[r];
      if !promo.active || promo.uses >= promo.maxUses || !InWindow(promo, now) then Err(PromoCodeInvalid)
      else if gross < promo.minAmount then Err(PromoCodeMinAmount)
      else if promo.uses + 1 > MAX_INT then Err(StatementFailed)
      else Ok(Quote(Some(r), CalcDiscount(gross, promo.kind, promo.amount), Used(promos, r)))
  }

  predicate StillApplies(promo: Promo, gross: int, now: Time) {
    promo.active && promo.uses <= promo.maxUses && InWindow(promo, now) && gross >= promo.minAmount
  }

  function Requote(promos: Promos, gross: int, current: Option<PromoId>, now: Time): Quote {
    if current.None? then Quote(None, 0, promos)
    else if current.value !in promos then Quote(current, 0, promos)
    else
      var promo := promos[current.value];
      if StillApplies(promo, gross, now) then Quote(current, CalcDiscount(gross, promo.kind, promo.amount), promos)
      else Quote(None, 0, Refunded(promos, current.value))
  }

  // When a new order may use a code, what it gets, and the error otherwise.
  lemma QuoteNewWhen(promos: Promos, codes: map<string, PromoId>, gross: int, code: string, now: Time)
    requires PromosOk(promos, codes)
    ensures var quote := QuoteNew(promos, codes, gross, Some(code), now);
            if code !in codes then quote == Err(PromoCodeInvalid)
            else
              var promo := promos[codes[code]];
              var usable :=
                promo.active && promo.uses < promo.maxUses && promo.validFrom <= now && now <= promo.validUntil;
              && (quote.Ok? <==> usable && gross >= promo.minAmount)
              && (quote == Err(PromoCodeInvalid) <==> !usable)
              && (quote == Err(PromoCodeMinAmount) <==> usable && gross < promo.minAmount)
              && (quote.Ok? ==>
                    && quote.value.promo == Some(codes[code])
                    && quote.value.discount == CalcDiscount(gross, promo.kind, promo.amount)
                    && quote.value.promos == promos[codes[code] := promo.(uses := promo.uses + 1)])
  {
    if code in codes {
      assert PromoRowOk(promos[codes[code]]);
    }
  }

  lemma QuoteNewWithout(promos: Promos, codes: map<string, PromoId>, gross: int, now: Time)
    ensures QuoteNew(promos, codes, gross, None, now) == Ok(Quote(None, 0, promos))
  {
  }

  // When an updated order keeps its promo; otherwise it drops it and gives the use back.
  lemma RequoteWhen(promos: Promos, gross: int, r: PromoId, now: Time)
    requires r in promos
    ensures var quote := Requote(promos, gross, Some(r), now);
            var promo := promos[r];
            && (quote.promo == Some(r) <==>
                  && promo.active && promo.uses <= promo.maxUses
                  && promo.validFrom <= now && now <= promo.validUntil && gross >= promo.minAmount)
            && (quote.promo == Some(r) ==>
                  quote.discount == CalcDiscount(gross, promo.kind, promo.amount) && quote.promos == promos)
            && (quote.promo != Some(r) ==>
                  && quote.promo == None && quote.discount == 0
                  && quote.promos == promos[r := promo.(uses := if promo.uses > 0 then promo.uses - 1 else promo.uses)])
  {
    assert promos[r := promos[r]] == promos;
  }

  // ---- Create ----

  function Priced(order: Order, promo: Option<PromoId>, gross: int, discount: int): Order {
    order.(promo := promo,
           total := RoundToCents(gross * MICROS_PER_CENT - discount),
           discount := RoundToCents(discount))
  }

  function NewOrder(user: UserId, quote: Quote, gross: int): Order {
    Priced(Order(user, CREATED, None, 0, 0), quote.promo, gross, quote.discount)
  }

  function CreateOutcome(limit: int, db: Db, input: CreateInput): Outcome {
    if RateLimited(db.ops, input.user, CREATE_ORDER, limit, input.at.checked) then Outcome(db, Err(OrderLimitExceeded))
    else CreateUnlimited(db, input)
  }

  // Create without the rate limit.
  function CreateUnlimited(db: Db, input: CreateInput): Outcome {
    if HasActive(db.orders, input.user) then Outcome(db, Err(OrderHasActive)) else CreatePastGuards(db, input)
  }

  // Create after the test for an active order.
  function CreatePastGuards(db: Db, input: CreateInput): Outcome {
    match Reserve(db.products, input.lines)
    case Err(e) => Outcome(db, Err(e))
    case Ok(products) =>
      ReservedAllFound(db.products, input.lines);
      Placed(db, input, products, Snapshot(db.products, input.lines))
  }

  lemma ReservedAllFound(products: Products, lines: seq<Line>)
    requires Reserve(products, lines).Ok?
    ensures AllFound(products, lines)
  {
    NoLineErrorMeans(products, lines);
  }

  function Placed(db: Db, input: CreateInput, products: Products, rows: seq<Item>): Outcome {
    match QuoteNew(db.promos, db.codes, Gross(rows), input.code, input.at.priced)
    case Err(e) => Outcome(db, Err(e))
    case Ok(quote) =>
      var order := NewOrder(input.user, quote, Gross(rows));
      if input.id in db.orders || input.user !in db.users || !OrderRowOk(order) then Outcome(db, Err(StatementFailed))
      else Outcome(Inserted(db, input, products, quote.promos, order, rows), Ok(order))
  }

  function Inserted(db: Db, input: CreateInput, products: Products, promos: Promos, order: Order, rows: seq<Item>): Db {
    db.(products := products,
        promos := promos,
        orders := db.orders[input.id := order],
        items := db.items[input.id := rows],
        ops := db.ops + [Operation(input.user, CREATE_ORDER, input.at.started)])
  }

  // ---- Update ----

  predicate MayTouch(order: Order, caller: UserId, role: Role) {
    role == ADMIN || order.user == caller
  }

  function OldLines(db: Db, o: OrderId): seq<Line> {
    LinesOf(ItemsOf(db.items, o))
  }

  lemma OldLinesPositive(db: Db, o: OrderId)
    requires ItemsTableOk(db)
    ensures Positive(OldLines(db, o))
  {
  }

  function UpdateOutcome(limit: int, db: Db, input: UpdateInput): Outcome {
    if input.order !in db.orders then Outcome(db, Err(OrderNotFound))
    else if !MayTouch(db.orders[input.order], input.caller, input.role) then Outcome(db, Err(OrderOwnershipViolation))
    else if db.orders[input.order].status != CREATED then Outcome(db, Err(InvalidStateTransition))
    else if RateLimited(db.ops, input.caller, UPDATE_ORDER, limit, input.at.checked)
        then Outcome(db, Err(OrderLimitExceeded))
    else Reordered(db, input)
  }

  // Update after the tests on the order and the rate limit.
  function Reordered(db: Db, input: UpdateInput): Outcome
    requires input.order in db.orders
  {
    match Release(db.products, OldLines(db, input.order))
    case Err(e) => Outcome(db, Err(e))
    case Ok(released) =>
      match Reserve(released, input.lines)
      case Err(e) => Outcome(db, Err(e))
      case Ok(products) =>
        ReservedAllFound(released, input.lines);
        Rewritten(db, input, products, Snapshot(released, input.lines))
  }

  function Rewritten(db: Db, input: UpdateInput, products: Products, rows: seq<Item>): Outcome
    requires input.order in db.orders
  {
    var before := db.orders[input.order];
    var quote := Requote(db.promos, Gross(rows), before.promo, input.at.priced);
    var order := Priced(before, quote.promo, Gross(rows), quote.discount);
    if !OrderRowOk(order) || input.caller !in db.users then Outcome(db, Err(StatementFailed))
    else Outcome(Replaced(db, input, products, quote.promos, order, rows), Ok(order))
  }

  function Replaced(db: Db, input: UpdateInput, products: Products, promos: Promos, order: Order, rows: seq<Item>): Db {
    db.(products := products,
        promos := promos,
        orders := db.orders[input.order := order],
        items := db.items[input.order := rows],
        ops := db.ops + [Operation(input.caller, UPDATE_ORDER, input.at.started)])
  }

  // ---- Cancel ----

  function CancelOutcome(db: Db, input: CancelInput): Outcome {
    if input.order !in db.orders then Outcome(db, Err(OrderNotFound))
    else if !MayTouch(db.orders[input.order], input.caller, input.role) then Outcome(db, Err(OrderOwnershipViolation))
    else if !IsActive(db.orders[input.order]) then Outcome(db, Err(InvalidStateTransition))
    else CancelPastGuards(db, input.order)
  }

  // Cancel after the tests on the order.
  function CancelPastGuards(db: Db, o: OrderId): Outcome
    requires o in db.orders
  {
    match Release(db.products, OldLines(db, o))
    case Err(e) => Outcome(db, Err(e))
    case Ok(products) =>
      var order := db.orders[o].(status := CANCELED);
      Outcome(Withdrawn(db, o, products, order), Ok(order))
  }

  function Withdrawn(db: Db, o: OrderId, products: Products, order: Order): Db {
    db.(products := products,
        promos := if order.promo.Some? then Refunded(db.promos, order.promo.value) else db.promos,
        orders := db.orders[o := order])
  }

  // ---- Who is refused, and when ----

  ghost predicate HasOpenOrder(orders: map<OrderId, Order>, user: UserId) {
    exists o :: o in orders && orders[o].user == user &&
                (orders[o].status == CREATED || orders[o].status == PAYMENT_PENDING)
  }

  // Only the owner of an order and admins may change it.
  predicate Stranger(order: Order, caller: UserId, role: Role) {
    role != ADMIN && order.user != caller
  }

  lemma ReserveErrorKinds(products: Products, lines: seq<Line>)
    requires Reserve(products, lines).Err?
    ensures var e := Reserve(products, lines).error;
            e.ProductNotFound? || e.ProductInactive? || e.InsufficientStock? || e == StatementFailed
  {
    LineErrorKinds(products, lines);
  }

  // Create is refused for its rate exactly after a recent Create, and for an active order exactly if
  // the user has one that is CREATED or PAYMENT_PENDING.
  lemma CreateGuards(limit: int, db: Db, c: CreateInput)
    ensures var r := CreateOutcome(limit, db, c).result;
            var recent := Recent(db.ops, c.user, CREATE_ORDER, limit, c.at.checked);
            && (r == Err(OrderLimitExceeded) <==> recent)
            && (r == Err(OrderHasActive) <==> !recent && HasOpenOrder(db.orders, c.user))
            && (!recent && !HasOpenOrder(db.orders, c.user) ==> CreateOutcome(limit, db, c) == CreatePastGuards(db, c))
  {
    RateLimitedWhen(db.ops, c.user, CREATE_ORDER, limit, c.at.checked);
    assert HasActive(db.orders, c.user) <==> HasOpenOrder(db.orders, c.user);
    if Reserve(db.products, c.lines).Err? {
      ReserveErrorKinds(db.products, c.lines);
    }
  }

  // Update's tests, each in its turn.
  lemma UpdateGuards(limit: int, db: Db, u: UpdateInput)
    ensures var r := UpdateOutcome(limit, db, u).result;
            && (r == Err(OrderNotFound) <==> u.order !in db.orders)
            && (u.order in db.orders ==>
                  var order := db.orders[u.order];
                  var recent := Recent(db.ops, u.caller, UPDATE_ORDER, limit, u.at.checked);
                  && (r == Err(OrderOwnershipViolation) <==> Stranger(order, u.caller, u.role))
                  && (r == Err(InvalidStateTransition) <==>
                        !Stranger(order, u.caller, u.role) && order.status != CREATED)
                  && (r == Err(OrderLimitExceeded) <==>
                        !Stranger(order, u.caller, u.role) && order.status == CREATED && recent)
                  && (!Stranger(order, u.caller, u.role) && order.status == CREATED && !recent ==>
                        UpdateOutcome(limit, db, u) == Reordered(db, u)))
  {
    RateLimitedWhen(db.ops, u.caller, UPDATE_ORDER, limit, u.at.checked);
    if u.order in db.orders && Reordered(db, u).result.Err? {
      ReorderedErrorKinds(db, u);
    }
  }

  lemma ReorderedErrorKinds(db: Db, u: UpdateInput)
    requires u.order in db.orders && Reordered(db, u).result.Err?
    ensures var e := Reordered(db, u).result.error;
            e.ProductNotFound? || e.ProductInactive? || e.InsufficientStock? || e == StatementFailed
  {
    if Release(db.products, OldLines(db, u.order)).Ok? {
      var released := Given(db.products, OldLines(db, u.order));
      if Reserve(released, u.lines).Err? {
        ReserveErrorKinds(released, u.lines);
      }
    }
  }

  // Cancel's tests.
  lemma CancelGuards(db: Db, x: CancelInput)
    ensures var r := CancelOutcome(db, x).result;
            && (r == Err(OrderNotFound) <==> x.order !in db.orders)
            && (x.order in db.orders ==>
                  var order := db.orders[x.order];
                  var open := order.status == CREATED || order.status == PAYMENT_PENDING;
                  && (r == Err(OrderOwnershipViolation) <==> Stranger(order, x.caller, x.role))
                  && (r == Err(InvalidStateTransition) <==> !Stranger(order, x.caller, x.role) && !open)
                  && (!Stranger(order, x.caller, x.role) && open ==>
                        CancelOutcome(db, x) == CancelPastGuards(db, x.order)))
  {
  }

  // ---- Product edits and archiving ----

  datatype ProductEdit = ProductEdit(product: ProductId, caller: UserId, role: Role, price: int, stock: int,
      status: ProductStatus)

  // Only a SELLER is checked for ownership; the routes admit no USER.
  predicate MayEdit(product: Product, caller: UserId, role: Role) {
    role == SELLER ==> product.seller == Some(caller)
  }

  datatype ProductOutcome = ProductOutcome(db: Db, result: Result<Product>)

  function EditOutcome(db: Db, edit: ProductEdit): ProductOutcome {
    if edit.product !in db.products then ProductOutcome(db, Err(ProductNotFound(edit.product)))
    else if !MayEdit(db.products[edit.product], edit.caller, edit.role) then ProductOutcome(db, Err(AccessDenied))
    else
      var row := db.products[edit.product].(price := edit.price, stock := edit.stock, status := edit.status);
      if !ProductRowOk(row) then ProductOutcome(db, Err(StatementFailed))
      else ProductOutcome(db.(products := db.products[edit.product := row]), Ok(row))
  }

  function ArchiveOutcome(db: Db, p: ProductId, caller: UserId, role: Role): ProductOutcome {
    if p !in db.products then ProductOutcome(db, Err(ProductNotFound(p)))
    else if !MayEdit(db.products[p], caller, role) then ProductOutcome(db, Err(AccessDenied))
    else
      var row := db.products[p].(status := ARCHIVED);
      ProductOutcome(db.(products := db.products[p := row]), Ok(row))
  }
}
