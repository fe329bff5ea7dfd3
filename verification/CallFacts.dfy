/**
 What the calls accept and what they leave in the tables, field by field: the conditions under which
 a call succeeds, as if-and-only-ifs over the rows, and the rows it then writes.
 */
module CallFacts {
  import opened Money
  import opened Schema
  import opened Reservation
  import opened OrderRules
  import opened Balance
  import opened Invariant
  import opened Runs
  import opened SupplyRuns
  import Sums

  // ---- What is stored for a basket ----

  // Total and discount of an order over `gross` with or without a promo.
  function AmountsFor(promos: Promos, promo: Option<PromoId>, gross: int): (int, int)
    requires promo.Some? ==> promo.value in promos
  {
    match promo
    case None => (gross, 0)
    case Some(r) =>
      (StoredNet(gross, promos[r].kind, promos[r].amount), StoredDiscount(gross, promos[r].kind, promos[r].amount))
  }

  predicate Storable(amounts: (int, int)) {
    0 <= amounts.0 < 1_000_000_000_000 && 0 <= amounts.1 < 1_000_000_000_000
  }

  // One row per line: as asked for, at the price of the product now.
  ghost predicate RowsFor(products: Products, lines: seq<Line>, rows: seq<Item>) {
    && |rows| == |lines|
    && forall i :: 0 <= i < |lines| ==>
         && lines[i].product in products
         && rows[i].product == lines[i].product && rows[i].quantity == lines[i].quantity
         && rows[i].price == products[lines[i].product].price
  }

  // What the basket comes to, counted by products.
  ghost function BasketTotal(products: Products, lines: seq<Line>): int {
    Sums.Sum(products.Keys, (p: ProductId) => if p in products then products[p].price * Demand(lines, p) else 0)
  }

  lemma SnapshotTotal(products: Products, lines: seq<Line>)
    requires AllFound(products, lines)
    ensures Gross(Snapshot(products, lines)) == BasketTotal(products, lines)
    ensures RowsFor(products, lines, Snapshot(products, lines))
  {
    GrossIsSumOfCosts(products, lines);
    Sums.SumSame(products.Keys, Cost(products, lines),
        (p: ProductId) => if p in products then products[p].price * Demand(lines, p) else 0);
  }

  lemma PricedAmounts(order: Order, promos: Promos, promo: Option<PromoId>, gross: int)
    requires promo.Some? ==> promo.value in promos
    ensures var discount :=
              if promo.None? then 0 else CalcDiscount(gross, promos[promo.value].kind, promos[promo.value].amount);
            var amounts := AmountsFor(promos, promo, gross);
            Priced(order, promo, gross, discount) == Order(order.user, order.status, promo, amounts.0, amounts.1)
  {
  }

  // ---- Create ----

  // The promo of a new order.
  function CodePromo(codes: map<string, PromoId>, code: Option<string>): Option<PromoId> {
    if code.Some? && code.value in codes then Some(codes[code.value]) else None
  }

  ghost predicate CodeAccepted(db: Db, code: Option<string>, gross: int, now: Time) {
    code.Some? ==>
      && code.value in db.codes && db.codes[code.value] in db.promos
      && var promo := db.promos[db.codes[code.value]];
         && promo.active && promo.uses < promo.maxUses
         && promo.validFrom <= now && now <= promo.validUntil && gross >= promo.minAmount
  }

  // The condition for Create, on the rows.
  ghost predicate CreateFits(db: Db, c: CreateInput) {
    && (forall i :: 0 <= i < |c.lines| ==>
          var p := c.lines[i].product;
          p in db.products && db.products[p].status == ACTIVE && Demand(c.lines, p) <= db.products[p].stock)
    && CodeAccepted(db, c.code, BasketTotal(db.products, c.lines), c.at.priced)
    && (CodePromo(db.codes, c.code).Some? ==> CodePromo(db.codes, c.code).value in db.promos)
    && Storable(AmountsFor(db.promos, CodePromo(db.codes, c.code), BasketTotal(db.products, c.lines)))
    && c.id !in db.orders && c.user in db.users
  }

  lemma CodeQuote(db: Db, c: CreateInput, gross: int)
    requires SchemaOk(db)
    ensures var quote := QuoteNew(db.promos, db.codes, gross, c.code, c.at.priced);
            && (quote.Ok? <==> CodeAccepted(db, c.code, gross, c.at.priced))
            && (quote.Ok? ==>
                  && quote.value.promo == CodePromo(db.codes, c.code)
                  && (quote.value.promo.Some? ==> quote.value.promo.value in db.promos)
                  && NewOrder(c.user, quote.value, gross) ==
                     var amounts := AmountsFor(db.promos, CodePromo(db.codes, c.code), gross);
                     Order(c.user, CREATED, CodePromo(db.codes, c.code), amounts.0, amounts.1))
  {
    if c.code.Some? {
      QuoteNewWhen(db.promos, db.codes, gross, c.code.value, c.at.priced);
    } else {
      QuoteNewWithout(db.promos, db.codes, gross, c.at.priced);
    }
    if CodeAccepted(db, c.code, gross, c.at.priced) {
      PricedAmounts(Order(c.user, CREATED, None, 0, 0), db.promos, CodePromo(db.codes, c.code), gross);
    }
  }

  lemma PlacedWhen(db: Db, c: CreateInput, products: Products, rows: seq<Item>)
    requires SchemaOk(db)
    ensures Placed(db, c, products, rows).result.Ok? <==>
            && CodeAccepted(db, c.code, Gross(rows), c.at.priced)
            && (CodePromo(db.codes, c.code).Some? ==> CodePromo(db.codes, c.code).value in db.promos)
            && Storable(AmountsFor(db.promos, CodePromo(db.codes, c.code), Gross(rows)))
            && c.id !in db.orders && c.user in db.users
  {
    CodeQuote(db, c, Gross(rows));
  }

  lemma PastGuardsWhen(db: Db, c: CreateInput)
    requires SchemaOk(db) && Positive(c.lines)
    ensures CreatePastGuards(db, c).result.Ok? <==> CreateFits(db, c)
  {
    ReserveAccepts(db.products, c.lines);
    if Reserve(db.products, c.lines).Ok? {
      ReservedAllFound(db.products, c.lines);
      SnapshotTotal(db.products, c.lines);
      PlacedWhen(db, c, Taken(db.products, c.lines), Snapshot(db.products, c.lines));
    }
  }

  // Exactly when Create succeeds.
  lemma CreateSucceedsWhen(limit: int, db: Db, c: CreateInput)
    requires SchemaOk(db) && Positive(c.lines)
    ensures CreateOutcome(limit, db, c).result.Ok? <==>
            && !Recent(db.ops, c.user, CREATE_ORDER, limit, c.at.checked)
            && !HasOpenOrder(db.orders, c.user)
            && CreateFits(db, c)
  {
    CreateGuards(limit, db, c);
    PastGuardsWhen(db, c);
  }

  // The errors past the guards, in their order: the first line not on sale, lines too large, the code.
  lemma CreateLineErrors(limit: int, db: Db, c: CreateInput, i: nat)
    requires !Recent(db.ops, c.user, CREATE_ORDER, limit, c.at.checked) && !HasOpenOrder(db.orders, c.user)
    requires i < |c.lines|
    requires forall j :: 0 <= j < i ==>
               c.lines[j].product in db.products && db.products[c.lines[j].product].status == ACTIVE
    ensures var p, r := c.lines[i].product, CreateOutcome(limit, db, c).result;
            && (p !in db.products ==> r == Err(ProductNotFound(p)))
            && (p in db.products && db.products[p].status != ACTIVE ==> r == Err(ProductInactive(p)))
  {
    CreateGuards(limit, db, c);
    FirstLineErrorIs(db.products, c.lines, i);
  }

  lemma CreateStockErrors(limit: int, db: Db, c: CreateInput)
    requires !Recent(db.ops, c.user, CREATE_ORDER, limit, c.at.checked) && !HasOpenOrder(db.orders, c.user)
    requires Positive(c.lines)
    requires forall i :: 0 <= i < |c.lines| ==>
               c.lines[i].product in db.products && db.products[c.lines[i].product].status == ACTIVE
    ensures var r := CreateOutcome(limit, db, c).result;
            var alone := exists i :: 0 <= i < |c.lines| && db.products[c.lines[i].product].stock < c.lines[i].quantity;
            var summed := exists i ::
              0 <= i < |c.lines| && db.products[c.lines[i].product].stock < Demand(c.lines, c.lines[i].product);
            && (alone ==> r == Err(InsufficientStock(Shortages(db.products, c.lines))))
            && (!alone && summed ==> r == Err(StatementFailed))
  {
    CreateGuards(limit, db, c);
    ReserveFailsWith(db.products, c.lines);
  }

  lemma CreateCodeErrors(limit: int, db: Db, c: CreateInput)
    requires SchemaOk(db) && Positive(c.lines) && c.code.Some?
    requires !Recent(db.ops, c.user, CREATE_ORDER, limit, c.at.checked) && !HasOpenOrder(db.orders, c.user)
    requires Reservable(db.products, c.lines)
    ensures var r, now := CreateOutcome(limit, db, c).result, c.at.priced;
            if c.code.value !in db.codes then r == Err(PromoCodeInvalid)
            else
              var promo := db.promos[db.codes[c.code.value]];
              var usable :=
                promo.active && promo.uses < promo.maxUses && promo.validFrom <= now && now <= promo.validUntil;
              && (r == Err(PromoCodeInvalid) <==> !usable)
              && (r == Err(PromoCodeMinAmount) <==> usable && BasketTotal(db.products, c.lines) < promo.minAmount)
  {
    CreateGuards(limit, db, c);
    ReserveAccepts(db.products, c.lines);
    SnapshotTotal(db.products, c.lines);
    QuoteNewWhen(db.promos, db.codes, BasketTotal(db.products, c.lines), c.code.value, c.at.priced);
  }

  // The promo table with the use of one promo taken.
  ghost predicate OneUseTaken(promos: Promos, next: Promos, promo: Option<PromoId>) {
    && next.Keys == promos.Keys
    && forall r :: r in promos ==>
         next[r] == promos[r].(uses := if promo == Some(r) then promos[r].uses + 1 else promos[r].uses)
  }

  // What a successful Create leaves behind; everything else is as before.
  lemma CreateStores(limit: int, db: Db, c: CreateInput)
    requires SchemaOk(db) && Positive(c.lines) && CreateOutcome(limit, db, c).result.Ok?
    ensures var next := CreateOutcome(limit, db, c).db;
            var promo := CodePromo(db.codes, c.code);
            && (promo.Some? ==> promo.value in db.promos)
            && var amounts := AmountsFor(db.promos, promo, BasketTotal(db.products, c.lines));
               var order := Order(c.user, CREATED, promo, amounts.0, amounts.1);
            && CreateOutcome(limit, db, c).result == Ok(order)
            && next.orders == db.orders[c.id := order]
            && c.id in next.items && RowsFor(db.products, c.lines, next.items[c.id])
            && next.items == db.items[c.id := next.items[c.id]]
            && next.ops == db.ops + [Operation(c.user, CREATE_ORDER, c.at.started)]
            && next.products.Keys == db.products.Keys
            && (forall p :: p in db.products ==>
                  next.products[p] == db.products[p].(stock := db.products[p].stock - Demand(c.lines, p)))
            && OneUseTaken(db.promos, next.promos, promo)
            && next.users == db.users && next.codes == db.codes
  {
    CreateGuards(limit, db, c);
    CreateParts(db, c);
    SnapshotTotal(db.products, c.lines);
    CodeQuote(db, c, BasketTotal(db.products, c.lines));
    NewPromoTable(db, c, BasketTotal(db.products, c.lines));
  }

  lemma NewPromoTable(db: Db, c: CreateInput, gross: int)
    requires SchemaOk(db) && QuoteNew(db.promos, db.codes, gross, c.code, c.at.priced).Ok?
    ensures var quote := QuoteNew(db.promos, db.codes, gross, c.code, c.at.priced).value;
            OneUseTaken(db.promos, quote.promos, CodePromo(db.codes, c.code))
  {
  }

  // ---- Update ----

  // The promo an updated order keeps.
  function KeptPromo(promos: Promos, current: Option<PromoId>, gross: int, now: Time): Option<PromoId> {
    if current.Some? && current.value in promos &&
       promos[current.value].active && promos[current.value].uses <= promos[current.value].maxUses &&
       promos[current.value].validFrom <= now && now <= promos[current.value].validUntil &&
       gross >= promos[current.value].minAmount
    then current else None
  }

  // The condition for Update past its tests on the order, on the rows.
  ghost predicate UpdateFits(db: Db, u: UpdateInput)
    requires u.order in db.orders
  {
    var total := BasketTotal(db.products, u.lines);
    var promo := KeptPromo(db.promos, db.orders[u.order].promo, total, u.at.priced);
    && (forall p :: p in db.products ==> db.products[p].stock + Load(db, u.order, p) <= 2_147_483_647)
    && (forall i :: 0 <= i < |u.lines| ==>
          var p := u.lines[i].product;
          && p in db.products && db.products[p].status == ACTIVE
          && Demand(u.lines, p) <= db.products[p].stock + Load(db, u.order, p))
    && Storable(AmountsFor(db.promos, promo, total)) && u.caller in db.users
  }

  // Giving stock back does not touch prices.
  lemma GivenKeepsPrices(products: Products, held: seq<Line>, lines: seq<Line>)
    requires AllFound(products, lines)
    ensures Snapshot(Given(products, held), lines) == Snapshot(products, lines)
  {
  }

  // The counters after keeping or dropping a promo.
  ghost predicate UseGivenBack(promos: Promos, next: Promos, current: Option<PromoId>, kept: Option<PromoId>) {
    && next.Keys == promos.Keys
    && forall r :: r in promos ==>
         var back := current == Some(r) && kept != current && promos[r].uses > 0;
         next[r] == promos[r].(uses := if back then promos[r].uses - 1 else promos[r].uses)
  }

  lemma RequoteStores(promos: Promos, order: Order, gross: int, now: Time)
    requires order.promo.Some? ==> order.promo.value in promos
    ensures var quote := Requote(promos, gross, order.promo, now);
            var kept := KeptPromo(promos, order.promo, gross, now);
            var amounts := AmountsFor(promos, kept, gross);
            && quote.promo == kept && UseGivenBack(promos, quote.promos, order.promo, kept)
            && Priced(order, quote.promo, gross, quote.discount)
               == Order(order.user, order.status, kept, amounts.0, amounts.1)
  {
    if order.promo.Some? {
      RequoteWhen(promos, gross, order.promo.value, now);
    }
    PricedAmounts(order, promos, KeptPromo(promos, order.promo, gross, now), gross);
  }

  lemma RewrittenWhen(db: Db, u: UpdateInput, products: Products, rows: seq<Item>)
    requires SchemaOk(db) && u.order in db.orders
    ensures Rewritten(db, u, products, rows).result.Ok? <==>
            var promo := KeptPromo(db.promos, db.orders[u.order].promo, Gross(rows), u.at.priced);
            Storable(AmountsFor(db.promos, promo, Gross(rows))) && u.caller in db.users
  {
    RequoteStores(db.promos, db.orders[u.order], Gross(rows), u.at.priced);
  }

  lemma ReorderedWhen(db: Db, u: UpdateInput)
    requires SchemaOk(db) && Positive(u.lines) && Live(db, u.order)
    ensures Reordered(db, u).result.Ok? <==> UpdateFits(db, u)
  {
    UpdateReservesWhen(db, u);
    var released := Release(db.products, OldLines(db, u.order));
    if released.Ok? && Reserve(released.value, u.lines).Ok? {
      ReorderedPastStock(db, u, released.value);
    }
  }

  lemma ReorderedPastStock(db: Db, u: UpdateInput, released: Products)
    requires SchemaOk(db) && u.order in db.orders
    requires Release(db.products, OldLines(db, u.order)) == Ok(released) && Reserve(released, u.lines).Ok?
    ensures var total := BasketTotal(db.products, u.lines);
            var promo := KeptPromo(db.promos, db.orders[u.order].promo, total, u.at.priced);
            Reordered(db, u).result.Ok? <==> Storable(AmountsFor(db.promos, promo, total)) && u.caller in db.users
  {
    ReservedAllFound(released, u.lines);
    GivenKeepsPrices(db.products, OldLines(db, u.order), u.lines);
    SnapshotTotal(db.products, u.lines);
    RewrittenWhen(db, u, Taken(released, u.lines), Snapshot(db.products, u.lines));
  }

  // Exactly when Update succeeds.
  lemma UpdateSucceedsWhen(limit: int, db: Db, u: UpdateInput)
    requires SchemaOk(db) && Positive(u.lines)
    ensures UpdateOutcome(limit, db, u).result.Ok? <==>
            && u.order in db.orders
            && (u.role == ADMIN || db.orders[u.order].user == u.caller)
            && db.orders[u.order].status == CREATED
            && !Recent(db.ops, u.caller, UPDATE_ORDER, limit, u.at.checked)
            && UpdateFits(db, u)
  {
    UpdateGuards(limit, db, u);
    if u.order in db.orders && db.orders[u.order].status == CREATED {
      ReorderedWhen(db, u);
    }
  }

  // What a successful Update leaves behind; everything else is as before.
  lemma UpdateStores(limit: int, db: Db, u: UpdateInput)
    requires SchemaOk(db) && Positive(u.lines) && UpdateOutcome(limit, db, u).result.Ok?
    ensures u.order in db.orders
    ensures var next := UpdateOutcome(limit, db, u).db;
            var before := db.orders[u.order];
            var total := BasketTotal(db.products, u.lines);
            var promo := KeptPromo(db.promos, before.promo, total, u.at.priced);
            var amounts := AmountsFor(db.promos, promo, total);
            var order := Order(before.user, CREATED, promo, amounts.0, amounts.1);
            && UpdateOutcome(limit, db, u).result == Ok(order)
            && next.orders == db.orders[u.order := order]
            && u.order in next.items && RowsFor(db.products, u.lines, next.items[u.order])
            && next.items == db.items[u.order := next.items[u.order]]
            && next.ops == db.ops + [Operation(u.caller, UPDATE_ORDER, u.at.started)]
            && UseGivenBack(db.promos, next.promos, before.promo, promo)
            && next.users == db.users && next.codes == db.codes
  {
    UpdateGuards(limit, db, u);
    var held := OldLines(db, u.order);
    UpdateProducts(db, u);
    GivenKeepsPrices(db.products, held, u.lines);
    SnapshotTotal(db.products, u.lines);
    RequoteStores(db.promos, db.orders[u.order], BasketTotal(db.products, u.lines), u.at.priced);
  }

  lemma UpdateMovesStock(limit: int, db: Db, u: UpdateInput)
    requires SchemaOk(db) && Positive(u.lines) && UpdateOutcome(limit, db, u).result.Ok?
    ensures var next := UpdateOutcome(limit, db, u).db;
            && next.products.Keys == db.products.Keys
            && forall p :: p in db.products ==>
                 next.products[p] ==
                 db.products[p].(stock := db.products[p].stock + Load(db, u.order, p) - Demand(u.lines, p))
  {
    UpdateGuards(limit, db, u);
    UpdateProducts(db, u);
  }

  // Its errors past the tests on the order.
  lemma UpdateLineErrors(limit: int, db: Db, u: UpdateInput, i: nat)
    requires SchemaOk(db) && Live(db, u.order) && db.orders[u.order].status == CREATED
    requires u.role == ADMIN || db.orders[u.order].user == u.caller
    requires !Recent(db.ops, u.caller, UPDATE_ORDER, limit, u.at.checked)
    requires forall p :: p in db.products ==> db.products[p].stock + Load(db, u.order, p) <= 2_147_483_647
    requires i < |u.lines|
    requires forall j :: 0 <= j < i ==>
               u.lines[j].product in db.products && db.products[u.lines[j].product].status == ACTIVE
    ensures var p, r := u.lines[i].product, UpdateOutcome(limit, db, u).result;
            && (p !in db.products ==> r == Err(ProductNotFound(p)))
            && (p in db.products && db.products[p].status != ACTIVE ==> r == Err(ProductInactive(p)))
  {
    UpdateGuards(limit, db, u);
    OldLinesPositive(db, u.order);
    FirstLineErrorIs(Given(db.products, OldLines(db, u.order)), u.lines, i);
  }

  lemma UpdateStockErrors(limit: int, db: Db, u: UpdateInput)
    requires SchemaOk(db) && Positive(u.lines) && Live(db, u.order) && db.orders[u.order].status == CREATED
    requires u.role == ADMIN || db.orders[u.order].user == u.caller
    requires !Recent(db.ops, u.caller, UPDATE_ORDER, limit, u.at.checked)
    requires forall p :: p in db.products ==> db.products[p].stock + Load(db, u.order, p) <= 2_147_483_647
    requires forall i :: 0 <= i < |u.lines| ==>
               u.lines[i].product in db.products && db.products[u.lines[i].product].status == ACTIVE
    ensures var r := UpdateOutcome(limit, db, u).result;
            var released := Given(db.products, OldLines(db, u.order));
            var alone := exists i :: 0 <= i < |u.lines| && released[u.lines[i].product].stock < u.lines[i].quantity;
            var summed := exists i ::
              0 <= i < |u.lines| && released[u.lines[i].product].stock < Demand(u.lines, u.lines[i].product);
            && (alone ==> r == Err(InsufficientStock(Shortages(released, u.lines))))
            && (!alone && summed ==> r == Err(StatementFailed))
  {
    UpdateGuards(limit, db, u);
    OldLinesPositive(db, u.order);
    ReserveFailsWith(Given(db.products, OldLines(db, u.order)), u.lines);
  }

  // ---- Cancel ----

  // What a successful Cancel leaves behind; rows, log and all other orders are as before.
  lemma CancelStores(db: Db, x: CancelInput)
    requires SchemaOk(db) && CancelOutcome(db, x).result.Ok?
    ensures x.order in db.orders
    ensures var next := CancelOutcome(db, x).db;
            var before := db.orders[x.order];
            var order := Order(before.user, CANCELED, before.promo, before.total, before.discount);
            && CancelOutcome(db, x).result == Ok(order)
            && next.orders == db.orders[x.order := order]
            && next.items == db.items && next.ops == db.ops && next.users == db.users && next.codes == db.codes
            && next.products.Keys == db.products.Keys
            && (forall p :: p in db.products ==>
                  next.products[p] == db.products[p].(stock := db.products[p].stock + Load(db, x.order, p)))
            && UseGivenBack(db.promos, next.promos, before.promo, None)
  {
    CancelParts(db, x);
  }

  // ---- Products ----

  // Exactly when a product edit succeeds, and its error otherwise.
  lemma EditSucceedsWhen(db: Db, e: ProductEdit)
    ensures var r := EditOutcome(db, e).result;
            if e.product !in db.products then r == Err(ProductNotFound(e.product))
            else
              var denied := e.role == SELLER && db.products[e.product].seller != Some(e.caller);
              var fits := 0 < e.price < 1_000_000_000_000 && 0 <= e.stock <= 2_147_483_647;
              && (r == Err(AccessDenied) <==> denied)
              && (r == Err(StatementFailed) <==> !denied && !fits)
              && (r.Ok? <==> !denied && fits)
  {
  }

  // It takes effect on price, stock and status of that product, and on nothing else.
  lemma EditStores(db: Db, e: ProductEdit)
    requires EditOutcome(db, e).result.Ok?
    ensures var next := EditOutcome(db, e).db;
            && e.product in db.products && e.product in next.products
            && EditOutcome(db, e).result == Ok(next.products[e.product])
            && next.products[e.product].price == e.price && next.products[e.product].stock == e.stock
            && next.products[e.product].status == e.status
            && next.products[e.product].seller == db.products[e.product].seller
            && next.products.Keys == db.products.Keys
            && (forall p :: p in db.products && p != e.product ==> next.products[p] == db.products[p])
            && next.promos == db.promos && next.codes == db.codes && next.users == db.users
            && next.orders == db.orders && next.items == db.items && next.ops == db.ops
  {
  }

  // A failed edit or archiving leaves everything as it was.
  lemma FailedEditChangesNothing(db: Db, e: ProductEdit, p: ProductId, caller: UserId, role: Role)
    ensures EditOutcome(db, e).result.Err? ==> EditOutcome(db, e).db == db
    ensures ArchiveOutcome(db, p, caller, role).result.Err? ==> ArchiveOutcome(db, p, caller, role).db == db
  {
  }

  lemma ArchiveSucceedsWhen(db: Db, p: ProductId, caller: UserId, role: Role)
    ensures var r := ArchiveOutcome(db, p, caller, role).result;
            if p !in db.products then r == Err(ProductNotFound(p))
            else
              var denied := role == SELLER && db.products[p].seller != Some(caller);
              && (r == Err(AccessDenied) <==> denied)
              && (r.Ok? <==> !denied)
    ensures ArchiveOutcome(db, p, caller, role).result.Ok? ==>
              var row := db.products[p];
              var archived := Product(row.price, row.stock, ARCHIVED, row.seller);
              && ArchiveOutcome(db, p, caller, role).result == Ok(archived)
              && ArchiveOutcome(db, p, caller, role).db == db.(products := db.products[p := archived])
  {
  }

  // Orders placed after an edit are sold at the new price, and fail if the edit took it off sale.
  lemma CreateAfterEdit(limit: int, db: Db, e: ProductEdit, c: CreateInput, i: nat)
    requires SchemaOk(db) && Positive(c.lines) && EditOutcome(db, e).result.Ok?
    requires i < |c.lines| && c.lines[i].product == e.product
    ensures var edited := EditOutcome(db, e).db;
            CreateOutcome(limit, edited, c).result.Ok? ==>
              && e.status == ACTIVE && Demand(c.lines, e.product) <= e.stock
              && var rows := CreateOutcome(limit, edited, c).db.items;
              && c.id in rows && i < |rows[c.id]| && rows[c.id][i].price == e.price
  {
    var edited := EditOutcome(db, e).db;
    EditedSchema(db, e);
    EditStores(db, e);
    if CreateOutcome(limit, edited, c).result.Ok? {
      CreateSucceedsWhen(limit, edited, c);
      CreateStores(limit, edited, c);
    }
  }

  // An archived product can be neither ordered nor kept in an updated order.
  lemma ArchivedIsNotSold(limit: int, db: Db, c: CreateInput, u: UpdateInput, p: ProductId)
    requires SchemaOk(db) && Positive(c.lines) && Positive(u.lines)
    requires p in db.products && db.products[p].status == ARCHIVED
    ensures CreateOutcome(limit, db, c).result.Ok? ==> forall i :: 0 <= i < |c.lines| ==> c.lines[i].product != p
    ensures UpdateOutcome(limit, db, u).result.Ok? ==> forall i :: 0 <= i < |u.lines| ==> u.lines[i].product != p
  {
    CreateSucceedsWhen(limit, db, c);
    UpdateSucceedsWhen(limit, db, u);
  }

  // ---- New products and promos ----

  lemma AddedProduct(limit: int, db: Db, p: ProductId, price: int, stock: int, seller: UserId)
    ensures var next := Apply(limit, db, AddProduct(p, price, stock, seller));
            if p !in db.products && 0 < price < 1_000_000_000_000 && 0 <= stock <= 2_147_483_647
            then next == db.(products := db.products[p := Product(price, stock, ACTIVE, Some(seller))])
            else next == db
  {
  }

  // A new promo starts active and unused, under a code nobody else has.
  lemma AddedPromo(limit: int, db: Db, r: PromoId, terms: Promo)
    ensures var next := Apply(limit, db, AddPromo(r, terms));
            var row := Promo(terms.code, terms.kind, terms.amount, terms.minAmount, terms.maxUses, 0,
                             terms.validFrom, terms.validUntil, true);
            if r !in db.promos && terms.code !in db.codes
               && 0 < terms.amount < 1_000_000_000_000 && 0 <= terms.minAmount < 1_000_000_000_000
               && 0 < terms.maxUses <= 2_147_483_647 && terms.validUntil > terms.validFrom
            then next == db.(promos := db.promos[r := row], codes := db.codes[terms.code := r])
            else next == db
  {
  }
}
