/**
 What holds of the database in every state reached by calls made one after another.
 */
module Invariant {
  import opened Money
  import opened Schema
  import opened Reservation
  import opened OrderRules
  import opened Balance

  ghost predicate UsesWithinMax(promos: Promos) {
    forall r :: r in promos ==> promos[r].uses <= promos[r].maxUses
  }

  ghost predicate OneActive(orders: map<OrderId, Order>) {
    forall a, b :: a in orders && b in orders && a != b && IsActive(orders[a]) && IsActive(orders[b]) ==>
      orders[a].user != orders[b].user
  }

  // The stored amounts are the ones its items and its promo call for.
  ghost predicate AmountsMatch(promos: Promos, order: Order, gross: int) {
    match order.promo
    case None => order.total == gross && order.discount == 0
    case Some(r) =>
      && r in promos && gross >= promos[r].minAmount
      && order.discount == StoredDiscount(gross, promos[r].kind, promos[r].amount)
      && order.total == StoredNet(gross, promos[r].kind, promos[r].amount)
  }

  ghost predicate Settled(db: Db) {
    forall o :: o in db.orders ==> AmountsMatch(db.promos, db.orders[o], Gross(ItemsOf(db.items, o)))
  }

  ghost predicate Inv(db: Db) {
    SchemaOk(db) && PromoExact(db) && UsesWithinMax(db.promos) && OneActive(db.orders) && Settled(db)
  }

  // Promo rows never lose their terms: only the counter moves.
  ghost predicate TermsKept(promos: Promos, next: Promos) {
    forall r :: r in promos ==> r in next && SameExceptUses(promos[r], next[r])
  }

  lemma AmountsKeepMatching(promos: Promos, next: Promos, order: Order, gross: int)
    requires TermsKept(promos, next) && AmountsMatch(promos, order, gross)
    ensures AmountsMatch(next, order, gross)
  {
  }

  // ---- Settled ----

  lemma PricedMatches(promos: Promos, order: Order, gross: int, promo: Option<PromoId>)
    requires promo.Some? ==> promo.value in promos && gross >= promos[promo.value].minAmount
    requires promo.None? ==> gross >= 0
    ensures var discount :=
              if promo.None? then 0 else CalcDiscount(gross, promos[promo.value].kind, promos[promo.value].amount);
            AmountsMatch(promos, Priced(order, promo, gross, discount), gross)
  {
  }

  lemma OtherOrdersStaySettled(db: Db, next: Db, o: OrderId)
    requires Settled(db) && Balanced(db, next, o)
    requires o in next.orders ==> AmountsMatch(next.promos, next.orders[o], Gross(ItemsOf(next.items, o)))
    ensures Settled(next)
  {
    forall k | k in next.orders
      ensures AmountsMatch(next.promos, next.orders[k], Gross(ItemsOf(next.items, k)))
    {
      if k != o {
        AmountsKeepMatching(db.promos, next.promos, db.orders[k], Gross(ItemsOf(db.items, k)));
      }
    }
  }

  // ---- A balanced step on one order ----

  // What the row of the changed order and the changed tables must satisfy on their own.
  ghost predicate FitsIn(next: Db, o: OrderId) {
    && ProductsOk(next.products) && PromosOk(next.promos, next.codes) && UsesWithinMax(next.promos)
    && o in next.orders && OrderRowOk(next.orders[o]) && next.orders[o].user in next.users
    && o in next.items && ItemRowsOk(next.products, next.items[o])
    && AmountsMatch(next.promos, next.orders[o], Gross(next.items[o]))
  }

  lemma BalancedKeepsSchema(db: Db, next: Db, o: OrderId)
    requires SchemaOk(db) && Balanced(db, next, o) && FitsIn(next, o)
    ensures SchemaOk(next)
  {
    forall k | k in next.orders && k != o
      ensures OrderRowOk(next.orders[k]) && next.orders[k].user in next.users
      ensures next.orders[k].promo.Some? ==> next.orders[k].promo.value in next.promos
    {
      assert next.orders[k] == db.orders[k];
    }
    forall k | k in next.items && k != o ensures ItemRowsOk(next.products, next.items[k]) {
      assert next.items[k] == db.items[k];
    }
  }

  lemma BalancedKeepsInv(db: Db, next: Db, o: OrderId)
    requires Inv(db) && Balanced(db, next, o) && FitsIn(next, o) && OneActive(next.orders)
    ensures Inv(next)
  {
    BalancedKeepsSchema(db, next, o);
    BalancedKeepsPromoExact(db, next, o);
    OtherOrdersStaySettled(db, next, o);
  }

  lemma StillOneActive(orders: map<OrderId, Order>, o: OrderId, order: Order)
    requires OneActive(orders)
    requires IsActive(order) ==>
        forall k :: k in orders && k != o && IsActive(orders[k]) ==> orders[k].user != order.user
    ensures OneActive(orders[o := order])
  {
  }

  // ---- Create ----

  lemma CreateParts(db: Db, input: CreateInput)
    requires SchemaOk(db) && Positive(input.lines) && CreateUnlimited(db, input).result.Ok?
    ensures var rows := CreatedRows(db, input);
            var next := CreateUnlimited(db, input).db;
            && AllFound(db.products, input.lines) && rows == Snapshot(db.products, input.lines)
            && Reserve(db.products, input.lines) == Ok(next.products)
                 && next.products == Taken(db.products, input.lines)
            && CreateUnlimited(db, input) == Placed(db, input, next.products, rows)
            && ItemRowsOk(db.products, rows) && Gross(rows) >= 0
  {
    ReservedAllFound(db.products, input.lines);
    GrossNonNegative(CreatedRows(db, input));
  }

  lemma PlacedParts(db: Db, input: CreateInput, products: Products, rows: seq<Item>)
    requires PromosOk(db.promos, db.codes) && Gross(rows) >= 0 && Placed(db, input, products, rows).result.Ok?
    ensures var next := Placed(db, input, products, rows).db;
            var order := Placed(db, input, products, rows).result.value;
            && input.id !in db.orders && input.user in db.users && OrderRowOk(order)
            && order.user == input.user && order.status == CREATED
            && next == Inserted(db, input, products, next.promos, order, rows)
            && PromosOk(next.promos, next.codes) && TermsKept(db.promos, next.promos)
            && next.promos.Keys == db.promos.Keys
            && (order.promo.Some? ==> order.promo.value in next.promos)
            && AmountsMatch(next.promos, order, Gross(rows))
            && (UsesWithinMax(db.promos) ==> UsesWithinMax(next.promos))
  {
    var quote := QuoteNew(db.promos, db.codes, Gross(rows), input.code, input.at.priced).value;
    PricedMatches(db.promos, Order(input.user, CREATED, None, 0, 0), Gross(rows), quote.promo);
    AmountsKeepMatching(db.promos, quote.promos, NewOrder(input.user, quote, Gross(rows)), Gross(rows));
  }

  lemma CreateFitsIn(db: Db, input: CreateInput)
    requires SchemaOk(db) && UsesWithinMax(db.promos) && Positive(input.lines) && CreateUnlimited(db, input).result.Ok?
    ensures FitsIn(CreateUnlimited(db, input).db, input.id)
  {
    CreateParts(db, input);
    PlacedParts(db, input, CreateUnlimited(db, input).db.products, CreatedRows(db, input));
    ReservedRowsOk(db.products, input.lines);
  }

  lemma CreateKeepsOneActive(db: Db, input: CreateInput)
    requires SchemaOk(db) && OneActive(db.orders) && Positive(input.lines) && CreateUnlimited(db, input).result.Ok?
    ensures OneActive(CreateUnlimited(db, input).db.orders)
  {
    CreateParts(db, input);
    PlacedParts(db, input, CreateUnlimited(db, input).db.products, CreatedRows(db, input));
    StillOneActive(db.orders, input.id, CreateUnlimited(db, input).result.value);
  }

  lemma CreateKeepsInv(db: Db, input: CreateInput)
    requires Inv(db) && Positive(input.lines) && CreateUnlimited(db, input).result.Ok?
    ensures Inv(CreateUnlimited(db, input).db)
  {
    CreateIsBalanced(db, input);
    CreateFitsIn(db, input);
    CreateKeepsOneActive(db, input);
    BalancedKeepsInv(db, CreateUnlimited(db, input).db, input.id);
  }

  // ---- Update ----

  lemma RequoteParts(promos: Promos, codes: map<string, PromoId>, gross: int, current: Option<PromoId>, now: Time)
    requires PromosOk(promos, codes) && (current.Some? ==> current.value in promos)
    ensures var quote := Requote(promos, gross, current, now);
            && PromosOk(quote.promos, codes) && TermsKept(promos, quote.promos) && quote.promos.Keys == promos.Keys
            && (quote.promo.Some? ==>
                 && quote.promo.value in promos && gross >= promos[quote.promo.value].minAmount
                 && quote.discount == CalcDiscount(gross, promos[quote.promo.value].kind,
                      promos[quote.promo.value].amount))
            && (quote.promo.None? ==> quote.discount == 0)
            && (UsesWithinMax(promos) ==> UsesWithinMax(quote.promos))
  {
  }

  lemma RewrittenParts(db: Db, input: UpdateInput, products: Products, rows: seq<Item>)
    requires PromosOk(db.promos, db.codes) && OrdersOk(db) && Gross(rows) >= 0
    requires input.order in db.orders && Rewritten(db, input, products, rows).result.Ok?
    ensures var next := Rewritten(db, input, products, rows).db;
            var order := Rewritten(db, input, products, rows).result.value;
            && OrderRowOk(order)
            && order.user == db.orders[input.order].user && order.status == db.orders[input.order].status
            && next == Replaced(db, input, products, next.promos, order, rows)
            && PromosOk(next.promos, next.codes) && next.promos.Keys == db.promos.Keys
            && AmountsMatch(next.promos, order, Gross(rows))
            && (UsesWithinMax(db.promos) ==> UsesWithinMax(next.promos))
  {
    var before := db.orders[input.order];
    var quote := Requote(db.promos, Gross(rows), before.promo, input.at.priced);
    RequoteParts(db.promos, db.codes, Gross(rows), before.promo, input.at.priced);
    PricedMatches(db.promos, before, Gross(rows), quote.promo);
    AmountsKeepMatching(db.promos, quote.promos, Priced(before, quote.promo, Gross(rows), quote.discount), Gross(rows));
  }

  lemma UpdateParts(db: Db, input: UpdateInput)
    requires SchemaOk(db) && Positive(input.lines) && input.order in db.orders && Reordered(db, input).result.Ok?
    ensures var next := Reordered(db, input).db;
            var released := Given(db.products, OldLines(db, input.order));
            && AllFound(released, input.lines)
            && var rows := Snapshot(released, input.lines);
            && Reordered(db, input) == Rewritten(db, input, next.products, rows)
            && ProductsOk(next.products) && next.products.Keys == db.products.Keys
            && ItemRowsOk(db.products, rows) && Gross(rows) >= 0
  {
    var released := Given(db.products, OldLines(db, input.order));
    UpdateProducts(db, input);
    OldLinesPositive(db, input.order);
    ReleasedRowsOk(db.products, OldLines(db, input.order));
    ReservedRowsOk(released, input.lines);
    GrossNonNegative(Snapshot(released, input.lines));
  }

  lemma UpdateKeepsStatus(db: Db, u: UpdateInput)
    requires SchemaOk(db) && Positive(u.lines) && u.order in db.orders && Reordered(db, u).result.Ok?
    ensures var next := Reordered(db, u).db;
            && u.order in next.orders
            && next.orders[u.order].user == db.orders[u.order].user
            && next.orders[u.order].status == db.orders[u.order].status
  {
    UpdateParts(db, u);
    RewrittenParts(db, u, Reordered(db, u).db.products, Snapshot(Given(db.products, OldLines(db, u.order)), u.lines));
  }

  lemma UpdateFitsIn(db: Db, input: UpdateInput)
    requires SchemaOk(db) && UsesWithinMax(db.promos) && Positive(input.lines)
    requires input.order in db.orders && Reordered(db, input).result.Ok?
    ensures FitsIn(Reordered(db, input).db, input.order)
  {
    UpdateParts(db, input);
    RewrittenParts(db, input, Reordered(db, input).db.products,
        Snapshot(Given(db.products, OldLines(db, input.order)), input.lines));
  }

  lemma UpdateKeepsOneActive(db: Db, input: UpdateInput)
    requires SchemaOk(db) && OneActive(db.orders) && Positive(input.lines)
    requires input.order in db.orders && Reordered(db, input).result.Ok?
    ensures OneActive(Reordered(db, input).db.orders)
  {
    UpdateParts(db, input);
    RewrittenParts(db, input, Reordered(db, input).db.products,
        Snapshot(Given(db.products, OldLines(db, input.order)), input.lines));
    StillOneActive(db.orders, input.order, Reordered(db, input).result.value);
  }

  lemma UpdateKeepsInv(db: Db, input: UpdateInput)
    requires Inv(db) && Positive(input.lines) && Live(db, input.order) && Reordered(db, input).result.Ok?
    ensures Inv(Reordered(db, input).db)
  {
    UpdateIsBalanced(db, input);
    UpdateFitsIn(db, input);
    UpdateKeepsOneActive(db, input);
    BalancedKeepsInv(db, Reordered(db, input).db, input.order);
  }

  // ---- Cancel ----

  lemma RefundKeepsPromosOk(promos: Promos, codes: map<string, PromoId>, r: PromoId)
    requires PromosOk(promos, codes)
    ensures PromosOk(Refunded(promos, r), codes) && TermsKept(promos, Refunded(promos, r))
    ensures UsesWithinMax(promos) ==> UsesWithinMax(Refunded(promos, r))
  {
  }

  lemma CancelParts(db: Db, input: CancelInput)
    requires CancelOutcome(db, input).result.Ok?
    ensures var o := input.order;
            var next := CancelOutcome(db, input).db;
            && o in db.orders && IsActive(db.orders[o])
            && FitsBack(db.products, OldLines(db, o)) && next.products == Given(db.products, OldLines(db, o))
            && next == Withdrawn(db, o, next.products, db.orders[o].(status := CANCELED))
            && CancelOutcome(db, input).result.value == db.orders[o].(status := CANCELED)
  {
  }

  lemma WithdrawnFitsIn(db: Db, o: OrderId, products: Products)
    requires SchemaOk(db) && UsesWithinMax(db.promos) && Settled(db) && o in db.orders
    requires ProductsOk(products) && products.Keys == db.products.Keys
    ensures FitsIn(Withdrawn(db, o, products, db.orders[o].(status := CANCELED)), o)
  {
    var order := db.orders[o];
    var next := Withdrawn(db, o, products, order.(status := CANCELED));
    if order.promo.Some? {
      RefundKeepsPromosOk(db.promos, db.codes, order.promo.value);
    }
    AmountsKeepMatching(db.promos, next.promos, order, Gross(ItemsOf(db.items, o)));
  }

  lemma CancelFitsIn(db: Db, input: CancelInput)
    requires SchemaOk(db) && UsesWithinMax(db.promos) && Settled(db) && CancelOutcome(db, input).result.Ok?
    ensures FitsIn(CancelOutcome(db, input).db, input.order)
  {
    CancelParts(db, input);
    OldLinesPositive(db, input.order);
    ReleasedRowsOk(db.products, OldLines(db, input.order));
    WithdrawnFitsIn(db, input.order, CancelOutcome(db, input).db.products);
  }

  lemma CancelKeepsInv(db: Db, input: CancelInput)
    requires Inv(db) && CancelOutcome(db, input).result.Ok?
    ensures Inv(CancelOutcome(db, input).db)
  {
    CancelIsBalanced(db, input);
    CancelFitsIn(db, input);
    StillOneActive(db.orders, input.order, CancelOutcome(db, input).result.value);
    BalancedKeepsInv(db, CancelOutcome(db, input).db, input.order);
  }
}
