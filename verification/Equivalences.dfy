/**
 Calls that come to the same: Update and Cancel followed by Create; baskets with the same demand.
 */
module Equivalences {
  import opened Schema
  import opened Reservation
  import opened OrderRules
  import opened Balance
  import opened Invariant

  // ---- Update is Cancel followed by Create ----

  // The promo code a new Create would have to name to get what Update keeps.
  function KeptCode(db: Db, u: UpdateInput): Option<string>
    requires u.order in db.orders
  {
    var promo := db.orders[u.order].promo;
    var released := Given(db.products, OldLines(db, u.order));
    if promo.None? || promo.value !in db.promos || Reserve(released, u.lines).Err? then None
    else
      ReservedAllFound(released, u.lines);
      if StillApplies(db.promos[promo.value], Gross(Snapshot(released, u.lines)), u.at.priced)
      then Some(db.promos[promo.value].code) else None
  }

  // The Create that rewrites order u.order as a new order.
  function AsCreate(db: Db, u: UpdateInput, newId: OrderId): CreateInput
    requires u.order in db.orders
  {
    CreateInput(db.orders[u.order].user, u.lines, KeptCode(db, u), newId, u.at)
  }

  function AsCancel(u: UpdateInput): CancelInput {
    CancelInput(u.order, u.caller, u.role)
  }

  lemma OwnerIsFree(db: Db, x: CancelInput)
    requires OneActive(db.orders) && CancelOutcome(db, x).result.Ok?
    ensures !HasActive(CancelOutcome(db, x).db.orders, db.orders[x.order].user)
  {
    CancelParts(db, x);
  }

  // Refunding the promo and using it again, or dropping it, is what Requote does in one go. The
  // refund is why Create's test `uses >= max` answers to Update's `uses <= max`.
  lemma RequoteIsRefundAndQuote(promos: Promos, codes: map<string, PromoId>, gross: int, r: PromoId, now: Time)
    requires PromosOk(promos, codes) && r in promos && promos[r].uses >= 1
    ensures var code := if StillApplies(promos[r], gross, now) then Some(promos[r].code) else None;
            QuoteNew(Refunded(promos, r), codes, gross, code, now) == Ok(Requote(promos, gross, Some(r), now))
  {
    var refunded := Refunded(promos, r);
    assert PromoRowOk(promos[r]);
    if StillApplies(promos[r], gross, now) {
      assert codes[promos[r].code] == r && refunded[r].code == promos[r].code;
      assert Used(refunded, r) == promos;
    }
  }

  lemma SameQuote(db: Db, u: UpdateInput, promos: Promos, gross: int)
    requires SchemaOk(db) && PromoExact(db) && Live(db, u.order)
    requires var promo := db.orders[u.order].promo;
             promos == if promo.Some? then Refunded(db.promos, promo.value) else db.promos
    ensures var promo := db.orders[u.order].promo;
            var kept := promo.Some? && StillApplies(db.promos[promo.value], gross, u.at.priced);
            var code := if kept then Some(db.promos[promo.value].code) else None;
            QuoteNew(promos, db.codes, gross, code, u.at.priced) == Ok(Requote(db.promos, gross, promo, u.at.priced))
  {
    var promo := db.orders[u.order].promo;
    if promo.Some? {
      CarriedPromoIsCounted(db, u.order, promo.value);
      RequoteIsRefundAndQuote(db.promos, db.codes, gross, promo.value, u.at.priced);
    }
  }

  ghost predicate SameEffect(update: Outcome, o: OrderId, create: Outcome, newId: OrderId) {
    match (update.result, create.result)
    case (Err(a), Err(b)) => a == b
    case (Ok(a), Ok(b)) =>
      && a == b
      && update.db.products == create.db.products
      && update.db.promos == create.db.promos
      && ItemsOf(update.db.items, o) == ItemsOf(create.db.items, newId)
    case _ => false
  }

  lemma PlacedLikeRewritten(db: Db, canceled: Db, u: UpdateInput, c: CreateInput, products: Products, rows: seq<Item>)
    requires u.order in db.orders && db.orders[u.order].status == CREATED && db.orders[u.order].user in db.users
    requires canceled.users == db.users && u.caller in db.users
    requires c.user == db.orders[u.order].user && c.id !in canceled.orders && c.at == u.at
    requires QuoteNew(canceled.promos, canceled.codes, Gross(rows), c.code, c.at.priced)
          == Ok(Requote(db.promos, Gross(rows), db.orders[u.order].promo, u.at.priced))
    ensures SameEffect(Rewritten(db, u, products, rows), u.order, Placed(canceled, c, products, rows), c.id)
  {
    var quote := Requote(db.promos, Gross(rows), db.orders[u.order].promo, u.at.priced);
    assert NewOrder(c.user, quote, Gross(rows)) == Priced(db.orders[u.order], quote.promo, Gross(rows), quote.discount);
  }

  // In a state that keeps the invariant, Update does what Cancel followed by Create would do.
  lemma UpdateIsCancelThenCreate(limit: int, db: Db, u: UpdateInput, newId: OrderId)
    requires Inv(db) && u.order in db.orders && newId !in db.orders && u.caller in db.users
    requires MayTouch(db.orders[u.order], u.caller, u.role) && db.orders[u.order].status == CREATED
    requires !RateLimited(db.ops, u.caller, UPDATE_ORDER, limit, u.at.checked)
    ensures var canceled := CancelOutcome(db, AsCancel(u));
            if canceled.result.Err? then UpdateOutcome(limit, db, u).result == canceled.result
            else SameEffect(UpdateOutcome(limit, db, u), u.order,
                CreateUnlimited(canceled.db, AsCreate(db, u, newId)), newId)
  {
    var canceled := CancelOutcome(db, AsCancel(u));
    if canceled.result.Ok? {
      CancelParts(db, AsCancel(u));
      OwnerIsFree(db, AsCancel(u));
      UpdateAfterRelease(db, u, canceled.db, newId);
    }
  }

  lemma UpdateAfterRelease(db: Db, u: UpdateInput, canceled: Db, newId: OrderId)
    requires Inv(db) && u.order in db.orders && newId !in db.orders && u.caller in db.users
    requires db.orders[u.order].status == CREATED && FitsBack(db.products, OldLines(db, u.order))
    requires canceled == Withdrawn(db, u.order, Given(db.products, OldLines(db, u.order)),
        db.orders[u.order].(status := CANCELED))
    requires !HasActive(canceled.orders, db.orders[u.order].user)
    ensures SameEffect(Reordered(db, u), u.order, CreateUnlimited(canceled, AsCreate(db, u, newId)), newId)
  {
    var released := canceled.products;
    var c := AsCreate(db, u, newId);
    if Reserve(released, u.lines).Ok? {
      ReservedAllFound(released, u.lines);
      var rows := Snapshot(released, u.lines);
      SameQuote(db, u, canceled.promos, Gross(rows));
      PlacedLikeRewritten(db, canceled, u, c, Taken(released, u.lines), rows);
    }
  }

  // ---- The shape of a basket does not matter ----

  // Equal results up to the error kind, and equal tables up to how the item rows are cut and ordered.
  ghost predicate SameUpToRows(a: Outcome, b: Outcome, o: OrderId) {
    && (a.result.Ok? <==> b.result.Ok?)
    && (a.result.Ok? ==>
         && a.result == b.result
         && a.db.(items := map[]) == b.db.(items := map[])
         && Gross(ItemsOf(a.db.items, o)) == Gross(ItemsOf(b.db.items, o))
         && SameDemand(OldLines(a.db, o), OldLines(b.db, o)))
  }

  lemma SameReservation(products: Products, a: seq<Line>, b: seq<Line>)
    requires Positive(a) && Positive(b) && SameDemand(a, b)
    ensures Reserve(products, a).Ok? <==> Reserve(products, b).Ok?
    ensures Reserve(products, a).Ok? ==>
              && Reserve(products, a) == Reserve(products, b) && AllFound(products, a) && AllFound(products, b)
              && Gross(Snapshot(products, a)) == Gross(Snapshot(products, b))
              && SameDemand(LinesOf(Snapshot(products, a)), LinesOf(Snapshot(products, b)))
  {
    ReserveAccepts(products, a);
    ReserveAccepts(products, b);
    if Reservable(products, a) {
      SameDemandSameReservable(products, a, b);
      SameDemandSameStock(products, a, b);
      SameDemandSameGross(products, a, b);
      SnapshotKeepsLines(products, a);
      SnapshotKeepsLines(products, b);
    } else if Reservable(products, b) {
      SameDemandSameReservable(products, b, a);
    }
  }

  // Permuting a basket or splitting its lines changes neither whether Create accepts it nor what it stores.
  lemma CreateIgnoresBasketShape(limit: int, db: Db, c: CreateInput, lines: seq<Line>)
    requires Positive(c.lines) && Positive(lines) && SameDemand(c.lines, lines)
    ensures SameUpToRows(CreateOutcome(limit, db, c), CreateOutcome(limit, db, c.(lines := lines)), c.id)
  {
    SameReservation(db.products, c.lines, lines);
    if Reserve(db.products, c.lines).Ok? {
      PlacedIgnoresRows(db, c, lines, Taken(db.products, c.lines), Snapshot(db.products, c.lines),
          Snapshot(db.products, lines));
    }
  }

  lemma PlacedIgnoresRows(db: Db, c: CreateInput, lines: seq<Line>, products: Products, a: seq<Item>, b: seq<Item>)
    requires Gross(a) == Gross(b) && SameDemand(LinesOf(a), LinesOf(b))
    ensures SameUpToRows(Placed(db, c, products, a), Placed(db, c.(lines := lines), products, b), c.id)
  {
  }

  lemma UpdateIgnoresBasketShape(limit: int, db: Db, u: UpdateInput, lines: seq<Line>)
    requires Positive(u.lines) && Positive(lines) && SameDemand(u.lines, lines)
    ensures SameUpToRows(UpdateOutcome(limit, db, u), UpdateOutcome(limit, db, u.(lines := lines)), u.order)
  {
    if u.order in db.orders {
      ReorderedIgnoresBasketShape(db, u, lines);
    }
  }

  lemma ReorderedIgnoresBasketShape(db: Db, u: UpdateInput, lines: seq<Line>)
    requires Positive(u.lines) && Positive(lines) && SameDemand(u.lines, lines) && u.order in db.orders
    ensures SameUpToRows(Reordered(db, u), Reordered(db, u.(lines := lines)), u.order)
  {
    var released := Given(db.products, OldLines(db, u.order));
    SameReservation(released, u.lines, lines);
    if Reserve(released, u.lines).Ok? {
      var a, b := Snapshot(released, u.lines), Snapshot(released, lines);
      RewrittenIgnoresRows(db, u, lines, Taken(released, u.lines), a, b);
    }
  }

  lemma RewrittenIgnoresRows(db: Db, u: UpdateInput, lines: seq<Line>, products: Products, a: seq<Item>, b: seq<Item>)
    requires u.order in db.orders && Gross(a) == Gross(b) && SameDemand(LinesOf(a), LinesOf(b))
    ensures SameUpToRows(Rewritten(db, u, products, a), Rewritten(db, u.(lines := lines), products, b), u.order)
  {
  }
}
