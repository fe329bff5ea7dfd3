/**
 The exchange every order call makes: whatever one order stops holding goes back to the products
 and the promo, whatever it starts holding is taken from them, and nothing else moves.
 */
module Balance {
  import opened Schema
  import opened Reservation
  import opened OrderRules
  import opened Sums

  predicate Live(db: Db, o: OrderId) {
    o in db.orders && db.orders[o].status != CANCELED
  }

  // What order o holds of product p.
  function Load(db: Db, o: OrderId, p: ProductId): int {
    if Live(db, o) then Demand(OldLines(db, o), p) else 0
  }

  // Whether order o holds a use of promo r.
  function Carries(db: Db, o: OrderId, r: PromoId): int {
    if Live(db, o) && db.orders[o].promo == Some(r) then 1 else 0
  }

  // Units of p held by all orders that are not canceled.
  ghost function Reserved(db: Db, p: ProductId): int {
    Sum(db.orders.Keys, (o: OrderId) => Load(db, o, p))
  }

  // Orders that are not canceled and carry promo r.
  ghost function LiveUses(db: Db, r: PromoId): int {
    Sum(db.orders.Keys, (o: OrderId) => Carries(db, o, r))
  }

  ghost function Supply(db: Db, p: ProductId): int {
    (if p in db.products then db.products[p].stock else 0) + Reserved(db, p)
  }

  ghost predicate SameExceptStock(a: Product, b: Product) {
    a.price == b.price && a.status == b.status && a.seller == b.seller
  }

  ghost predicate SameExceptUses(a: Promo, b: Promo) {
    a.(uses := 0) == b.(uses := 0)
  }

  ghost predicate ProductsBalanced(db: Db, next: Db, o: OrderId) {
    && next.products.Keys == db.products.Keys
    && forall p :: p in db.products ==>
         && SameExceptStock(db.products[p], next.products[p])
         && next.products[p].stock + Load(next, o, p) == db.products[p].stock + Load(db, o, p)
  }

  ghost predicate PromosBalanced(db: Db, next: Db, o: OrderId) {
    && next.promos.Keys == db.promos.Keys && next.codes == db.codes
    && forall r :: r in db.promos ==>
         && SameExceptUses(db.promos[r], next.promos[r])
         && next.promos[r].uses - Carries(next, o, r) == db.promos[r].uses - Carries(db, o, r)
  }

  // Only the rows of order o may differ.
  ghost predicate OnlyOrder(db: Db, next: Db, o: OrderId) {
    && next.users == db.users
    && next.orders.Keys == db.orders.Keys + {o}
    && next.items.Keys == db.items.Keys + {o}
    && (forall k :: k in db.orders && k != o ==> next.orders[k] == db.orders[k])
    && (forall k :: k in db.items && k != o ==> next.items[k] == db.items[k])
  }

  ghost predicate Balanced(db: Db, next: Db, o: OrderId) {
    ProductsBalanced(db, next, o) && PromosBalanced(db, next, o) && OnlyOrder(db, next, o)
  }

  lemma OthersKeepLoads(db: Db, next: Db, o: OrderId, k: OrderId)
    requires OnlyOrder(db, next, o) && k != o
    ensures forall p :: Load(next, k, p) == Load(db, k, p)
    ensures forall r :: Carries(next, k, r) == Carries(db, k, r)
  {
  }

  lemma ReservedChange(db: Db, next: Db, o: OrderId, p: ProductId)
    requires OnlyOrder(db, next, o)
    ensures Reserved(next, p) - Reserved(db, p) == Load(next, o, p) - Load(db, o, p)
  {
    var f, g := (k: OrderId) => Load(db, k, p), (k: OrderId) => Load(next, k, p);
    forall k | k in next.orders.Keys && k != o ensures f(k) == g(k) {
      OthersKeepLoads(db, next, o, k);
    }
    SumOverMore(db.orders.Keys, o, f);
    SumChangeAt(next.orders.Keys, f, g, o);
  }

  lemma UsesChange(db: Db, next: Db, o: OrderId, r: PromoId)
    requires OnlyOrder(db, next, o)
    ensures LiveUses(next, r) - LiveUses(db, r) == Carries(next, o, r) - Carries(db, o, r)
  {
    var f, g := (k: OrderId) => Carries(db, k, r), (k: OrderId) => Carries(next, k, r);
    forall k | k in next.orders.Keys && k != o ensures f(k) == g(k) {
      OthersKeepLoads(db, next, o, k);
    }
    SumOverMore(db.orders.Keys, o, f);
    SumChangeAt(next.orders.Keys, f, g, o);
  }

  // An order that does not exist holds nothing, so it may be counted in.
  lemma SumOverMore(s: set<OrderId>, o: OrderId, f: OrderId -> int)
    requires o !in s ==> f(o) == 0
    ensures Sum(s + {o}, f) == Sum(s, f)
  {
    if o in s {
      assert s + {o} == s;
    } else {
      SumTakeOut(s + {o}, f, o);
      assert s + {o} - {o} == s;
    }
  }

  // A balanced step keeps stock plus reservations, for every product ...
  lemma BalancedKeepsSupply(db: Db, next: Db, o: OrderId, p: ProductId)
    requires Balanced(db, next, o) && p in db.products
    ensures Supply(next, p) == Supply(db, p)
  {
    ReservedChange(db, next, o, p);
  }

  // ... and the gap between a promo's counter and the live orders that carry it.
  lemma BalancedKeepsUsesGap(db: Db, next: Db, o: OrderId, r: PromoId)
    requires Balanced(db, next, o) && r in db.promos
    ensures next.promos[r].uses - LiveUses(next, r) == db.promos[r].uses - LiveUses(db, r)
  {
    UsesChange(db, next, o, r);
  }

  lemma BalancedComposes(a: Db, b: Db, c: Db, o: OrderId)
    requires Balanced(a, b, o) && Balanced(b, c, o)
    ensures Balanced(a, c, o)
  {
  }

  // Every promo counter is exactly the number of live orders that carry the promo.
  ghost predicate PromoExact(db: Db) {
    forall r :: r in db.promos ==> db.promos[r].uses == LiveUses(db, r)
  }

  lemma BalancedKeepsPromoExact(db: Db, next: Db, o: OrderId)
    requires Balanced(db, next, o) && PromoExact(db)
    ensures PromoExact(next)
  {
    forall r | r in next.promos ensures next.promos[r].uses == LiveUses(next, r) {
      BalancedKeepsUsesGap(db, next, o, r);
    }
  }

  // A live order's own use is part of the count, so giving it back finds a positive counter.
  lemma CarriedPromoIsCounted(db: Db, o: OrderId, r: PromoId)
    requires PromoExact(db) && r in db.promos && Carries(db, o, r) == 1
    ensures db.promos[r].uses >= 1
  {
    SumAtLeast(db.orders.Keys, (k: OrderId) => Carries(db, k, r), o);
  }

  // ---- The order calls are balanced ----

  lemma RefundBalances(promos: Promos, r: PromoId)
    requires r in promos && promos[r].uses >= 1
    ensures Refunded(promos, r) == promos[r := promos[r].(uses := promos[r].uses - 1)]
  {
  }

  // Whether a promo is held: 1 or 0.
  function Holding(promo: Option<PromoId>, r: PromoId): int {
    if promo == Some(r) then 1 else 0
  }

  // A quote moves the counters by exactly what the order gains or gives up.
  ghost predicate QuoteBalanced(promos: Promos, current: Option<PromoId>, quote: Quote) {
    && quote.promos.Keys == promos.Keys
    && forall r :: r in promos ==>
         && SameExceptUses(promos[r], quote.promos[r])
         && quote.promos[r].uses - Holding(quote.promo, r) == promos[r].uses - Holding(current, r)
  }

  lemma CreateIsBalanced(db: Db, input: CreateInput)
    requires SchemaOk(db) && Positive(input.lines) && CreateUnlimited(db, input).result.Ok?
    ensures Balanced(db, CreateUnlimited(db, input).db, input.id)
  {
    ReservedAllFound(db.products, input.lines);
    SnapshotKeepsLines(db.products, input.lines);
    PlacedIsBalanced(db, input, Taken(db.products, input.lines), CreatedRows(db, input));
  }

  lemma PlacedIsBalanced(db: Db, input: CreateInput, products: Products, rows: seq<Item>)
    requires SchemaOk(db) && Placed(db, input, products, rows).result.Ok?
    ensures var next := Placed(db, input, products, rows).db;
            && next.products == products && OldLines(next, input.id) == LinesOf(rows)
            && !Live(db, input.id) && Live(next, input.id)
            && PromosBalanced(db, next, input.id) && OnlyOrder(db, next, input.id)
  {
    QuoteNewIsBalanced(db.promos, db.codes, Gross(rows), input.code, input.at.priced);
    InsertedIsBalanced(db, input, products,
        QuoteNew(db.promos, db.codes, Gross(rows), input.code, input.at.priced).value, rows);
  }

  lemma QuoteNewIsBalanced(promos: Promos, codes: map<string, PromoId>, gross: int, code: Option<string>, now: Time)
    requires QuoteNew(promos, codes, gross, code, now).Ok?
    ensures QuoteBalanced(promos, None, QuoteNew(promos, codes, gross, code, now).value)
  {
  }

  lemma InsertedIsBalanced(db: Db, input: CreateInput, products: Products, quote: Quote, rows: seq<Item>)
    requires input.id !in db.orders && QuoteBalanced(db.promos, None, quote)
    requires db.items.Keys == db.orders.Keys
    ensures var next := Inserted(db, input, products, quote.promos, NewOrder(input.user, quote, Gross(rows)), rows);
            && Live(next, input.id) && OldLines(next, input.id) == LinesOf(rows)
            && PromosBalanced(db, next, input.id) && OnlyOrder(db, next, input.id)
  {
  }

  // The item rows of a successful Create.
  function CreatedRows(db: Db, input: CreateInput): seq<Item>
    requires CreateUnlimited(db, input).result.Ok?
  {
    ReservedAllFound(db.products, input.lines);
    Snapshot(db.products, input.lines)
  }

  lemma CancelIsBalanced(db: Db, input: CancelInput)
    requires SchemaOk(db) && PromoExact(db) && CancelOutcome(db, input).result.Ok?
    ensures Balanced(db, CancelOutcome(db, input).db, input.order)
  {
    var o := input.order;
    if db.orders[o].promo.Some? {
      var r := db.orders[o].promo.value;
      CarriedPromoIsCounted(db, o, r);
      RefundBalances(db.promos, r);
    }
  }

  // The products after a successful Update: old rows back, new lines taken.
  lemma UpdateProducts(db: Db, input: UpdateInput)
    requires input.order in db.orders && Reordered(db, input).result.Ok?
    ensures var next := Reordered(db, input).db;
            && FitsBack(db.products, OldLines(db, input.order))
            && var released := Given(db.products, OldLines(db, input.order));
            && Reserve(released, input.lines) == Ok(next.products)
            && next.products == Taken(released, input.lines)
            && AllFound(released, input.lines)
            && Reordered(db, input) == Rewritten(db, input, next.products, Snapshot(released, input.lines))
  {
    var released := Given(db.products, OldLines(db, input.order));
    ReservedAllFound(released, input.lines);
  }

  lemma UpdateIsBalanced(db: Db, input: UpdateInput)
    requires SchemaOk(db) && PromoExact(db)
    requires Live(db, input.order) && Reordered(db, input).result.Ok?
    ensures Balanced(db, Reordered(db, input).db, input.order)
  {
    var o := input.order;
    var next := Reordered(db, input).db;
    var released := Given(db.products, OldLines(db, o));
    UpdateProducts(db, input);
    var rows := Snapshot(released, input.lines);
    SnapshotKeepsLines(released, input.lines);
    RewrittenIsBalanced(db, input, next.products, rows);
    assert OldLines(next, o) == input.lines;
  }

  lemma RequoteIsBalanced(promos: Promos, gross: int, current: Option<PromoId>, now: Time)
    requires current.Some? ==> current.value in promos && promos[current.value].uses >= 1
    ensures QuoteBalanced(promos, current, Requote(promos, gross, current, now))
  {
  }

  lemma RewrittenIsBalanced(db: Db, input: UpdateInput, products: Products, rows: seq<Item>)
    requires SchemaOk(db) && PromoExact(db)
    requires Live(db, input.order) && Rewritten(db, input, products, rows).result.Ok?
    ensures var next := Rewritten(db, input, products, rows).db;
            && next.products == products && OldLines(next, input.order) == LinesOf(rows)
            && Live(next, input.order)
            && PromosBalanced(db, next, input.order) && OnlyOrder(db, next, input.order)
  {
    var before := db.orders[input.order];
    if before.promo.Some? {
      CarriedPromoIsCounted(db, input.order, before.promo.value);
    }
    RequoteIsBalanced(db.promos, Gross(rows), before.promo, input.at.priced);
    ReplacedIsBalanced(db, input, products, Requote(db.promos, Gross(rows), before.promo, input.at.priced), rows);
  }

  lemma ReplacedIsBalanced(db: Db, input: UpdateInput, products: Products, quote: Quote, rows: seq<Item>)
    requires Live(db, input.order) && input.order in db.items
    requires QuoteBalanced(db.promos, db.orders[input.order].promo, quote)
    ensures var order := Priced(db.orders[input.order], quote.promo, Gross(rows), quote.discount);
            var next := Replaced(db, input, products, quote.promos, order, rows);
            && Live(next, input.order) && OldLines(next, input.order) == LinesOf(rows)
            && PromosBalanced(db, next, input.order) && OnlyOrder(db, next, input.order)
  {
  }
}
