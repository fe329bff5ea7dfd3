/**
 What the row locks guarantee in every interleaving, whatever the requests are about: a
 transaction's copies are the committed rows plus its own changes, the stock it has tested is still
 there when it takes it, and every commit satisfies the table constraints.
 */
module LockProofs {
  import opened Schema
  import opened Reservation
  import opened OrderRules
  import opened Balance
  import opened Runs
  import opened Interleaving

  // ---- What one transaction knows ----

  // Units of p given back so far, and taken so far.
  function Back(t: Txn, p: ProductId): int {
    if t.restored <= |t.held| then Demand(LinesOf(t.held)[..t.restored], p) else 0
  }

  function Out(t: Txn, p: ProductId): int {
    if t.taken <= |LinesOfRequest(t.req)| then Demand(LinesOfRequest(t.req)[..t.taken], p) else 0
  }

  function UsesMoved(t: Txn, r: PromoId): int {
    (if t.used == Some(r) then 1 else 0) - (if t.refunded == Some(r) then 1 else 0)
  }

  ghost predicate PhaseOk(t: Txn) {
    var lines := LinesOfRequest(t.req);
    && Positive(lines)
    && t.restored <= |t.held| && |t.entries| <= |lines| && t.taken <= |lines|
    && match t.phase
       case Reading => !t.req.CreateRequest? && Untouched(t)
       case Limiting => Untouched(t)
       case Testing => t.req.CreateRequest? && Untouched(t)
       case Fetching => !t.req.CreateRequest? && Untouched(t)
       case Restoring => !t.req.CreateRequest? && t.entries == [] && t.taken == 0 && NoPromoYet(t) && !t.short
       case Checking => !t.req.CancelRequest? && t.restored == |t.held| && t.taken == 0 && NoPromoYet(t)
       case Taking => !t.req.CancelRequest? && t.restored == |t.held| && |t.entries| == |lines| && !t.short
           && NoPromoYet(t)
       case _ => t.restored == |t.held| && |t.entries| == |lines| && t.taken == |lines| && !t.short
                 && (t.phase == Pricing ==> t.req.CreateRequest? && NoPromoYet(t))
                 && (t.phase == Using ==> t.req.CreateRequest? && t.used.None? && t.refunded.None?)
                 && (t.phase == Reviewing ==> t.req.UpdateRequest? && NoPromoYet(t))
                 && (t.phase == Refunding ==> !t.req.CreateRequest? && NoPromoYet(t))
  }

  ghost predicate NoPromoYet(t: Txn) {
    t.promo.None? && t.discount == 0 && t.used.None? && t.refunded.None?
  }

  ghost predicate Untouched(t: Txn) {
    t.held == [] && t.restored == 0 && t.entries == [] && !t.short && t.taken == 0 && NoPromoYet(t)
  }

  ghost predicate HeldKnown(db: Db, t: Txn) {
    ItemRowsOk(db.products, t.held)
  }

  // The copies of product rows: committed row, plus what was given back, less what was taken.
  ghost predicate ProductCopies(db: Db, t: Txn) {
    && (forall p :: p in t.products ==>
         && p in db.products && SameExceptStock(db.products[p], t.products[p]) && ProductRowOk(t.products[p])
         && t.products[p].stock == db.products[p].stock + Back(t, p) - Out(t, p))
    && (forall p :: p !in t.products ==> Back(t, p) == 0 && Out(t, p) == 0)
  }

  ghost predicate PromoCopies(db: Db, t: Txn) {
    && (forall r :: r in t.promos ==>
         && r in db.promos && SameExceptUses(db.promos[r], t.promos[r]) && PromoRowOk(t.promos[r])
         && t.promos[r].uses == db.promos[r].uses + UsesMoved(t, r))
    && (forall r :: r !in t.promos ==> UsesMoved(t, r) == 0)
    && (t.promo.Some? ==> t.promo.value in db.promos)
    && (t.seen.Some? && t.seen.value.promo.Some? ==> t.seen.value.promo.value in db.promos)
  }

  // Each checked line: the row read then is the copy held now, up to the transaction's own decrements.
  ghost predicate Checked(t: Txn) {
    var lines := LinesOfRequest(t.req);
    forall j :: 0 <= j < |t.entries| && j < |lines| ==>
      && lines[j].product in t.products
      && SameExceptStock(t.entries[j], t.products[lines[j].product])
      && t.entries[j].stock == t.products[lines[j].product].stock + Out(t, lines[j].product)
      && (!t.short ==> lines[j].quantity <= t.entries[j].stock)
  }

  ghost predicate OrderCopy(db: Db, t: Txn) {
    && (t.order.Some? <==> t.phase == Ready)
    && (t.order.Some? ==>
         && OrderRowOk(t.order.value) && t.order.value.user in db.users
         && (t.order.value.promo.Some? ==> t.order.value.promo.value in db.promos))
  }

  ghost predicate TxnOk(db: Db, t: Txn) {
    PhaseOk(t) && HeldKnown(db, t) && ProductCopies(db, t) && PromoCopies(db, t) && Checked(t) && OrderCopy(db, t)
  }

  // ---- Its own statements keep that ----

  lemma BeginOk(db: Db, req: Request)
    requires Positive(LinesOfRequest(req))
    ensures TxnOk(db, Begin(req))
  {
  }

  // Statements that leave the stock side of a transaction alone.
  ghost predicate SameStockSide(t: Txn, next: Txn) {
    && next.req == t.req && next.held == t.held && next.restored == t.restored && next.entries == t.entries
    && next.short == t.short && next.taken == t.taken && next.products == t.products
  }

  lemma StockSideKept(db: Db, t: Txn, next: Txn)
    requires TxnOk(db, t) && SameStockSide(t, next)
    ensures HeldKnown(db, next) && ProductCopies(db, next) && Checked(next)
  {
    forall p ensures Back(next, p) == Back(t, p) && Out(next, p) == Out(t, p) {
    }
  }

  // ... and those that leave its promo side alone.
  lemma PromoSideKept(db: Db, t: Txn, next: Txn)
    requires PromoCopies(db, t) && next.promo == t.promo && next.promos == t.promos && next.used == t.used
    requires next.refunded == t.refunded
    requires next.seen != t.seen && next.seen.Some? && next.seen.value.promo.Some? ==>
        next.seen.value.promo.value in db.promos
    ensures PromoCopies(db, next)
  {
    forall r ensures UsesMoved(next, r) == UsesMoved(t, r) {
    }
  }

  lemma ReadOk(db: Db, t: Txn)
    requires SchemaOk(db) && TxnOk(db, t) && t.phase == Reading && ReadOrder(db, t).Some?
    ensures TxnOk(db, ReadOrder(db, t).value)
  {
    ReadRest(db, t);
    StockSideKept(db, t, ReadOrder(db, t).value);
    PromoSideKept(db, t, ReadOrder(db, t).value);
  }

  lemma ReadRest(db: Db, t: Txn)
    requires OrdersOk(db) && PhaseOk(t) && OrderCopy(db, t) && t.phase == Reading && ReadOrder(db, t).Some?
    ensures var next := ReadOrder(db, t).value;
            && next == t.(seen := next.seen, phase := next.phase)
            && PhaseOk(next) && OrderCopy(db, next)
            && (next.seen.Some? && next.seen.value.promo.Some? ==> next.seen.value.promo.value in db.promos)
  {
  }

  lemma LimitOk(limit: int, db: Db, t: Txn)
    requires TxnOk(db, t) && t.phase == Limiting && CheckLimit(limit, db, t).Some?
    ensures TxnOk(db, CheckLimit(limit, db, t).value)
  {
    LimitRest(limit, db, t);
    StockSideKept(db, t, CheckLimit(limit, db, t).value);
    PromoSideKept(db, t, CheckLimit(limit, db, t).value);
  }

  lemma LimitRest(limit: int, db: Db, t: Txn)
    requires PhaseOk(t) && OrderCopy(db, t) && t.phase == Limiting && CheckLimit(limit, db, t).Some?
    ensures var next := CheckLimit(limit, db, t).value;
            next == t.(phase := next.phase) && PhaseOk(next) && OrderCopy(db, next)
  {
  }

  lemma TestOk(db: Db, t: Txn)
    requires TxnOk(db, t) && t.phase == Testing && TestActive(db, t).Some?
    ensures TxnOk(db, TestActive(db, t).value)
  {
    StockSideKept(db, t, TestActive(db, t).value);
    PromoSideKept(db, t, TestActive(db, t).value);
  }

  lemma FetchOk(db: Db, t: Txn, rows: seq<Item>)
    requires SchemaOk(db) && TxnOk(db, t) && t.phase == Fetching && FetchRows(db, t, rows).Some?
    ensures TxnOk(db, FetchRows(db, t, rows).value)
  {
    PromoSideKept(db, t, FetchRows(db, t, rows).value);
    FetchStock(db, t, rows);
  }

  lemma FetchStock(db: Db, t: Txn, rows: seq<Item>)
    requires SchemaOk(db) && PhaseOk(t) && ProductCopies(db, t) && Checked(t) && t.phase == Fetching
    requires FetchRows(db, t, rows).Some?
    ensures var next := FetchRows(db, t, rows).value;
            HeldKnown(db, next) && ProductCopies(db, next) && Checked(next)
  {
    var stored := ItemsOf(db.items, Target(t.req));
    forall i | 0 <= i < |rows| ensures ItemRowOk(rows[i]) && rows[i].product in db.products {
      assert rows[i] in multiset(rows);
      assert rows[i] in stored;
    }
  }

  lemma SeenRow(db: Db, t: Txn, p: ProductId)
    requires SchemaOk(db) && ProductCopies(db, t) && p in SeenProducts(db, t)
    ensures var row := SeenProducts(db, t)[p];
            && p in db.products && SameExceptStock(db.products[p], row) && ProductRowOk(row)
            && row.stock == db.products[p].stock + Back(t, p) - Out(t, p)
  {
  }

  lemma BackGrows(t: Txn, next: Txn)
    requires next.held == t.held && next.restored == t.restored + 1 && t.restored < |t.held|
    ensures var item := t.held[t.restored];
            forall p :: Back(next, p) == Back(t, p) + (if item.product == p then item.quantity else 0)
  {
    var item := t.held[t.restored];
    forall p ensures Back(next, p) == Back(t, p) + (if item.product == p then item.quantity else 0) {
      DemandOfPrefix(LinesOf(t.held), t.restored, p);
    }
  }

  // A statement that moves units of one product row, or only locks it.
  lemma ProductSideOk(db: Db, t: Txn, next: Txn, p: ProductId)
    requires SchemaOk(db) && ProductCopies(db, t) && p in SeenProducts(db, t)
    requires forall k :: k != p ==> Back(next, k) == Back(t, k) && Out(next, k) == Out(t, k)
    requires var row := SeenProducts(db, t)[p];
             var stock := row.stock + Back(next, p) - Back(t, p) - (Out(next, p) - Out(t, p));
             0 <= stock <= MAX_INT && next.products == t.products[p := row.(stock := stock)]
    ensures ProductCopies(db, next)
  {
    SeenRow(db, t, p);
  }

  lemma RestoreCopies(db: Db, t: Txn)
    requires SchemaOk(db) && TxnOk(db, t) && t.phase == Restoring && RestoreNext(db, t).Some?
    ensures ProductCopies(db, RestoreNext(db, t).value)
  {
    var next := RestoreNext(db, t).value;
    if t.restored < |t.held| {
      BackGrows(t, next);
      ProductSideOk(db, t, next, t.held[t.restored].product);
    }
  }

  lemma RestoreOk(db: Db, t: Txn)
    requires SchemaOk(db) && TxnOk(db, t) && t.phase == Restoring && RestoreNext(db, t).Some?
    ensures TxnOk(db, RestoreNext(db, t).value)
  {
    RestoreCopies(db, t);
    RestoreRest(db, t);
    PromoSideKept(db, t, RestoreNext(db, t).value);
  }

  lemma RestoreRest(db: Db, t: Txn)
    requires PhaseOk(t) && HeldKnown(db, t) && OrderCopy(db, t) && t.phase == Restoring && RestoreNext(db, t).Some?
    ensures var next := RestoreNext(db, t).value;
            && next == t.(restored := next.restored, products := next.products, phase := next.phase)
            && PhaseOk(next) && HeldKnown(db, next) && OrderCopy(db, next) && Checked(next)
  {
  }

  lemma CheckCopies(db: Db, t: Txn)
    requires SchemaOk(db) && TxnOk(db, t) && t.phase == Checking && CheckNext(db, t).Some?
    ensures ProductCopies(db, CheckNext(db, t).value)
  {
    if |t.entries| < |LinesOfRequest(t.req)| {
      var p := LinesOfRequest(t.req)[|t.entries|].product;
      SeenRow(db, t, p);
      ProductSideOk(db, t, CheckNext(db, t).value, p);
    }
  }

  lemma CheckOk(db: Db, t: Txn)
    requires SchemaOk(db) && TxnOk(db, t) && t.phase == Checking && CheckNext(db, t).Some?
    ensures TxnOk(db, CheckNext(db, t).value)
  {
    CheckCopies(db, t);
    CheckChecked(db, t);
    CheckRest(db, t);
    PromoSideKept(db, t, CheckNext(db, t).value);
  }

  lemma CheckRest(db: Db, t: Txn)
    requires PhaseOk(t) && HeldKnown(db, t) && OrderCopy(db, t) && t.phase == Checking && CheckNext(db, t).Some?
    ensures var next := CheckNext(db, t).value;
            && next == t.(entries := next.entries, short := next.short, products := next.products, phase := next.phase)
            && PhaseOk(next) && HeldKnown(db, next) && OrderCopy(db, next)
  {
  }

  lemma CheckChecked(db: Db, t: Txn)
    requires SchemaOk(db) && PhaseOk(t) && ProductCopies(db, t) && Checked(t) && t.phase == Checking
    requires CheckNext(db, t).Some?
    ensures Checked(CheckNext(db, t).value)
  {
    var lines := LinesOfRequest(t.req);
    var next := CheckNext(db, t).value;
    assert lines[..0] == [];
    if |t.entries| < |lines| {
      SeenRow(db, t, lines[|t.entries|].product);
    }
  }

  lemma OutGrows(t: Txn, next: Txn)
    requires next.req == t.req && next.taken == t.taken + 1 && t.taken < |LinesOfRequest(t.req)|
    ensures var line := LinesOfRequest(t.req)[t.taken];
            forall p :: Out(next, p) == Out(t, p) + (if line.product == p then line.quantity else 0)
  {
    var line := LinesOfRequest(t.req)[t.taken];
    forall p ensures Out(next, p) == Out(t, p) + (if line.product == p then line.quantity else 0) {
      DemandOfPrefix(LinesOfRequest(t.req), t.taken, p);
    }
  }

  lemma TakeCopies(db: Db, t: Txn)
    requires SchemaOk(db) && PhaseOk(t) && ProductCopies(db, t) && Checked(t) && t.phase == Taking
    requires TakeNext(db, t).Some?
    ensures ProductCopies(db, TakeNext(db, t).value)
  {
    var lines := LinesOfRequest(t.req);
    if t.taken < |lines| {
      OutGrows(t, TakeNext(db, t).value);
      ProductSideOk(db, t, TakeNext(db, t).value, lines[t.taken].product);
    }
  }

  lemma TakeChecked(db: Db, t: Txn)
    requires PhaseOk(t) && Checked(t) && t.phase == Taking && TakeNext(db, t).Some?
    ensures Checked(TakeNext(db, t).value)
  {
    var lines := LinesOfRequest(t.req);
    if t.taken < |lines| {
      assert lines[t.taken].product in t.products;
      OutGrows(t, TakeNext(db, t).value);
    }
  }

  lemma TakeOk(db: Db, t: Txn)
    requires SchemaOk(db) && TxnOk(db, t) && t.phase == Taking && TakeNext(db, t).Some?
    ensures TxnOk(db, TakeNext(db, t).value)
  {
    TakeCopies(db, t);
    TakeChecked(db, t);
    TakeRest(db, t);
    PromoSideKept(db, t, TakeNext(db, t).value);
  }

  lemma TakeRest(db: Db, t: Txn)
    requires PhaseOk(t) && HeldKnown(db, t) && OrderCopy(db, t) && t.phase == Taking && TakeNext(db, t).Some?
    ensures var next := TakeNext(db, t).value;
            && next == t.(taken := next.taken, products := next.products, phase := next.phase)
            && PhaseOk(next) && HeldKnown(db, next) && OrderCopy(db, next)
  {
  }

  lemma SeenPromoRow(db: Db, t: Txn, r: PromoId)
    requires SchemaOk(db) && PromoCopies(db, t) && r in SeenPromos(db, t)
    ensures var row := SeenPromos(db, t)[r];
            && r in db.promos && SameExceptUses(db.promos[r], row) && PromoRowOk(row)
            && row.uses == db.promos[r].uses + UsesMoved(t, r)
  {
  }

  lemma PriceShape(db: Db, t: Txn)
    requires t.phase == Pricing && PriceCode(db, t).Some?
    ensures var next := PriceCode(db, t).value;
            && t.req.CreateRequest?
            && next == t.(promo := next.promo, discount := next.discount, phase := next.phase)
            && (t.req.create.code.None? ==> next == t.(phase := Writing))
            && (t.req.create.code.Some? ==>
                 && next.phase == Using && t.req.create.code.value in db.codes
                 && next.promo == Some(db.codes[t.req.create.code.value]) && next.promo.value in SeenPromos(db, t))
  {
  }

  lemma PriceOk(db: Db, t: Txn)
    requires SchemaOk(db) && TxnOk(db, t) && t.phase == Pricing && PriceCode(db, t).Some?
    ensures TxnOk(db, PriceCode(db, t).value)
  {
    PriceShape(db, t);
    StockSideKept(db, t, PriceCode(db, t).value);
    PriceRest(db, t, PriceCode(db, t).value);
  }

  lemma PriceRest(db: Db, t: Txn, next: Txn)
    requires PhaseOk(t) && PromoCopies(db, t) && OrderCopy(db, t) && t.phase == Pricing
    requires next == t.(promo := next.promo, discount := next.discount, phase := next.phase)
    requires next == t.(phase := Writing)
        || (next.phase == Using && next.promo.Some? && next.promo.value in SeenPromos(db, t))
    ensures PhaseOk(next) && PromoCopies(db, next) && OrderCopy(db, next)
  {
    forall r ensures UsesMoved(next, r) == UsesMoved(t, r) {
    }
  }

  // A statement that touches one promo row, or none.
  lemma PromoSideOk(db: Db, t: Txn, next: Txn, r: PromoId)
    requires SchemaOk(db) && PromoCopies(db, t) && r in SeenPromos(db, t)
    requires next.seen == t.seen && (next.promo.Some? ==> next.promo.value in db.promos)
    requires forall k :: k != r ==> UsesMoved(next, k) == UsesMoved(t, k)
    requires var row := SeenPromos(db, t)[r];
             var uses := row.uses + UsesMoved(next, r) - UsesMoved(t, r);
             0 <= uses <= MAX_INT && next.promos == t.promos[r := row.(uses := uses)]
    ensures PromoCopies(db, next)
  {
    SeenPromoRow(db, t, r);
  }

  lemma UseOk(db: Db, t: Txn)
    requires SchemaOk(db) && TxnOk(db, t) && t.phase == Using && UsePromo(db, t).Some?
    ensures TxnOk(db, UsePromo(db, t).value)
  {
    var next := UsePromo(db, t).value;
    StockSideKept(db, t, next);
    UsePromoSide(db, t, next);
  }

  lemma UsePromoSide(db: Db, t: Txn, next: Txn)
    requires SchemaOk(db) && PromoCopies(db, t) && PhaseOk(t) && t.phase == Using && UsePromo(db, t) == Some(next)
    ensures PromoCopies(db, next)
  {
    SeenPromoRow(db, t, t.promo.value);
    PromoSideOk(db, t, next, t.promo.value);
  }

  lemma ReviewShape(db: Db, t: Txn)
    requires t.phase == Reviewing && ReviewPromo(db, t).Some?
    ensures var next := ReviewPromo(db, t).value;
            && t.seen.Some?
            && next == t.(promo := next.promo, discount := next.discount, promos := next.promos, phase := next.phase)
            && (t.seen.value.promo.None? ==> next == t.(phase := Writing))
            && (t.seen.value.promo.Some? ==>
                 var r := t.seen.value.promo.value;
                 if r !in SeenPromos(db, t) then next == t.(promo := Some(r), phase := Writing)
                 else
                   && next.promos == t.promos[r := SeenPromos(db, t)[r]]
                   && (next.phase == Refunding ==> next.promo == t.promo && next.discount == t.discount)
                   && (next.phase != Refunding ==> next.phase == Writing && next.promo == Some(r)))
  {
  }

  lemma ReviewOk(db: Db, t: Txn)
    requires SchemaOk(db) && TxnOk(db, t) && t.phase == Reviewing && ReviewPromo(db, t).Some?
    ensures TxnOk(db, ReviewPromo(db, t).value)
  {
    var next := ReviewPromo(db, t).value;
    ReviewShape(db, t);
    StockSideKept(db, t, next);
    ReviewRest(db, t, next);
    ReviewPromoSide(db, t, next);
  }

  lemma ReviewPromoSide(db: Db, t: Txn, next: Txn)
    requires SchemaOk(db) && PromoCopies(db, t) && t.phase == Reviewing && ReviewPromo(db, t) == Some(next)
    ensures PromoCopies(db, next)
  {
    ReviewShape(db, t);
    if t.seen.value.promo.Some? {
      PromoSideOk(db, t, next, t.seen.value.promo.value);
    } else {
      PromoSideKept(db, t, next);
    }
  }

  lemma ReviewRest(db: Db, t: Txn, next: Txn)
    requires PhaseOk(t) && OrderCopy(db, t) && t.phase == Reviewing
    requires next == t.(promo := next.promo, discount := next.discount, promos := next.promos, phase := next.phase)
    requires next.phase == Writing || (next.phase == Refunding && next.promo == t.promo && next.discount == t.discount)
    ensures PhaseOk(next) && OrderCopy(db, next)
  {
  }

  lemma RefundShape(db: Db, t: Txn)
    requires t.phase == Refunding && RefundPromo(db, t).Some?
    ensures var next := RefundPromo(db, t).value;
            && t.seen.Some?
            && next == t.(refunded := next.refunded, promos := next.promos, phase := Writing)
            && (next != t.(phase := Writing) ==>
                 && t.seen.value.promo.Some? && t.seen.value.promo.value in SeenPromos(db, t)
                 && var r := t.seen.value.promo.value;
                    var row := SeenPromos(db, t)[r];
                    row.uses > 0 && next.refunded == Some(r)
                        && next.promos == t.promos[r := row.(uses := row.uses - 1)])
  {
  }

  lemma RefundOk(db: Db, t: Txn)
    requires SchemaOk(db) && TxnOk(db, t) && t.phase == Refunding && RefundPromo(db, t).Some?
    ensures TxnOk(db, RefundPromo(db, t).value)
  {
    var next := RefundPromo(db, t).value;
    RefundShape(db, t);
    StockSideKept(db, t, next);
    RefundPromoSide(db, t, next);
  }

  lemma RefundPromoSide(db: Db, t: Txn, next: Txn)
    requires SchemaOk(db) && PromoCopies(db, t) && PhaseOk(t) && t.phase == Refunding
    requires RefundPromo(db, t) == Some(next)
    ensures PromoCopies(db, next)
  {
    RefundShape(db, t);
    if next == t.(phase := Writing) {
      PromoSideKept(db, t, next);
    } else {
      SeenPromoRow(db, t, t.seen.value.promo.value);
      PromoSideOk(db, t, next, t.seen.value.promo.value);
    }
  }

  lemma WriteOk(db: Db, t: Txn)
    requires SchemaOk(db) && TxnOk(db, t) && t.phase == Writing && WriteOrder(db, t).Some?
    ensures TxnOk(db, WriteOrder(db, t).value)
  {
    StockSideKept(db, t, WriteOrder(db, t).value);
    WriteRest(db, t);
  }

  lemma WriteRest(db: Db, t: Txn)
    requires OrdersOk(db) && PhaseOk(t) && PromoCopies(db, t) && t.phase == Writing && WriteOrder(db, t).Some?
    ensures var next := WriteOrder(db, t).value;
            PhaseOk(next) && PromoCopies(db, next) && OrderCopy(db, next)
  {
    var next := WriteOrder(db, t).value;
    WrittenPromo(db, t);
    assert next == t.(order := next.order, phase := Ready);
    forall r ensures UsesMoved(next, r) == UsesMoved(t, r) {
    }
  }

  lemma WrittenPromo(db: Db, t: Txn)
    requires OrdersOk(db) && PromoCopies(db, t) && WrittenRow(db, t).Some?
    ensures var row := WrittenRow(db, t).value;
            && (row.promo.Some? ==> row.promo.value in db.promos)
            && row.promo == (if t.req.CancelRequest? then db.orders[Target(t.req)].promo else t.promo)
  {
  }

  predicate BeforePromo(phase: Phase) {
    phase in {Reading, Limiting, Testing, Fetching, Restoring, Checking, Taking}
  }

  lemma StockStatementOk(limit: int, db: Db, t: Txn, rows: seq<Item>)
    requires SchemaOk(db) && TxnOk(db, t) && BeforePromo(t.phase) && Advance(limit, db, t, rows).Some?
    ensures TxnOk(db, Advance(limit, db, t, rows).value)
  {
    match t.phase
    case Reading => ReadOk(db, t);
    case Limiting => LimitOk(limit, db, t);
    case Testing => TestOk(db, t);
    case Fetching => FetchOk(db, t, rows);
    case Restoring => RestoreOk(db, t);
    case Checking => CheckOk(db, t);
    case Taking => TakeOk(db, t);
  }

  lemma PromoStatementOk(limit: int, db: Db, t: Txn, rows: seq<Item>)
    requires SchemaOk(db) && TxnOk(db, t) && !BeforePromo(t.phase) && Advance(limit, db, t, rows).Some?
    ensures TxnOk(db, Advance(limit, db, t, rows).value)
  {
    match t.phase
    case Pricing => PriceOk(db, t);
    case Using => UseOk(db, t);
    case Reviewing => ReviewOk(db, t);
    case Refunding => RefundOk(db, t);
    case Writing => WriteOk(db, t);
  }

  lemma StatementOk(limit: int, db: Db, t: Txn, rows: seq<Item>)
    requires SchemaOk(db) && TxnOk(db, t) && Advance(limit, db, t, rows).Some?
    ensures TxnOk(db, Advance(limit, db, t, rows).value)
  {
    if BeforePromo(t.phase) { StockStatementOk(limit, db, t, rows); } else { PromoStatementOk(limit, db, t, rows); }
  }

  // ---- What others do does not disturb it ----

  // `next` keeps every row t has locked, and loses none.
  ghost predicate RowsKept(db: Db, next: Db, t: Txn) {
    && db.users <= next.users && db.products.Keys <= next.products.Keys && db.promos.Keys <= next.promos.Keys
    && (forall p :: p in t.products && p in db.products ==> next.products[p] == db.products[p])
    && (forall r :: r in t.promos && r in db.promos ==> next.promos[r] == db.promos[r])
  }

  lemma StaysOk(db: Db, next: Db, t: Txn)
    requires TxnOk(db, t) && RowsKept(db, next, t)
    ensures TxnOk(next, t)
  {
  }

  // ---- Commits satisfy the constraints ----

  lemma PublishedItemsOk(db: Db, t: Txn)
    requires SchemaOk(db) && TxnOk(db, t) && t.phase == Ready
    ensures ItemRowsOk(db.products, RowsOf(t)) && LinesOf(RowsOf(t)) == LinesOfRequest(t.req)
  {
    var lines := LinesOfRequest(t.req);
    forall i | 0 <= i < |RowsOf(t)| ensures ItemRowOk(RowsOf(t)[i]) && RowsOf(t)[i].product in db.products {
      assert lines[i].product in t.products;
    }
  }

  lemma PublishedSchemaOk(db: Db, t: Txn)
    requires SchemaOk(db) && TxnOk(db, t) && t.phase == Ready
    requires !t.req.CreateRequest? ==> Target(t.req) in db.orders
    ensures SchemaOk(Publish(db, t))
  {
    PublishedItemsOk(db, t);
    PublishedProductsOk(db, t);
    PublishedPromosOk(db, t);
    PublishedTablesOk(db, t);
  }

  lemma PublishedProductsOk(db: Db, t: Txn)
    requires ProductsOk(db.products) && ProductCopies(db, t)
    ensures ProductsOk(db.products + t.products) && (db.products + t.products).Keys == db.products.Keys
  {
  }

  lemma PublishedPromosOk(db: Db, t: Txn)
    requires PromosOk(db.promos, db.codes) && PromoCopies(db, t)
    ensures PromosOk(db.promos + t.promos, db.codes) && (db.promos + t.promos).Keys == db.promos.Keys
  {
  }

  lemma PublishedTablesOk(db: Db, t: Txn)
    requires SchemaOk(db) && t.order.Some? && OrderCopy(db, t)
    requires !t.req.CreateRequest? ==> Target(t.req) in db.orders
    requires ItemRowsOk(db.products, RowsOf(t))
    requires (db.products + t.products).Keys == db.products.Keys && (db.promos + t.promos).Keys == db.promos.Keys
    ensures OrdersOk(Publish(db, t)) && ItemsTableOk(Publish(db, t))
  {
    var next := Publish(db, t);
    forall o | o in next.items ensures ItemRowsOk(next.products, next.items[o]) {
      if o in db.items { assert ItemRowsOk(db.products, db.items[o]); }
    }
  }

  // ---- Every state of every run ----

  ghost predicate NoSharedLock(txs: map<TxId, Txn>) {
    forall a, b, row :: a in txs && b in txs && a != b && Holds(txs[a], row) ==> !Holds(txs[b], row)
  }

  // Requests that have seen their order find it still there: order rows are never deleted.
  ghost predicate OrdersStay(net: Net) {
    forall id :: id in net.txs && Tracks(net.txs[id], Target(net.txs[id].req)) ==>
        Target(net.txs[id].req) in net.db.orders
  }

  ghost predicate LockInv(net: Net) {
    && SchemaOk(net.db) && NoSharedLock(net.txs) && OrdersStay(net)
    && forall id :: id in net.txs ==> TxnOk(net.db, net.txs[id])
  }

  // ---- One move ----

  // A statement locks nothing but the row it waits for.
  lemma LocksOnlyWanted(limit: int, db: Db, t: Txn, rows: seq<Item>, row: Row)
    requires Advance(limit, db, t, rows).Some? && PhaseOk(t) && OrderCopy(db, t)
    requires Holds(Advance(limit, db, t, rows).value, row)
    ensures Holds(t, row) || Wanted(t) == Some(row)
  {
    match row
    case ProductRow(p) => LocksProducts(limit, db, t, rows, p);
    case PromoRow(r) => LocksPromos(limit, db, t, rows, r);
    case OrderRow(o) => LocksOrder(limit, db, t, rows);
  }

  lemma LocksProducts(limit: int, db: Db, t: Txn, rows: seq<Item>, p: ProductId)
    requires Advance(limit, db, t, rows).Some? && p in Advance(limit, db, t, rows).value.products
    ensures p in t.products || Wanted(t) == Some(ProductRow(p))
  {
    if t.phase == Pricing { PriceShape(db, t); }
    if t.phase == Reviewing { ReviewShape(db, t); }
    if t.phase == Refunding { RefundShape(db, t); }
  }

  lemma LocksPromos(limit: int, db: Db, t: Txn, rows: seq<Item>, r: PromoId)
    requires Advance(limit, db, t, rows).Some? && r in Advance(limit, db, t, rows).value.promos
    ensures r in t.promos || Wanted(t) == Some(PromoRow(r))
  {
    if t.phase == Pricing { PriceShape(db, t); }
    if t.phase == Reviewing { ReviewShape(db, t); }
    if t.phase == Refunding { RefundShape(db, t); }
  }

  lemma LocksOrder(limit: int, db: Db, t: Txn, rows: seq<Item>)
    requires Advance(limit, db, t, rows).Some? && OrderCopy(db, t)
    ensures var next := Advance(limit, db, t, rows).value;
            next.req == t.req && (next.order.Some? ==> t.phase == Writing)
  {
    if t.phase == Pricing { PriceShape(db, t); }
    if t.phase == Reviewing { ReviewShape(db, t); }
    if t.phase == Refunding { RefundShape(db, t); }
  }

  lemma StatementKeepsRequest(limit: int, db: Db, t: Txn, rows: seq<Item>)
    requires Advance(limit, db, t, rows).Some?
    ensures Advance(limit, db, t, rows).value.req == t.req
  {
    if t.phase == Pricing { PriceShape(db, t); }
    if t.phase == Reviewing { ReviewShape(db, t); }
    if t.phase == Refunding { RefundShape(db, t); }
  }

  lemma StatementTracks(limit: int, db: Db, t: Txn, rows: seq<Item>)
    requires Advance(limit, db, t, rows).Some? && (Tracks(t, Target(t.req)) ==> Target(t.req) in db.orders)
    ensures var next := Advance(limit, db, t, rows).value;
            next.req == t.req && (Tracks(next, Target(next.req)) ==> Target(next.req) in db.orders)
  {
  }

  lemma StatementSharesNothing(limit: int, net: Net, id: TxId, rows: seq<Item>)
    requires LockInv(net) && Enabled(net, Statement(id, rows)) && Advance(limit, net.db, net.txs[id], rows).Some?
    ensures NoSharedLock(net.txs[id := Advance(limit, net.db, net.txs[id], rows).value])
  {
    var t := net.txs[id];
    var next := Advance(limit, net.db, t, rows).value;
    forall k, row | k in net.txs && k != id && Holds(next, row) ensures !Holds(net.txs[k], row) {
      LocksOnlyWanted(limit, net.db, t, rows, row);
    }
  }

  lemma ReplacedKeepsLockInv(net: Net, id: TxId, next: Txn)
    requires LockInv(net) && id in net.txs && TxnOk(net.db, next) && NoSharedLock(net.txs[id := next])
    requires Tracks(next, Target(next.req)) ==> Target(next.req) in net.db.orders
    ensures LockInv(net.(txs := net.txs[id := next]))
  {
  }

  lemma RemovedKeepsLockInv(net: Net, id: TxId)
    requires LockInv(net)
    ensures LockInv(net.(txs := net.txs - {id}))
  {
  }

  lemma StatementKeepsLockInv(limit: int, net: Net, id: TxId, rows: seq<Item>)
    requires LockInv(net) && Enabled(net, Statement(id, rows))
    ensures LockInv(Next(limit, net, Statement(id, rows)))
  {
    var t := net.txs[id];
    var after := Advance(limit, net.db, t, rows);
    if after.Some? {
      StatementOk(limit, net.db, t, rows);
      StatementTracks(limit, net.db, t, rows);
      StatementSharesNothing(limit, net, id, rows);
      ReplacedKeepsLockInv(net, id, after.value);
    } else {
      RemovedKeepsLockInv(net, id);
    }
  }

  lemma CommitKeepsOthers(net: Net, id: TxId, k: TxId)
    requires LockInv(net) && id in net.txs && k in net.txs && k != id && net.txs[id].order.Some?
    ensures RowsKept(net.db, Publish(net.db, net.txs[id]), net.txs[k])
  {
    var t, other := net.txs[id], net.txs[k];
    forall p | p in other.products ensures p !in t.products {
      assert Holds(other, ProductRow(p)) && (p in t.products ==> Holds(t, ProductRow(p)));
    }
    forall r | r in other.promos ensures r !in t.promos {
      assert Holds(other, PromoRow(r)) && (r in t.promos ==> Holds(t, PromoRow(r)));
    }
  }

  lemma CommitKeepsLockInv(limit: int, net: Net, id: TxId)
    requires LockInv(net) && Enabled(net, Commit(id))
    ensures LockInv(Next(limit, net, Commit(id)))
  {
    var t := net.txs[id];
    if !Collides(net.db, t) {
      var next := Next(limit, net, Commit(id));
      assert !t.req.CreateRequest? ==> Tracks(t, Target(t.req));
      PublishedSchemaOk(net.db, t);
      forall k | k in next.txs ensures TxnOk(next.db, next.txs[k]) {
        CommitKeepsOthers(net, id, k);
        StaysOk(net.db, next.db, net.txs[k]);
      }
    }
  }

  lemma OutsideKeepsSchema(limit: int, db: Db, e: Event)
    requires SchemaOk(db) && IsOutside(e)
    ensures SchemaOk(Apply(limit, db, e)) && db.orders.Keys <= Apply(limit, db, e).orders.Keys
  {
    match e
    case LostCall =>
    case EditCall(x) => EditedSchema(db, x);
    case ArchiveCall(p, caller, role) => ArchivedSchema(db, p, caller, role);
    case AddProduct(p, price, stock, seller) => AddedSchema(db, p, Product(price, stock, ACTIVE, Some(seller)));
    case AddPromo(r, terms) => PromoKeepsSchema(db, r, terms);
    case AddUser(user) =>
    case Progress(o, status) => MovedSchema(db, o, status);
  }

  lemma ArchivedSchema(db: Db, p: ProductId, caller: UserId, role: Role)
    requires SchemaOk(db)
    ensures SchemaOk(ArchiveOutcome(db, p, caller, role).db)
  {
  }

  lemma AddedSchema(db: Db, p: ProductId, row: Product)
    requires SchemaOk(db)
    ensures SchemaOk(WithProduct(db, p, row))
  {
  }

  lemma MovedSchema(db: Db, o: OrderId, status: OrderStatus)
    requires SchemaOk(db)
    ensures SchemaOk(Moved(db, o, status))
  {
  }

  // An outside statement changes at most the row it locks.
  lemma OutsideWrites(limit: int, db: Db, e: Event)
    requires IsOutside(e)
    ensures var next := Apply(limit, db, e);
            && db.users <= next.users && db.products.Keys <= next.products.Keys && db.promos.Keys <= next.promos.Keys
            && (forall p :: p in db.products && EventRow(e) != Some(ProductRow(p)) ==>
                 next.products[p] == db.products[p])
            && (forall r :: r in db.promos ==> next.promos[r] == db.promos[r])
  {
    match e
    case EditCall(x) => EditWrites(db, x);
    case _ =>
  }

  lemma EditWrites(db: Db, x: ProductEdit)
    ensures var next := EditOutcome(db, x).db;
            && next == db.(products := next.products) && next.products.Keys == db.products.Keys
            && forall p :: p in db.products && p != x.product ==> next.products[p] == db.products[p]
  {
  }

  lemma OutsideKeepsRows(limit: int, net: Net, e: Event, k: TxId)
    requires LockInv(net) && Enabled(net, Outside(e)) && k in net.txs
    ensures RowsKept(net.db, Apply(limit, net.db, e), net.txs[k])
  {
    OutsideWrites(limit, net.db, e);
    forall p | p in net.txs[k].products ensures EventRow(e) != Some(ProductRow(p)) {
      assert Holds(net.txs[k], ProductRow(p));
    }
  }

  lemma OutsideKeepsLockInv(limit: int, net: Net, e: Event)
    requires LockInv(net) && Enabled(net, Outside(e))
    ensures LockInv(Next(limit, net, Outside(e)))
  {
    var next := Next(limit, net, Outside(e));
    OutsideKeepsSchema(limit, net.db, e);
    forall k | k in next.txs ensures TxnOk(next.db, next.txs[k]) {
      OutsideKeepsRows(limit, net, e, k);
      StaysOk(net.db, next.db, net.txs[k]);
    }
  }

  lemma StartKeepsLockInv(net: Net, id: TxId, req: Request)
    requires LockInv(net) && id !in net.txs && Positive(LinesOfRequest(req))
    ensures LockInv(net.(txs := net.txs[id := Begin(req)]))
  {
    BeginOk(net.db, req);
    forall row ensures !Holds(Begin(req), row) {
    }
  }

  lemma MoveKeepsLockInv(limit: int, net: Net, m: Move)
    requires LockInv(net) && Enabled(net, m)
    ensures LockInv(Next(limit, net, m))
  {
    match m
    case Start(id, req) => StartKeepsLockInv(net, id, req);
    case Statement(id, rows) => StatementKeepsLockInv(limit, net, id, rows);
    case Commit(id) => CommitKeepsLockInv(limit, net, id);
    case Abort(id) => RemovedKeepsLockInv(net, id);
    case Outside(e) => OutsideKeepsLockInv(limit, net, e);
  }

  lemma {:induction false} RunKeepsLockInv(limit: int, nets: seq<Net>, moves: seq<Move>, i: nat)
    requires IsRun(limit, nets, moves) && LockInv(nets[0]) && i < |nets|
    ensures LockInv(nets[i])
  {
    if i > 0 {
      RunKeepsLockInv(limit, nets, moves, i - 1);
      MoveKeepsLockInv(limit, nets[i - 1], moves[i - 1]);
    }
  }

  // ---- Lock soundness ----

  // At any moment of any run, the decrement of a line fails exactly when the lines up to it ask for
  // more than the stock the check loop read: edits and other orders cannot interfere.
  lemma DecrementFailsWhen(db: Db, t: Txn)
    requires SchemaOk(db) && TxnOk(db, t) && t.phase == Taking && t.taken < |LinesOfRequest(t.req)|
    ensures var lines := LinesOfRequest(t.req);
            TakeNext(db, t).None? <==> Demand(lines[..t.taken + 1], lines[t.taken].product) > t.entries[t.taken].stock
  {
    var lines := LinesOfRequest(t.req);
    var p := lines[t.taken].product;
    assert p in t.products;
    SeenRow(db, t, p);
    DemandOfPrefix(lines, t.taken, p);
    PrefixDemandAtMost(lines, t.taken, p);
  }

  predicate Distinct(lines: seq<Line>) {
    forall i, j :: 0 <= i < j < |lines| ==> lines[i].product != lines[j].product
  }

  lemma {:induction false} DistinctDemand(lines: seq<Line>, n: nat, p: ProductId)
    requires Positive(lines) && Distinct(lines) && n <= |lines|
    ensures forall i :: n <= i < |lines| && lines[i].product == p ==> Demand(lines[..n], p) == 0
  {
    forall i | n <= i < |lines| && lines[i].product == p ensures Demand(lines[..n], p) == 0 {
      DemandBounds(lines[..n], p);
    }
  }

  lemma DistinctNeverRefused(db: Db, t: Txn)
    requires SchemaOk(db) && TxnOk(db, t) && t.phase == Taking && Distinct(LinesOfRequest(t.req))
    requires t.taken < |LinesOfRequest(t.req)|
    ensures TakeNext(db, t).Some?
  {
    var lines := LinesOfRequest(t.req);
    DecrementFailsWhen(db, t);
    DistinctDemand(lines, t.taken, lines[t.taken].product);
    DemandOfPrefix(lines, t.taken, lines[t.taken].product);
  }

  // With distinct products the stock test decides: CHECK (stock >= 0) never fires.
  lemma LockSoundness(limit: int, nets: seq<Net>, moves: seq<Move>, i: nat, id: TxId)
    requires IsRun(limit, nets, moves) && SchemaOk(nets[0].db) && nets[0].txs == map[]
    requires i < |nets| && id in nets[i].txs && nets[i].txs[id].phase == Taking
    requires Distinct(LinesOfRequest(nets[i].txs[id].req))
    ensures TakeNext(nets[i].db, nets[i].txs[id]).Some?
  {
    RunKeepsLockInv(limit, nets, moves, i);
    if nets[i].txs[id].taken < |LinesOfRequest(nets[i].txs[id].req)| {
      DistinctNeverRefused(nets[i].db, nets[i].txs[id]);
    }
  }

  // Until it ends, a transaction that has checked a line keeps the committed row from changing
  // under it: price and status are as read, the stock differs by what the transaction moved itself.
  lemma CheckedRowIsCurrent(limit: int, nets: seq<Net>, moves: seq<Move>, i: nat, id: TxId, j: nat)
    requires IsRun(limit, nets, moves) && SchemaOk(nets[0].db) && nets[0].txs == map[]
    requires i < |nets| && id in nets[i].txs && j < |nets[i].txs[id].entries|
    ensures var t := nets[i].txs[id];
            && j < |LinesOfRequest(t.req)|
            && var p := LinesOfRequest(t.req)[j].product;
               && p in nets[i].db.products
               && SameExceptStock(t.entries[j], nets[i].db.products[p])
               && t.entries[j].stock == nets[i].db.products[p].stock + Back(t, p)
  {
    RunKeepsLockInv(limit, nets, moves, i);
    var t := nets[i].txs[id];
    assert LinesOfRequest(t.req)[j].product in t.products;
  }
}
