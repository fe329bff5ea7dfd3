/**
 Interleaved conservation: as long as no two Update or Cancel requests on the same order overlap,
 every commit is a balanced exchange, so stock plus reservations and the promo counters are kept
 by any interleaving.
 */
module NetProofs {
  import opened Schema
  import opened Reservation
  import opened OrderRules
  import opened Balance
  import opened Runs
  import opened SupplyRuns
  import opened Interleaving
  import opened LockProofs

  // ---- What a transaction knows about its order ----

  // It is live, with the promo that was read before the transaction, and with the rows fetched in it.
  ghost predicate OrderKnown(db: Db, t: Txn) {
    var o := Target(t.req);
    if t.req.CreateRequest? then t.held == []
    else t.phase != Reading ==>
      && Live(db, o) && t.seen.Some? && db.orders[o].promo == t.seen.value.promo
      && (t.phase != Limiting && t.phase != Fetching ==> multiset(t.held) == multiset(ItemsOf(db.items, o)))
  }

  // The promo uses it has moved when it comes to writing its order row.
  ghost predicate UsesSettled(t: Txn) {
    t.phase == Writing || t.phase == Ready ==>
      match t.req
      case CreateRequest(_) => t.used == t.promo && t.refunded.None?
      case UpdateRequest(_) =>
        && t.seen.Some? && t.used.None?
        && ((t.promo == t.seen.value.promo && t.refunded.None?) || (t.promo.None? && t.refunded == t.seen.value.promo))
      case CancelRequest(_) => t.seen.Some? && t.used.None? && t.refunded == t.seen.value.promo
  }

  ghost predicate RowWritten(t: Txn) {
    t.order.Some? ==>
      match t.req
      case CreateRequest(_) => t.order.value.status != CANCELED && t.order.value.promo == t.promo
      case UpdateRequest(_) => t.order.value.status != CANCELED && t.order.value.promo == t.promo
      case CancelRequest(_) => t.order.value.status == CANCELED
  }

  ghost predicate Ledger(db: Db, t: Txn) {
    OrderKnown(db, t) && UsesSettled(t) && RowWritten(t)
  }

  ghost predicate Ledgers(db: Db, txs: map<TxId, Txn>) {
    forall id :: id in txs ==> Ledger(db, txs[id])
  }

  ghost predicate NetInv(net: Net) {
    LockInv(net) && PromoExact(net.db) && Ledgers(net.db, net.txs)
  }

  // ---- Its own statements keep the ledger ----

  // A refund always finds a positive counter, because the order itself is counted.
  lemma RefundIsEffective(db: Db, t: Txn)
    requires SchemaOk(db) && PromoExact(db) && TxnOk(db, t) && Ledger(db, t)
    requires t.phase == Refunding && RefundPromo(db, t).Some?
    ensures RefundPromo(db, t).value.refunded == t.seen.value.promo
  {
    if t.seen.value.promo.Some? {
      var r := t.seen.value.promo.value;
      CarriedPromoIsCounted(db, Target(t.req), r);
      assert r in SeenPromos(db, t);
      SeenPromoRow(db, t, r);
    }
  }

  lemma StatementKeepsOrderKnown(limit: int, db: Db, t: Txn, rows: seq<Item>)
    requires SchemaOk(db) && TxnOk(db, t) && OrderKnown(db, t) && Advance(limit, db, t, rows).Some?
    ensures OrderKnown(db, Advance(limit, db, t, rows).value)
  {
    if t.phase in {Reading, Limiting, Testing, Fetching} {
      FetchingKnowsOrder(limit, db, t, rows);
    } else {
      SameOrderKnown(limit, db, t, rows);
    }
  }

  lemma FetchingKnowsOrder(limit: int, db: Db, t: Txn, rows: seq<Item>)
    requires PhaseOk(t) && OrderKnown(db, t) && Advance(limit, db, t, rows).Some?
    requires t.phase in {Reading, Limiting, Testing, Fetching}
    ensures OrderKnown(db, Advance(limit, db, t, rows).value)
  {
  }

  // Past fetching, a request no longer looks at its order nor at the rows to give back.
  lemma SameOrderKnown(limit: int, db: Db, t: Txn, rows: seq<Item>)
    requires OrderKnown(db, t) && Advance(limit, db, t, rows).Some?
    requires t.phase !in {Reading, Limiting, Testing, Fetching}
    ensures OrderKnown(db, Advance(limit, db, t, rows).value)
  {
    KeepsTrack(limit, db, t, rows);
  }

  lemma KeepsTrack(limit: int, db: Db, t: Txn, rows: seq<Item>)
    requires Advance(limit, db, t, rows).Some? && t.phase !in {Reading, Limiting, Testing, Fetching}
    ensures var next := Advance(limit, db, t, rows).value;
            next.req == t.req && next.seen == t.seen && next.held == t.held
                && next.phase !in {Reading, Limiting, Testing, Fetching}
  {
    if t.phase == Pricing { PriceShape(db, t); }
    if t.phase == Reviewing { ReviewShape(db, t); }
    if t.phase == Refunding { RefundShape(db, t); }
  }

  lemma NotYetWriting(limit: int, db: Db, t: Txn, rows: seq<Item>)
    requires BeforePromo(t.phase) && Advance(limit, db, t, rows).Some?
    ensures UsesSettled(Advance(limit, db, t, rows).value)
  {
  }

  lemma PricingSettles(db: Db, t: Txn)
    requires PhaseOk(t) && t.phase == Pricing && PriceCode(db, t).Some?
    ensures UsesSettled(PriceCode(db, t).value)
  {
    PriceShape(db, t);
  }

  lemma UsingSettles(db: Db, t: Txn)
    requires PhaseOk(t) && t.phase == Using && UsePromo(db, t).Some?
    ensures UsesSettled(UsePromo(db, t).value)
  {
  }

  lemma ReviewingSettles(db: Db, t: Txn)
    requires PhaseOk(t) && t.phase == Reviewing && ReviewPromo(db, t).Some?
    ensures UsesSettled(ReviewPromo(db, t).value)
  {
    ReviewShape(db, t);
  }

  lemma RefundingSettles(db: Db, t: Txn)
    requires SchemaOk(db) && PromoExact(db) && TxnOk(db, t) && Ledger(db, t)
    requires t.phase == Refunding && RefundPromo(db, t).Some?
    ensures UsesSettled(RefundPromo(db, t).value)
  {
    RefundShape(db, t);
    RefundIsEffective(db, t);
    StaysWithoutUse(t, RefundPromo(db, t).value);
  }

  lemma StaysWithoutUse(t: Txn, next: Txn)
    requires PhaseOk(t) && t.phase == Refunding && t.seen.Some?
    requires next == t.(refunded := next.refunded, promos := next.promos, phase := Writing)
    requires next.refunded == t.seen.value.promo
    ensures UsesSettled(next)
  {
  }

  lemma WritingSettles(db: Db, t: Txn)
    requires UsesSettled(t) && t.phase == Writing && WriteOrder(db, t).Some?
    ensures UsesSettled(WriteOrder(db, t).value)
  {
  }

  lemma StatementKeepsUsesSettled(limit: int, db: Db, t: Txn, rows: seq<Item>)
    requires SchemaOk(db) && PromoExact(db) && TxnOk(db, t) && Ledger(db, t) && Advance(limit, db, t, rows).Some?
    ensures UsesSettled(Advance(limit, db, t, rows).value)
  {
    match t.phase
    case Pricing => PricingSettles(db, t);
    case Using => UsingSettles(db, t);
    case Reviewing => ReviewingSettles(db, t);
    case Refunding => RefundingSettles(db, t);
    case Writing => WritingSettles(db, t);
    case _ => NotYetWriting(limit, db, t, rows);
  }

  lemma StatementKeepsRowWritten(limit: int, db: Db, t: Txn, rows: seq<Item>)
    requires TxnOk(db, t) && Ledger(db, t) && Advance(limit, db, t, rows).Some?
    ensures RowWritten(Advance(limit, db, t, rows).value)
  {
    LocksOrder(limit, db, t, rows);
  }

  lemma StatementKeepsLedger(limit: int, db: Db, t: Txn, rows: seq<Item>)
    requires SchemaOk(db) && PromoExact(db) && TxnOk(db, t) && Ledger(db, t) && Advance(limit, db, t, rows).Some?
    ensures Ledger(db, Advance(limit, db, t, rows).value)
  {
    StatementKeepsOrderKnown(limit, db, t, rows);
    StatementKeepsUsesSettled(limit, db, t, rows);
    StatementKeepsRowWritten(limit, db, t, rows);
  }

  // ---- A commit is a balanced exchange ----

  lemma PublishedLoads(db: Db, t: Txn, p: ProductId)
    requires SchemaOk(db) && TxnOk(db, t) && Ledger(db, t) && t.phase == Ready
    requires t.req.CreateRequest? ==> Target(t.req) !in db.orders
    ensures Load(db, Target(t.req), p) == Demand(LinesOf(t.held), p)
    ensures Load(Publish(db, t), Target(t.req), p) == Demand(LinesOfRequest(t.req), p)
  {
    PublishedItemsOk(db, t);
    if !t.req.CreateRequest? {
      LinesOfPermutation(t.held, ItemsOf(db.items, Target(t.req)));
      DemandOfPermutation(LinesOf(t.held), OldLines(db, Target(t.req)), p);
    }
  }

  lemma PublishedStock(db: Db, t: Txn, p: ProductId)
    requires TxnOk(db, t) && t.phase == Ready && p in db.products
    ensures p in Publish(db, t).products && SameExceptStock(db.products[p], Publish(db, t).products[p])
    ensures Publish(db, t).products[p].stock
        == db.products[p].stock + Demand(LinesOf(t.held), p) - Demand(LinesOfRequest(t.req), p)
  {
    assert LinesOf(t.held)[..|t.held|] == LinesOf(t.held);
    assert LinesOfRequest(t.req)[..t.taken] == LinesOfRequest(t.req);
  }

  lemma PublishedUses(db: Db, t: Txn, r: PromoId)
    requires TxnOk(db, t) && Ledger(db, t) && t.phase == Ready && r in db.promos
    requires t.req.CreateRequest? ==> Target(t.req) !in db.orders
    ensures r in Publish(db, t).promos && SameExceptUses(db.promos[r], Publish(db, t).promos[r])
    ensures Publish(db, t).promos[r].uses == db.promos[r].uses + UsesMoved(t, r)
    ensures UsesMoved(t, r) == Carries(Publish(db, t), Target(t.req), r) - Carries(db, Target(t.req), r)
  {
    PublishedCarries(db, t, r);
  }

  lemma PublishedCarries(db: Db, t: Txn, r: PromoId)
    requires Ledger(db, t) && t.phase == Ready && t.order.Some?
    requires t.req.CreateRequest? ==> Target(t.req) !in db.orders
    ensures UsesMoved(t, r) == Carries(Publish(db, t), Target(t.req), r) - Carries(db, Target(t.req), r)
  {
    match t.req
    case CreateRequest(_) =>
    case UpdateRequest(_) =>
    case CancelRequest(_) =>
  }

  lemma PublishIsBalanced(db: Db, t: Txn)
    requires SchemaOk(db) && TxnOk(db, t) && Ledger(db, t) && t.phase == Ready
    requires t.req.CreateRequest? ==> Target(t.req) !in db.orders
    ensures Balanced(db, Publish(db, t), Target(t.req))
  {
    var next := Publish(db, t);
    PublishedProductsOk(db, t);
    PublishedPromosOk(db, t);
    forall p | p in db.products
      ensures SameExceptStock(db.products[p], next.products[p])
      ensures next.products[p].stock + Load(next, Target(t.req), p) == db.products[p].stock + Load(db, Target(t.req), p)
    {
      PublishedStock(db, t, p);
      PublishedLoads(db, t, p);
    }
    forall r | r in db.promos
      ensures SameExceptUses(db.promos[r], next.promos[r])
      ensures next.promos[r].uses - Carries(next, Target(t.req), r) == db.promos[r].uses - Carries(db, Target(t.req), r)
    {
      PublishedUses(db, t, r);
    }
    PublishedOnlyOrder(db, t);
  }

  lemma PublishedOnlyOrder(db: Db, t: Txn)
    requires SchemaOk(db) && OrderKnown(db, t) && t.phase == Ready && t.order.Some?
    ensures OnlyOrder(db, Publish(db, t), Target(t.req))
  {
  }

  // ---- What others do does not disturb it ----

  ghost predicate OrderKept(db: Db, next: Db, o: OrderId) {
    Live(db, o) ==>
      Live(next, o) && next.orders[o].promo == db.orders[o].promo && ItemsOf(next.items, o) == ItemsOf(db.items, o)
  }

  lemma LedgerStays(db: Db, next: Db, t: Txn)
    requires Ledger(db, t) && (Tracks(t, Target(t.req)) ==> OrderKept(db, next, Target(t.req)))
    ensures Ledger(next, t)
  {
  }

  lemma CommitKeepsOtherLedger(net: Net, id: TxId, k: TxId)
    requires NetInv(net) && Exclusive(net) && id in net.txs && k in net.txs && k != id
    requires net.txs[id].phase == Ready && !Collides(net.db, net.txs[id])
    ensures Ledger(Publish(net.db, net.txs[id]), net.txs[k])
  {
    var t, other := net.txs[id], net.txs[k];
    var o := Target(other.req);
    assert t.req.CreateRequest? || Tracks(t, Target(t.req));
    if Tracks(other, o) {
      PublishedOnlyOrder(net.db, t);
    }
    LedgerStays(net.db, Publish(net.db, t), other);
  }

  lemma OutsideKeepsOrders(limit: int, db: Db, e: Event, o: OrderId)
    requires IsOutside(e)
    ensures OrderKept(db, Apply(limit, db, e), o)
  {
  }

  lemma OutsideKeepsPromoExact(limit: int, db: Db, e: Event)
    requires SchemaOk(db) && PromoExact(db) && IsOutside(e)
    ensures PromoExact(Apply(limit, db, e))
  {
    match e
    case AddPromo(r, terms) => PromoKeepsExact(db, r, terms);
    case Progress(o, status) =>
      if o in db.orders {
        MovedIsBalanced(db, o, status);
        BalancedKeepsPromoExact(db, Moved(db, o, status), o);
      }
    case _ => OutsideSameOrders(limit, db, e);
  }

  lemma OutsideSameOrders(limit: int, db: Db, e: Event)
    requires IsOutside(e) && !e.Progress? && !e.AddPromo? && PromoExact(db)
    ensures Apply(limit, db, e).orders == db.orders && Apply(limit, db, e).items == db.items
    ensures PromoExact(Apply(limit, db, e))
  {
    SameOrdersSameUses(db, Apply(limit, db, e));
  }

  // ---- Every state of a run without overlapping Updates or Cancels ----

  lemma StatementKeepsNetInv(limit: int, net: Net, id: TxId, rows: seq<Item>)
    requires NetInv(net) && Enabled(net, Statement(id, rows))
    ensures NetInv(Next(limit, net, Statement(id, rows)))
  {
    StatementKeepsLockInv(limit, net, id, rows);
    var after := Advance(limit, net.db, net.txs[id], rows);
    if after.Some? {
      StatementKeepsLedger(limit, net.db, net.txs[id], rows);
      ReplacedKeepsLedgers(net, id, after.value);
    }
  }

  lemma ReplacedKeepsLedgers(net: Net, id: TxId, next: Txn)
    requires Ledgers(net.db, net.txs) && Ledger(net.db, next)
    ensures Ledgers(net.db, net.txs[id := next])
  {
  }

  lemma CommitKeepsNetInv(limit: int, net: Net, id: TxId)
    requires NetInv(net) && Exclusive(net) && Enabled(net, Commit(id))
    ensures NetInv(Next(limit, net, Commit(id)))
  {
    var t := net.txs[id];
    CommitKeepsLockInv(limit, net, id);
    if !Collides(net.db, t) {
      PublishIsBalanced(net.db, t);
      BalancedKeepsPromoExact(net.db, Publish(net.db, t), Target(t.req));
      forall k | k in net.txs - {id} ensures Ledger(Publish(net.db, t), net.txs[k]) {
        CommitKeepsOtherLedger(net, id, k);
      }
    }
  }

  lemma OutsideKeepsNetInv(limit: int, net: Net, e: Event)
    requires NetInv(net) && Enabled(net, Outside(e))
    ensures NetInv(Next(limit, net, Outside(e)))
  {
    OutsideKeepsLockInv(limit, net, e);
    OutsideKeepsPromoExact(limit, net.db, e);
    forall k | k in net.txs ensures Ledger(Apply(limit, net.db, e), net.txs[k]) {
      OutsideKeepsOrders(limit, net.db, e, Target(net.txs[k].req));
      LedgerStays(net.db, Apply(limit, net.db, e), net.txs[k]);
    }
  }

  lemma StartKeepsNetInv(limit: int, net: Net, id: TxId, req: Request)
    requires NetInv(net) && Enabled(net, Start(id, req))
    ensures NetInv(Next(limit, net, Start(id, req)))
  {
    StartKeepsLockInv(net, id, req);
    BegunLedger(net.db, req);
    ReplacedKeepsLedgers(net, id, Begin(req));
  }

  lemma BegunLedger(db: Db, req: Request)
    ensures Ledger(db, Begin(req))
  {
  }

  lemma MoveKeepsNetInv(limit: int, net: Net, m: Move)
    requires NetInv(net) && Exclusive(net) && Enabled(net, m)
    ensures NetInv(Next(limit, net, m))
  {
    match m
    case Start(id, req) => StartKeepsNetInv(limit, net, id, req);
    case Statement(id, rows) => StatementKeepsNetInv(limit, net, id, rows);
    case Commit(id) => CommitKeepsNetInv(limit, net, id);
    case Abort(id) => RemovedKeepsLockInv(net, id);
    case Outside(e) => OutsideKeepsNetInv(limit, net, e);
  }

  lemma {:induction false} RunKeepsNetInv(limit: int, nets: seq<Net>, moves: seq<Move>, i: nat)
    requires IsRun(limit, nets, moves) && NetInv(nets[0]) && i < |nets|
    requires forall k :: 0 <= k < i ==> Exclusive(nets[k])
    ensures NetInv(nets[i])
  {
    if i > 0 {
      RunKeepsNetInv(limit, nets, moves, i - 1);
      MoveKeepsNetInv(limit, nets[i - 1], moves[i - 1]);
    }
  }

  // ---- Conservation ----

  function AddedBy(net: Net, m: Move, p: ProductId): int {
    if m.Outside? then StockAdded(net.db, m.event, p) else 0
  }

  function AddedUpTo(nets: seq<Net>, moves: seq<Move>, i: nat, p: ProductId): int
    requires i <= |moves| && i < |nets|
  {
    if i == 0 then 0 else AddedUpTo(nets, moves, i - 1, p) + AddedBy(nets[i - 1], moves[i - 1], p)
  }

  lemma OutsideSupply(limit: int, db: Db, e: Event, p: ProductId)
    requires SchemaOk(db) && PromoExact(db) && IsOutside(e)
    ensures Supply(Apply(limit, db, e), p) == Supply(db, p) + StockAdded(db, e, p)
  {
    if e.Progress? {
      MovedSchema(db, e.order, e.status);
      ProgressKeepsSupply(db, e.order, e.status, p);
    } else {
      OtherEventSupply(limit, db, e, p);
    }
  }

  lemma MoveSupply(limit: int, net: Net, m: Move, p: ProductId)
    requires NetInv(net) && Exclusive(net) && Enabled(net, m)
    ensures Supply(Next(limit, net, m).db, p) == Supply(net.db, p) + AddedBy(net, m, p)
  {
    if m.Outside? {
      OutsideSupply(limit, net.db, m.event, p);
    } else if m.Commit? && !Collides(net.db, net.txs[m.id]) {
      var t := net.txs[m.id];
      PublishIsBalanced(net.db, t);
      CommitKeepsLockInv(limit, net, m.id);
      BalancedStepKeepsSupply(net.db, Publish(net.db, t), Target(t.req), p);
    }
  }

  // In every interleaving, committed stock plus the units in committed orders that are not canceled
  // only moves by what sellers add or remove.
  lemma {:induction false} InterleavedConservation(limit: int, nets: seq<Net>, moves: seq<Move>, i: nat, p: ProductId)
    requires IsRun(limit, nets, moves) && i < |nets|
    requires SchemaOk(nets[0].db) && PromoExact(nets[0].db) && nets[0].txs == map[]
    requires forall k :: 0 <= k < i ==> Exclusive(nets[k])
    ensures Supply(nets[i].db, p) == Supply(nets[0].db, p) + AddedUpTo(nets, moves, i, p)
  {
    if i > 0 {
      InterleavedConservation(limit, nets, moves, i - 1, p);
      RunKeepsNetInv(limit, nets, moves, i - 1);
      MoveSupply(limit, nets[i - 1], moves[i - 1], p);
    }
  }

  // Likewise every promo counter stays the number of committed live orders that carry the promo.
  lemma InterleavedPromoCounters(limit: int, nets: seq<Net>, moves: seq<Move>, i: nat, r: PromoId)
    requires IsRun(limit, nets, moves) && i < |nets|
    requires SchemaOk(nets[0].db) && PromoExact(nets[0].db) && nets[0].txs == map[]
    requires forall k :: 0 <= k < i ==> Exclusive(nets[k])
    requires r in nets[i].db.promos
    ensures nets[i].db.promos[r].uses == LiveUses(nets[i].db, r)
  {
    RunKeepsNetInv(limit, nets, moves, i);
  }
}
