/**
 The limits that are tested by reads without a lock: one active order per user, the maximum of a
 promo, and the rate limit. Each of them is kept by every interleaving in which no two requests that
 compete for it overlap; the module Overlaps shows that this is needed.
 */
module Limits {
  import opened Schema
  import opened OrderRules
  import opened Invariant
  import opened RateLimitRuns
  import opened Runs
  import opened Interleaving
  import opened LockProofs

  // ---- The order row of a request about to commit ----

  // It is the one to be written over the committed row as it is now.
  ghost predicate RowCurrent(db: Db, t: Txn) {
    t.phase == Ready ==> t.order == WrittenRow(db, t)
  }

  ghost predicate AllCurrent(db: Db, txs: map<TxId, Txn>) {
    forall id :: id in txs ==> RowCurrent(db, txs[id])
  }

  ghost predicate RowsCurrent(net: Net) {
    LockInv(net) && AllCurrent(net.db, net.txs)
  }

  lemma StatementKeepsRowCurrent(limit: int, db: Db, t: Txn, rows: seq<Item>)
    requires Advance(limit, db, t, rows).Some?
    ensures RowCurrent(db, Advance(limit, db, t, rows).value)
  {
    if t.phase == Writing {
      WriteIsCurrent(db, t);
    } else {
      ReadyOnlyByWriting(limit, db, t, rows);
    }
  }

  lemma WriteIsCurrent(db: Db, t: Txn)
    requires t.phase == Writing && WriteOrder(db, t).Some?
    ensures RowCurrent(db, WriteOrder(db, t).value)
  {
    assert RowsOf(WriteOrder(db, t).value) == RowsOf(t);
  }

  lemma ReadyOnlyByWriting(limit: int, db: Db, t: Txn, rows: seq<Item>)
    requires Advance(limit, db, t, rows).Some? && t.phase != Writing
    ensures Advance(limit, db, t, rows).value.phase != Ready
  {
    if t.phase == Pricing { PriceShape(db, t); }
    if t.phase == Reviewing { ReviewShape(db, t); }
    if t.phase == Refunding { RefundShape(db, t); }
  }

  lemma SameRowSameWritten(db: Db, next: Db, t: Txn)
    requires RowCurrent(db, t)
    requires t.phase == Ready ==> (Target(t.req) in next.orders <==> Target(t.req) in db.orders)
    requires t.phase == Ready && Target(t.req) in db.orders ==> next.orders[Target(t.req)] == db.orders[Target(t.req)]
    ensures RowCurrent(next, t)
  {
  }

  // Two requests about to commit are about different orders: each holds the row of its own.
  lemma ReadyTargetsDiffer(net: Net, a: TxId, b: TxId)
    requires LockInv(net) && a in net.txs && b in net.txs && a != b
    requires net.txs[a].phase == Ready && net.txs[b].phase == Ready
    ensures Target(net.txs[a].req) != Target(net.txs[b].req)
  {
    assert Holds(net.txs[a], OrderRow(Target(net.txs[a].req)));
    assert Holds(net.txs[b], OrderRow(Target(net.txs[b].req)));
  }

  lemma StatementKeepsCurrent(limit: int, net: Net, id: TxId, rows: seq<Item>)
    requires AllCurrent(net.db, net.txs) && Enabled(net, Statement(id, rows))
    ensures var next := Next(limit, net, Statement(id, rows)); AllCurrent(next.db, next.txs)
  {
    if Advance(limit, net.db, net.txs[id], rows).Some? {
      StatementKeepsRowCurrent(limit, net.db, net.txs[id], rows);
    }
  }

  lemma CommitKeepsCurrent(net: Net, id: TxId)
    requires RowsCurrent(net) && id in net.txs && net.txs[id].phase == Ready
    ensures AllCurrent(Publish(net.db, net.txs[id]), net.txs - {id})
  {
    forall k | k in net.txs && k != id ensures RowCurrent(Publish(net.db, net.txs[id]), net.txs[k]) {
      if net.txs[k].phase == Ready {
        ReadyTargetsDiffer(net, id, k);
      }
      SameRowSameWritten(net.db, Publish(net.db, net.txs[id]), net.txs[k]);
    }
  }

  lemma OutsideOrders(limit: int, db: Db, e: Event, o: OrderId)
    requires IsOutside(e)
    ensures var next := Apply(limit, db, e);
            && next.orders.Keys == db.orders.Keys && next.items == db.items && next.ops == db.ops
            && (o in db.orders && EventRow(e) != Some(OrderRow(o)) ==> next.orders[o] == db.orders[o])
  {
  }

  lemma OutsideKeepsCurrent(limit: int, net: Net, e: Event)
    requires RowsCurrent(net) && Enabled(net, Outside(e))
    ensures AllCurrent(Apply(limit, net.db, e), net.txs)
  {
    forall k | k in net.txs ensures RowCurrent(Apply(limit, net.db, e), net.txs[k]) {
      var o := Target(net.txs[k].req);
      OutsideOrders(limit, net.db, e, o);
      if net.txs[k].phase == Ready {
        assert Holds(net.txs[k], OrderRow(o));
      }
      SameRowSameWritten(net.db, Apply(limit, net.db, e), net.txs[k]);
    }
  }

  lemma MoveKeepsCurrent(limit: int, net: Net, m: Move)
    requires RowsCurrent(net) && Enabled(net, m)
    ensures AllCurrent(Next(limit, net, m).db, Next(limit, net, m).txs)
  {
    match m
    case Start(id, req) =>
    case Statement(id, rows) => StatementKeepsCurrent(limit, net, id, rows);
    case Commit(id) => CommitKeepsCurrent(net, id);
    case Abort(id) =>
    case Outside(e) => OutsideKeepsCurrent(limit, net, e);
  }

  lemma MoveKeepsRowsCurrent(limit: int, net: Net, m: Move)
    requires RowsCurrent(net) && Enabled(net, m)
    ensures RowsCurrent(Next(limit, net, m))
  {
    MoveKeepsLockInv(limit, net, m);
    MoveKeepsCurrent(limit, net, m);
  }

  // ---- One active order per user ----

  // Creates that have found no active order of their user.
  predicate PastTest(t: Txn) {
    t.req.CreateRequest? && t.phase !in {Reading, Limiting, Testing}
  }

  ghost predicate OneCreatePerUser(net: Net) {
    forall a, b :: a in net.txs && b in net.txs && a != b && PastTest(net.txs[a]) && PastTest(net.txs[b]) ==>
      net.txs[a].req.create.user != net.txs[b].req.create.user
  }

  // What such a Create has found is still so.
  ghost predicate StillFree(db: Db, t: Txn) {
    PastTest(t) ==> !HasActive(db.orders, t.req.create.user)
  }

  ghost predicate ActiveOk(db: Db, txs: map<TxId, Txn>) {
    OneActive(db.orders) && forall id :: id in txs ==> StillFree(db, txs[id])
  }

  ghost predicate ActiveInv(net: Net) {
    RowsCurrent(net) && ActiveOk(net.db, net.txs)
  }

  lemma StatementKeepsStillFree(limit: int, db: Db, t: Txn, rows: seq<Item>)
    requires PhaseOk(t) && StillFree(db, t) && Advance(limit, db, t, rows).Some?
    ensures StillFree(db, Advance(limit, db, t, rows).value)
  {
    StatementKeepsRequest(limit, db, t, rows);
    if !PastTest(t) && PastTest(Advance(limit, db, t, rows).value) {
      assert t.phase == Testing;
    }
  }

  // Every active order of `next` was an active order of the same user before.
  ghost predicate ActivatesNothing(orders: map<OrderId, Order>, next: map<OrderId, Order>) {
    forall o :: o in next && IsActive(next[o]) ==> o in orders && IsActive(orders[o]) && orders[o].user == next[o].user
  }

  lemma NothingActivated(db: Db, next: Db)
    requires ActivatesNothing(db.orders, next.orders)
    ensures OneActive(db.orders) ==> OneActive(next.orders)
    ensures forall t :: StillFree(db, t) ==> StillFree(next, t)
  {
  }

  lemma UpdateOrCancelActivatesNothing(db: Db, t: Txn)
    requires RowCurrent(db, t) && t.phase == Ready && t.order.Some? && !t.req.CreateRequest?
    ensures ActivatesNothing(db.orders, Publish(db, t).orders)
  {
  }

  lemma CreateActivatesOne(db: Db, t: Txn)
    requires RowCurrent(db, t) && t.phase == Ready && t.order.Some? && t.req.CreateRequest?
    requires StillFree(db, t) && OneActive(db.orders)
    ensures OneActive(Publish(db, t).orders)
    ensures forall other :: StillFree(db, other) && (PastTest(other) ==> other.req.create.user != t.req.create.user) ==>
              StillFree(Publish(db, t), other)
  {
  }

  lemma StatementKeepsActive(limit: int, net: Net, id: TxId, rows: seq<Item>)
    requires ActiveOk(net.db, net.txs) && Enabled(net, Statement(id, rows)) && PhaseOk(net.txs[id])
    ensures var next := Next(limit, net, Statement(id, rows)); ActiveOk(next.db, next.txs)
  {
    if Advance(limit, net.db, net.txs[id], rows).Some? {
      StatementKeepsStillFree(limit, net.db, net.txs[id], rows);
    }
  }

  lemma CommitKeepsActive(net: Net, id: TxId)
    requires ActiveOk(net.db, net.txs) && OneCreatePerUser(net) && id in net.txs
    requires net.txs[id].phase == Ready && net.txs[id].order.Some? && RowCurrent(net.db, net.txs[id])
    ensures ActiveOk(Publish(net.db, net.txs[id]), net.txs - {id})
  {
    var t := net.txs[id];
    if t.req.CreateRequest? {
      CreateActivatesOne(net.db, t);
    } else {
      UpdateOrCancelActivatesNothing(net.db, t);
      NothingActivated(net.db, Publish(net.db, t));
    }
  }

  lemma OutsideActivatesNothing(limit: int, db: Db, e: Event)
    requires IsOutside(e)
    ensures ActivatesNothing(db.orders, Apply(limit, db, e).orders)
  {
  }

  lemma OutsideKeepsActive(limit: int, net: Net, e: Event)
    requires ActiveOk(net.db, net.txs) && IsOutside(e)
    ensures ActiveOk(Apply(limit, net.db, e), net.txs)
  {
    OutsideActivatesNothing(limit, net.db, e);
    NothingActivated(net.db, Apply(limit, net.db, e));
  }

  ghost predicate PhasesOk(txs: map<TxId, Txn>) {
    forall id :: id in txs ==> PhaseOk(txs[id])
  }

  lemma PhasesAreOk(net: Net)
    requires LockInv(net)
    ensures PhasesOk(net.txs)
  {
  }

  lemma MoveKeepsActive(limit: int, net: Net, m: Move)
    requires PhasesOk(net.txs) && AllCurrent(net.db, net.txs) && ActiveOk(net.db, net.txs)
    requires OneCreatePerUser(net) && Enabled(net, m)
    ensures ActiveOk(Next(limit, net, m).db, Next(limit, net, m).txs)
  {
    match m
    case Start(id, req) =>
    case Statement(id, rows) => StatementKeepsActive(limit, net, id, rows);
    case Commit(id) => CommitKeepsActive(net, id);
    case Abort(id) =>
    case Outside(e) => OutsideKeepsActive(limit, net, e);
  }

  lemma MoveKeepsActiveInv(limit: int, net: Net, m: Move)
    requires ActiveInv(net) && OneCreatePerUser(net) && Enabled(net, m)
    ensures ActiveInv(Next(limit, net, m))
  {
    MoveKeepsRowsCurrent(limit, net, m);
    PhasesAreOk(net);
    MoveKeepsActive(limit, net, m);
  }

  lemma {:induction false} RunKeepsActiveInv(limit: int, nets: seq<Net>, moves: seq<Move>, i: nat)
    requires IsRun(limit, nets, moves) && ActiveInv(nets[0]) && i < |nets|
    requires forall k :: 0 <= k < i ==> OneCreatePerUser(nets[k])
    ensures ActiveInv(nets[i])
  {
    if i > 0 {
      RunKeepsActiveInv(limit, nets, moves, i - 1);
      MoveKeepsActiveInv(limit, nets[i - 1], moves[i - 1]);
    }
  }

  // In every interleaving in which no two Creates of one user are past their test at once, no user
  // ever has two active orders. Updates, Cancels and payments may overlap as they like.
  lemma InterleavedOneActive(limit: int, nets: seq<Net>, moves: seq<Move>, i: nat)
    requires IsRun(limit, nets, moves) && i < |nets|
    requires SchemaOk(nets[0].db) && OneActive(nets[0].db.orders) && nets[0].txs == map[]
    requires forall k :: 0 <= k < i ==> OneCreatePerUser(nets[k])
    ensures OneActive(nets[i].db.orders)
  {
    RunKeepsActiveInv(limit, nets, moves, i);
  }

  // ---- The maximum of a promo ----

  // A Create that has read promo r as usable, and has not ended yet.
  predicate Claims(t: Txn, r: PromoId) {
    t.req.CreateRequest? && t.promo == Some(r)
  }

  ghost predicate OneCreatePerPromo(net: Net) {
    forall a, b, r :: a in net.txs && b in net.txs && a != b && Claims(net.txs[a], r) ==> !Claims(net.txs[b], r)
  }

  // Only Creates take uses, and of the promo they have read; there still is a free use of it.
  ghost predicate UseIsFree(db: Db, t: Txn) {
    && (t.used.Some? ==> t.req.CreateRequest? && t.used == t.promo)
    && (t.req.CreateRequest? && t.promo.Some? ==>
          t.promo.value in db.promos && db.promos[t.promo.value].uses < db.promos[t.promo.value].maxUses)
  }

  ghost predicate UsesOk(db: Db, txs: map<TxId, Txn>) {
    UsesWithinMax(db.promos) && forall id :: id in txs ==> UseIsFree(db, txs[id])
  }

  ghost predicate MaxInv(net: Net) {
    LockInv(net) && UsesOk(net.db, net.txs)
  }

  lemma StatementKeepsUseFree(limit: int, db: Db, t: Txn, rows: seq<Item>)
    requires SchemaOk(db) && TxnOk(db, t) && UseIsFree(db, t) && Advance(limit, db, t, rows).Some?
    ensures UseIsFree(db, Advance(limit, db, t, rows).value)
  {
    match t.phase
    case Pricing => PricingFindsUse(db, t);
    case Using => UsingTakesPromo(db, t);
    case Reviewing => ReviewShape(db, t);
    case Refunding => RefundShape(db, t);
    case _ => PromoSideSame(limit, db, t, rows);
  }

  lemma PricingFindsUse(db: Db, t: Txn)
    requires SchemaOk(db) && PhaseOk(t) && PromoCopies(db, t) && t.phase == Pricing && PriceCode(db, t).Some?
    ensures UseIsFree(db, PriceCode(db, t).value)
  {
    PriceShape(db, t);
    if t.req.create.code.Some? {
      SeenPromoRow(db, t, PriceCode(db, t).value.promo.value);
    }
  }

  lemma UsingTakesPromo(db: Db, t: Txn)
    requires PhaseOk(t) && UseIsFree(db, t) && t.phase == Using && UsePromo(db, t).Some?
    ensures UseIsFree(db, UsePromo(db, t).value)
  {
  }

  lemma PromoSideSame(limit: int, db: Db, t: Txn, rows: seq<Item>)
    requires Advance(limit, db, t, rows).Some? && t.phase !in {Pricing, Using, Reviewing, Refunding}
    ensures var next := Advance(limit, db, t, rows).value;
            next.req == t.req && next.promo == t.promo && next.used == t.used
  {
  }

  // A commit takes at most the one use its request has claimed.
  lemma PublishedCounters(db: Db, t: Txn, r: PromoId)
    requires PromoCopies(db, t) && t.order.Some? && r in db.promos
    ensures r in Publish(db, t).promos
    ensures Publish(db, t).promos[r] == db.promos[r].(uses := db.promos[r].uses + UsesMoved(t, r))
  {
  }

  lemma StatementKeepsUses(limit: int, net: Net, id: TxId, rows: seq<Item>)
    requires UsesOk(net.db, net.txs) && Enabled(net, Statement(id, rows)) && SchemaOk(net.db)
    requires TxnOk(net.db, net.txs[id])
    ensures var next := Next(limit, net, Statement(id, rows)); UsesOk(next.db, next.txs)
  {
    if Advance(limit, net.db, net.txs[id], rows).Some? {
      StatementKeepsUseFree(limit, net.db, net.txs[id], rows);
    }
  }

  lemma PublishKeepsMaximum(db: Db, t: Txn)
    requires UsesWithinMax(db.promos) && PromoCopies(db, t) && UseIsFree(db, t) && t.order.Some?
    ensures UsesWithinMax(Publish(db, t).promos)
  {
    forall r | r in Publish(db, t).promos ensures Publish(db, t).promos[r].uses <= Publish(db, t).promos[r].maxUses {
      PublishedCounters(db, t, r);
    }
  }

  lemma PublishKeepsUseFree(db: Db, t: Txn, other: Txn)
    requires PromoCopies(db, t) && UseIsFree(db, t) && t.order.Some? && UseIsFree(db, other)
    requires forall r :: Claims(other, r) ==> !Claims(t, r)
    ensures UseIsFree(Publish(db, t), other)
  {
    if other.req.CreateRequest? && other.promo.Some? {
      PublishedCounters(db, t, other.promo.value);
      assert Claims(other, other.promo.value);
    }
  }

  lemma CommitKeepsUses(net: Net, id: TxId)
    requires UsesOk(net.db, net.txs) && OneCreatePerPromo(net) && id in net.txs
    requires PromoCopies(net.db, net.txs[id]) && net.txs[id].order.Some?
    ensures UsesOk(Publish(net.db, net.txs[id]), net.txs - {id})
  {
    PublishKeepsMaximum(net.db, net.txs[id]);
    forall k | k in net.txs && k != id ensures UseIsFree(Publish(net.db, net.txs[id]), net.txs[k]) {
      PublishKeepsUseFree(net.db, net.txs[id], net.txs[k]);
    }
  }

  lemma OutsideKeepsMaximum(limit: int, db: Db, e: Event)
    requires SchemaOk(db) && IsOutside(e)
    ensures UsesWithinMax(db.promos) ==> UsesWithinMax(Apply(limit, db, e).promos)
    ensures forall t :: UseIsFree(db, t) ==> UseIsFree(Apply(limit, db, e), t)
  {
    OutsideWrites(limit, db, e);
    if e.AddPromo? { PromoKeepsSchema(db, e.promo, e.terms); }
  }

  lemma OutsideKeepsUses(limit: int, net: Net, e: Event)
    requires UsesOk(net.db, net.txs) && SchemaOk(net.db) && IsOutside(e)
    ensures UsesOk(Apply(limit, net.db, e), net.txs)
  {
    OutsideKeepsMaximum(limit, net.db, e);
  }

  ghost predicate TxnsOk(db: Db, txs: map<TxId, Txn>) {
    SchemaOk(db) && forall id :: id in txs ==> TxnOk(db, txs[id])
  }

  lemma TxnsAreOk(net: Net)
    requires LockInv(net)
    ensures TxnsOk(net.db, net.txs)
  {
  }

  lemma MoveKeepsUses(limit: int, net: Net, m: Move)
    requires TxnsOk(net.db, net.txs) && UsesOk(net.db, net.txs) && OneCreatePerPromo(net) && Enabled(net, m)
    ensures UsesOk(Next(limit, net, m).db, Next(limit, net, m).txs)
  {
    match m
    case Start(id, req) =>
    case Statement(id, rows) => StatementKeepsUses(limit, net, id, rows);
    case Commit(id) => CommitKeepsUses(net, id);
    case Abort(id) =>
    case Outside(e) => OutsideKeepsUses(limit, net, e);
  }

  lemma MoveKeepsMaxInv(limit: int, net: Net, m: Move)
    requires MaxInv(net) && OneCreatePerPromo(net) && Enabled(net, m)
    ensures MaxInv(Next(limit, net, m))
  {
    MoveKeepsLockInv(limit, net, m);
    TxnsAreOk(net);
    MoveKeepsUses(limit, net, m);
  }

  lemma {:induction false} RunKeepsMaxInv(limit: int, nets: seq<Net>, moves: seq<Move>, i: nat)
    requires IsRun(limit, nets, moves) && MaxInv(nets[0]) && i < |nets|
    requires forall k :: 0 <= k < i ==> OneCreatePerPromo(nets[k])
    ensures MaxInv(nets[i])
  {
    if i > 0 {
      RunKeepsMaxInv(limit, nets, moves, i - 1);
      MoveKeepsMaxInv(limit, nets[i - 1], moves[i - 1]);
    }
  }

  // In every interleaving in which no two Creates claim one promo at once, no promo is ever used
  // beyond its maximum. Updates and Cancels, which only give uses back, may overlap as they like.
  lemma InterleavedMaximum(limit: int, nets: seq<Net>, moves: seq<Move>, i: nat)
    requires IsRun(limit, nets, moves) && i < |nets|
    requires SchemaOk(nets[0].db) && UsesWithinMax(nets[0].db.promos) && nets[0].txs == map[]
    requires forall k :: 0 <= k < i ==> OneCreatePerPromo(nets[k])
    ensures UsesWithinMax(nets[i].db.promos)
  {
    RunKeepsMaxInv(limit, nets, moves, i);
  }

  // ---- The rate limit ----

  // Requests that have found the rate limit respected.
  predicate PastLimit(t: Txn) {
    LogEntry(t.req).Some? && t.phase !in {Reading, Limiting}
  }

  ghost predicate OneCallPerRate(net: Net) {
    forall a, b :: a in net.txs && b in net.txs && a != b && PastLimit(net.txs[a]) && PastLimit(net.txs[b]) ==>
      !Matches(LogEntry(net.txs[a].req).value, LogEntry(net.txs[b].req).value.user, LogEntry(net.txs[b].req).value.kind)
  }

  // When the rate limit was tested.
  function CheckedAt(req: Request): Time {
    match req
    case CreateRequest(c) => c.at.checked
    case UpdateRequest(u) => u.at.checked
    case CancelRequest(_) => 0
  }

  // No transaction starts before its rate limit is tested.
  predicate StartsAfterCheck(req: Request) {
    LogEntry(req).Some? ==> CheckedAt(req) <= LogEntry(req).value.at
  }

  ghost predicate InOrder(net: Net) {
    forall id :: id in net.txs ==> StartsAfterCheck(net.txs[id].req)
  }

  // What the request has found is still so.
  ghost predicate StillWithinRate(limit: int, db: Db, t: Txn) {
    PastLimit(t) ==>
      !RateLimited(db.ops, LogEntry(t.req).value.user, LogEntry(t.req).value.kind, limit, CheckedAt(t.req))
  }

  ghost predicate RateInv(limit: int, net: Net) {
    && Spaced(limit, net.db.ops)
    && forall id :: id in net.txs ==> StillWithinRate(limit, net.db, net.txs[id])
  }

  lemma StatementKeepsRate(limit: int, db: Db, t: Txn, rows: seq<Item>)
    requires StillWithinRate(limit, db, t) && Advance(limit, db, t, rows).Some?
    ensures StillWithinRate(limit, db, Advance(limit, db, t, rows).value)
  {
    StatementKeepsRequest(limit, db, t, rows);
  }

  lemma LogKeepsSpacing(limit: int, db: Db, t: Txn)
    requires Spaced(limit, db.ops) && StillWithinRate(limit, db, t) && PastLimit(t) && StartsAfterCheck(t.req)
    ensures Spaced(limit, db.ops + [LogEntry(t.req).value])
  {
    var op := LogEntry(t.req).value;
    LastOperationIsLatest(db.ops, op.user, op.kind);
  }

  lemma OtherEntriesDoNotCount(ops: seq<Operation>, op: Operation, user: UserId, kind: OperationType)
    requires !Matches(op, user, kind)
    ensures LastOperation(ops + [op], user, kind) == LastOperation(ops, user, kind)
  {
    assert (ops + [op])[..|ops|] == ops;
  }

  lemma CommitKeepsRate(limit: int, net: Net, id: TxId)
    requires RateInv(limit, net) && OneCallPerRate(net) && InOrder(net)
    requires id in net.txs && net.txs[id].phase == Ready && net.txs[id].order.Some?
    ensures var next := Publish(net.db, net.txs[id]);
            Spaced(limit, next.ops) && forall k :: k in net.txs && k != id ==> StillWithinRate(limit, next, net.txs[k])
  {
    var t := net.txs[id];
    var next := Publish(net.db, t);
    if LogEntry(t.req).Some? {
      LogKeepsSpacing(limit, net.db, t);
      forall k | k in net.txs && k != id && PastLimit(net.txs[k]) ensures StillWithinRate(limit, next, net.txs[k]) {
        var op := LogEntry(net.txs[k].req).value;
        OtherEntriesDoNotCount(net.db.ops, LogEntry(t.req).value, op.user, op.kind);
      }
    } else {
      assert next.ops == net.db.ops;
    }
  }

  lemma MoveKeepsRateInv(limit: int, net: Net, m: Move)
    requires RateInv(limit, net) && OneCallPerRate(net) && InOrder(net) && Enabled(net, m)
    ensures RateInv(limit, Next(limit, net, m))
  {
    match m
    case Start(id, req) =>
    case Statement(id, rows) =>
      if Advance(limit, net.db, net.txs[id], rows).Some? {
        StatementKeepsRate(limit, net.db, net.txs[id], rows);
      }
    case Commit(id) =>
      if !Collides(net.db, net.txs[id]) { CommitKeepsRate(limit, net, id); }
    case Abort(id) =>
    case Outside(e) => OutsideOrders(limit, net.db, e, 0);
  }

  lemma {:induction false} RunKeepsRateInv(limit: int, nets: seq<Net>, moves: seq<Move>, i: nat)
    requires IsRun(limit, nets, moves) && RateInv(limit, nets[0]) && i < |nets|
    requires forall k :: 0 <= k < i ==> OneCallPerRate(nets[k]) && InOrder(nets[k])
    ensures RateInv(limit, nets[i])
  {
    if i > 0 {
      RunKeepsRateInv(limit, nets, moves, i - 1);
      MoveKeepsRateInv(limit, nets[i - 1], moves[i - 1]);
    }
  }

  // In every interleaving in which no two Creates of one user, nor two Updates of one caller, overlap
  // from their rate limit test on, their log entries are at least the limit apart, so a window of
  // length W holds at most W / limit + 1 of them. No common clock is needed.
  lemma InterleavedRateLimit(limit: int, nets: seq<Net>, moves: seq<Move>, i: nat, user: UserId, kind: OperationType,
                             from: Time, length: int)
    requires IsRun(limit, nets, moves) && i < |nets|
    requires Spaced(limit, nets[0].db.ops) && nets[0].txs == map[]
    requires forall k :: 0 <= k < i ==> OneCallPerRate(nets[k]) && InOrder(nets[k])
    ensures Spaced(limit, nets[i].db.ops)
    ensures limit > 0 && length >= 0 ==> CountIn(nets[i].db.ops, user, kind, from, length) <= length / limit + 1
  {
    RunKeepsRateInv(limit, nets, moves, i);
    if limit > 0 && length >= 0 {
      WindowBound(limit, nets[i].db.ops, user, kind, from, length);
    }
  }
}
