/**
 What goes wrong when requests do overlap: the hypothesis of interleaved conservation, and the limits
 of what unlocked reads guarantee.
 */
module Overlaps {
  import Invariant
  import opened Schema
  import opened Reservation
  import opened OrderRules
  import opened Balance
  import opened Interleaving
  import opened LockProofs
  import opened Solo
  import opened SupplyRuns

  // Some run of the system goes from one state to another.
  ghost predicate Leads(limit: int, from: Net, to: Net) {
    exists nets, moves :: IsRun(limit, nets, moves) && nets[0] == from && nets[|nets| - 1] == to
  }

  lemma LeadsNowhere(limit: int, net: Net)
    ensures Leads(limit, net, net)
  {
    assert IsRun(limit, [net], []);
  }

  lemma LeadsOn(limit: int, from: Net, to: Net, m: Move)
    requires Leads(limit, from, to) && Enabled(to, m)
    ensures Leads(limit, from, Next(limit, to, m))
  {
    var nets, moves :| IsRun(limit, nets, moves) && nets[0] == from && nets[|nets| - 1] == to;
    var more, steps := nets + [Next(limit, to, m)], moves + [m];
    forall i | 0 <= i < |steps|
      ensures Enabled(more[i], steps[i]) && more[i + 1] == Next(limit, more[i], steps[i])
    {
      if i < |moves| { assert Enabled(nets[i], moves[i]); }
    }
    assert IsRun(limit, more, steps);
  }

  // Where a Create gets to.
  predicate OnCreatePath(t: Txn) {
    t.req.CreateRequest? && t.phase !in {Reading, Fetching, Restoring, Reviewing, Refunding}
  }

  // `other` holds no row that t can come to want: none at all, or only products t does not order.
  ghost predicate OutOfWay(t: Txn, other: Txn) {
    && other.promos == map[] && other.order.None?
    && (other.products == map[] ||
        (OnCreatePath(t) && forall i :: 0 <= i < |LinesOfRequest(t.req)| ==>
            LinesOfRequest(t.req)[i].product !in other.products))
  }

  lemma StaysOutOfWay(limit: int, db: Db, t: Txn, rows: seq<Item>, other: Txn)
    requires OutOfWay(t, other) && Advance(limit, db, t, rows).Some?
    ensures OutOfWay(Advance(limit, db, t, rows).value, other)
  {
    StatementKeepsRequest(limit, db, t, rows);
    if OnCreatePath(t) {
      StaysOnCreatePath(limit, db, t, rows);
    }
  }

  lemma StaysOnCreatePath(limit: int, db: Db, t: Txn, rows: seq<Item>)
    requires OnCreatePath(t) && Advance(limit, db, t, rows).Some?
    ensures OnCreatePath(Advance(limit, db, t, rows).value)
  {
    if t.phase == Pricing { PriceShape(db, t); }
  }

  // A transaction runs to its commit point while the others are out of its way.
  lemma {:induction false} AloneLeads(limit: int, from: Net, net: Net, id: TxId)
    requires Leads(limit, from, net) && id in net.txs && Alone(limit, net.db, net.txs[id]).Some?
    requires forall k :: k in net.txs && k != id ==> OutOfWay(net.txs[id], net.txs[k])
    ensures Leads(limit, from, net.(txs := net.txs[id := Alone(limit, net.db, net.txs[id]).value]))
    decreases PhasesLeft(net.txs[id].phase), RoundsLeft(net.txs[id])
  {
    var t := net.txs[id];
    if t.phase == Ready {
      assert net.txs[id := t] == net.txs;
    } else {
      var rows := ItemsOf(net.db.items, Target(t.req));
      var next := Advance(limit, net.db, t, rows).value;
      StatementsRunOut(limit, net.db, t, rows);
      LeadsOn(limit, from, net, Statement(id, rows));
      var after := net.(txs := net.txs[id := next]);
      forall k | k in after.txs && k != id ensures OutOfWay(next, after.txs[k]) {
        StaysOutOfWay(limit, net.db, t, rows, net.txs[k]);
      }
      AloneLeads(limit, from, after, id);
      assert after.txs[id := Alone(limit, net.db, t).value] == net.txs[id := Alone(limit, net.db, t).value];
    }
  }

  // ---- Two Cancels on one order ----

  function ReadForCancel(db: Db, x: CancelInput): Txn
    requires x.order in db.orders
  {
    Begin(CancelRequest(x)).(seen := Some(db.orders[x.order]), phase := Fetching)
  }

  // The first of them commits: the order is canceled and its units are back.
  lemma FirstCancel(limit: int, db: Db, x: CancelInput)
    requires SchemaOk(db) && x.order in db.orders && FitsBack(db.products, OldLines(db, x.order))
    ensures var end := Alone(limit, db, ReadForCancel(db, x));
            && end.Some? && end.value.phase == Ready && end.value.order.Some? && end.value.req == CancelRequest(x)
            && var next := Publish(db, end.value);
               && SchemaOk(next) && next.items == db.items && next.products == Given(db.products, OldLines(db, x.order))
               && next.orders == db.orders[x.order := db.orders[x.order].(status := CANCELED)]
  {
    var t := ReadForCancel(db, x);
    CancelAloneInTx(limit, db, t);
    OldLinesPositive(db, x.order);
    ReleasedRowsOk(db.products, OldLines(db, x.order));
    var end := Alone(limit, db, t).value;
    CanceledSchema(db, x.order, Publish(db, end));
  }

  lemma CanceledSchema(db: Db, o: OrderId, next: Db)
    requires SchemaOk(db) && o in db.orders && ProductsOk(next.products) && next.products.Keys == db.products.Keys
    requires next.orders == db.orders[o := db.orders[o].(status := CANCELED)]
    requires next.users == db.users && next.codes == db.codes && next.items == db.items
    requires next.promos == (if db.orders[o].promo.Some? then Refunded(db.promos, db.orders[o].promo.value)
        else db.promos)
    ensures SchemaOk(next)
  {
    if db.orders[o].promo.Some? {
      Invariant.RefundKeepsPromosOk(db.promos, db.codes, db.orders[o].promo.value);
    }
  }

  // The second, which read the order while it was still active, gives the same units back once more.
  lemma SecondCancel(limit: int, db: Db, x: CancelInput, t: Txn)
    requires SchemaOk(db) && x.order in db.orders && db.orders[x.order].status == CANCELED
    requires t.seen.Some? && t == Begin(CancelRequest(x)).(seen := t.seen, phase := Fetching)
    requires FitsBack(db.products, OldLines(db, x.order))
    ensures var end := Alone(limit, db, t);
            && end.Some? && end.value.phase == Ready && end.value.order.Some? && end.value.req == CancelRequest(x)
            && var next := Publish(db, end.value);
               next.items == db.items && next.orders == db.orders
                   && next.products == Given(db.products, OldLines(db, x.order))
  {
    CancelAloneInTx(limit, db, t);
  }

  // Without the hypothesis conservation fails whenever an active order holds units: two overlapping
  // Cancels by its owner return them twice.
  lemma OverlappingCancelsCreateStock(limit: int, db: Db, x: CancelInput, p: ProductId)
    requires SchemaOk(db) && x.order in db.orders && IsActive(db.orders[x.order])
    requires MayTouch(db.orders[x.order], x.caller, x.role) && p in db.products
    requires forall q :: q in db.products ==> db.products[q].stock + 2 * Load(db, x.order, q) <= MAX_INT
    ensures exists last: Net :: Leads(limit, Net(db, map[]), last) && last.txs == map[] &&
                                Supply(last.db, p) == Supply(db, p) + Load(db, x.order, p)
  {
    RoomForTwo(db, x.order);
    var first, second := BothCancel(limit, db, x);
    SupplyAfterBoth(db, x.order, first, second, p);
  }

  lemma BothCancel(limit: int, db: Db, x: CancelInput) returns (first: Db, second: Db)
    requires SchemaOk(db) && x.order in db.orders && IsActive(db.orders[x.order])
    requires MayTouch(db.orders[x.order], x.caller, x.role) && FitsBack(db.products, OldLines(db, x.order))
    requires FitsBack(Given(db.products, OldLines(db, x.order)), OldLines(db, x.order))
    ensures Leads(limit, Net(db, map[]), Net(second, map[]))
    ensures first.products == Given(db.products, OldLines(db, x.order)) && first.items == db.items
    ensures first.orders == db.orders[x.order := db.orders[x.order].(status := CANCELED)]
    ensures second.products == Given(first.products, OldLines(db, x.order)) && second.items == db.items
    ensures second.orders == first.orders
  {
    var t := ReadForCancel(db, x);
    FirstCancel(limit, db, x);
    first := Publish(db, Alone(limit, db, t).value);
    assert OldLines(first, x.order) == OldLines(db, x.order);
    SecondCancel(limit, first, x, t);
    second := Publish(first, Alone(limit, first, t).value);
    BothRun(limit, db, x, first, second);
  }

  lemma RoomForTwo(db: Db, o: OrderId)
    requires SchemaOk(db) && Live(db, o)
    requires forall q :: q in db.products ==> db.products[q].stock + 2 * Load(db, o, q) <= MAX_INT
    ensures FitsBack(db.products, OldLines(db, o))
    ensures FitsBack(Given(db.products, OldLines(db, o)), OldLines(db, o))
  {
    var lines := OldLines(db, o);
    OldLinesPositive(db, o);
    forall i | 0 <= i < |lines| && lines[i].product in db.products
      ensures db.products[lines[i].product].stock + 2 * Demand(lines, lines[i].product) <= MAX_INT
      ensures Demand(lines, lines[i].product) >= 0
    {
      assert Load(db, o, lines[i].product) == Demand(lines, lines[i].product);
      DemandBounds(lines, lines[i].product);
    }
  }

  lemma BothRun(limit: int, db: Db, x: CancelInput, first: Db, second: Db)
    requires x.order in db.orders && IsActive(db.orders[x.order]) && MayTouch(db.orders[x.order], x.caller, x.role)
    requires var t := ReadForCancel(db, x);
             && Alone(limit, db, t).Some? && Alone(limit, db, t).value.phase == Ready
                  && Alone(limit, db, t).value.order.Some?
             && Alone(limit, db, t).value.req == t.req && first == Publish(db, Alone(limit, db, t).value)
             && Alone(limit, first, t).Some? && Alone(limit, first, t).value.phase == Ready
                  && Alone(limit, first, t).value.order.Some?
             && Alone(limit, first, t).value.req == t.req && second == Publish(first, Alone(limit, first, t).value)
    ensures Leads(limit, Net(db, map[]), Net(second, map[]))
  {
    var start, t := Net(db, map[]), ReadForCancel(db, x);
    BothStart(limit, db, CancelRequest(x), start);
    BothRead(limit, db, x, start);
    var both := Net(db, map[1 := t, 2 := t]);
    CommitAlone(limit, start, both, 1);
    assert both.txs - {1} == map[2 := t];
    CommitAlone(limit, start, Net(first, map[2 := t]), 2);
    assert map[2 := t] - {2} == map[];
  }

  lemma BothStart(limit: int, db: Db, req: Request, start: Net)
    requires start == Net(db, map[]) && Positive(LinesOfRequest(req))
    ensures Leads(limit, start, Net(db, map[1 := Begin(req), 2 := Begin(req)]))
  {
    LeadsNowhere(limit, start);
    LeadsOn(limit, start, start, Start(1, req));
    var one := Net(db, map[1 := Begin(req)]);
    assert Next(limit, start, Start(1, req)) == one;
    LeadsOn(limit, start, one, Start(2, req));
    assert one.txs[2 := Begin(req)] == map[1 := Begin(req), 2 := Begin(req)];
  }

  lemma BothRead(limit: int, db: Db, x: CancelInput, start: Net)
    requires x.order in db.orders && IsActive(db.orders[x.order]) && MayTouch(db.orders[x.order], x.caller, x.role)
    requires Leads(limit, start, Net(db, map[1 := Begin(CancelRequest(x)), 2 := Begin(CancelRequest(x))]))
    ensures Leads(limit, start, Net(db, map[1 := ReadForCancel(db, x), 2 := ReadForCancel(db, x)]))
  {
    var begun, t := Begin(CancelRequest(x)), ReadForCancel(db, x);
    var two := Net(db, map[1 := begun, 2 := begun]);
    assert ReadOrder(db, begun) == Some(t);
    LeadsOn(limit, start, two, Statement(1, []));
    var half := Net(db, map[1 := t, 2 := begun]);
    assert two.txs[1 := t] == half.txs;
    assert Next(limit, two, Statement(1, [])) == half;
    LeadsOn(limit, start, half, Statement(2, []));
    assert half.txs[2 := t] == map[1 := t, 2 := t];
  }

  // Run transaction id to its end, and commit it.
  lemma CommitAlone(limit: int, start: Net, net: Net, id: TxId)
    requires Leads(limit, start, net) && id in net.txs && !Collides(net.db, net.txs[id])
    requires forall k :: k in net.txs && k != id ==> OutOfWay(net.txs[id], net.txs[k])
    requires var end := Alone(limit, net.db, net.txs[id]);
             end.Some? && end.value.phase == Ready && end.value.order.Some? && end.value.req == net.txs[id].req
    ensures Leads(limit, start, Net(Publish(net.db, Alone(limit, net.db, net.txs[id]).value), net.txs - {id}))
  {
    var end := Alone(limit, net.db, net.txs[id]).value;
    AloneLeads(limit, start, net, id);
    var ready := net.(txs := net.txs[id := end]);
    LeadsOn(limit, start, ready, Commit(id));
    assert net.txs[id := end] - {id} == net.txs - {id};
  }

  lemma SupplyAfterBoth(db: Db, o: OrderId, first: Db, second: Db, p: ProductId)
    requires SchemaOk(db) && Live(db, o) && p in db.products
    requires first.products == Given(db.products, OldLines(db, o)) && first.items == db.items
    requires first.orders == db.orders[o := db.orders[o].(status := CANCELED)]
    requires second.products == Given(first.products, OldLines(db, o)) && second.items == db.items
    requires second.orders == first.orders
    ensures Supply(second, p) == Supply(db, p) + Load(db, o, p)
  {
    var canceled := db.(orders := first.orders);
    ReservedChange(db, canceled, o, p);
    SameOrdersSameReserved(canceled, second, p);
  }

  // ---- Two Creates of one user ----

  // Two Creates that both pass the test for an active order can both commit: the test takes no lock.
  // Nor does the rate limit keep their log entries apart.
  lemma OverlappingCreatesBothCommit(limit: int, db: Db, c: CreateInput, d: CreateInput)
    requires SchemaOk(db) && Positive(c.lines) && Positive(d.lines) && c.user == d.user && c.id != d.id
    requires CreateOutcome(limit, db, c).result.Ok?
    requires !RateLimited(db.ops, d.user, CREATE_ORDER, limit, d.at.checked)
    requires CreatePastGuards(CreateOutcome(limit, db, c).db, d).result.Ok?
    ensures exists last: Net ::
              && Leads(limit, Net(db, map[]), last) && last.txs == map[]
              && last.db.ops == db.ops + [Operation(c.user, CREATE_ORDER, c.at.started),
                   Operation(c.user, CREATE_ORDER, d.at.started)]
              && c.id in last.db.orders && IsActive(last.db.orders[c.id]) && last.db.orders[c.id].user == c.user
              && d.id in last.db.orders && IsActive(last.db.orders[d.id]) && last.db.orders[d.id].user == c.user
  {
    UnguardedCreate(limit, db, c);
    BothCommit(limit, db, c, d);
    BothOrdersThere(db, c, d);
  }

  lemma UnguardedCreate(limit: int, db: Db, c: CreateInput)
    requires CreateOutcome(limit, db, c).result.Ok?
    ensures !RateLimited(db.ops, c.user, CREATE_ORDER, limit, c.at.checked) && !HasActive(db.orders, c.user)
    ensures CreateOutcome(limit, db, c) == CreatePastGuards(db, c)
  {
  }

  lemma BothCommit(limit: int, db: Db, c: CreateInput, d: CreateInput)
    requires SchemaOk(db) && Positive(c.lines) && Positive(d.lines) && c.user == d.user && !HasActive(db.orders, c.user)
    requires !RateLimited(db.ops, c.user, CREATE_ORDER, limit, c.at.checked)
    requires !RateLimited(db.ops, d.user, CREATE_ORDER, limit, d.at.checked)
    requires CreatePastGuards(db, c).result.Ok? && CreatePastGuards(CreatePastGuards(db, c).db, d).result.Ok?
    ensures Leads(limit, Net(db, map[]), Net(CreatePastGuards(CreatePastGuards(db, c).db, d).db, map[]))
  {
    var start := Net(db, map[]);
    BothPastGuards(limit, db, c, d);
    FirstCommits(limit, start, db, c, d);
    LastCommits(limit, start, CreatePastGuards(db, c).db, d);
  }

  lemma FirstCommits(limit: int, start: Net, db: Db, c: CreateInput, d: CreateInput)
    requires Leads(limit, start, Net(db, map[1 := PastGuards(c), 2 := PastGuards(d)]))
    requires SchemaOk(db) && Positive(c.lines) && CreatePastGuards(db, c).result.Ok?
    ensures Leads(limit, start, Net(CreatePastGuards(db, c).db, map[2 := PastGuards(d)]))
  {
    var both := map[1 := PastGuards(c), 2 := PastGuards(d)];
    OneCommits(limit, start, Net(db, both), 1, c);
    assert both - {1} == map[2 := PastGuards(d)];
  }

  lemma LastCommits(limit: int, start: Net, db: Db, d: CreateInput)
    requires SchemaOk(start.db) && start.txs == map[] && Leads(limit, start, Net(db, map[2 := PastGuards(d)]))
    requires Positive(d.lines) && CreatePastGuards(db, d).result.Ok?
    ensures Leads(limit, start, Net(CreatePastGuards(db, d).db, map[]))
  {
    var net := Net(db, map[2 := PastGuards(d)]);
    LeadsKeepsSchema(limit, start, net);
    OneCommits(limit, start, net, 2, d);
    assert map[2 := PastGuards(d)] - {2} == map[];
  }

  lemma BothOrdersThere(db: Db, c: CreateInput, d: CreateInput)
    requires c.user == d.user && c.id != d.id && CreatePastGuards(db, c).result.Ok?
    requires CreatePastGuards(CreatePastGuards(db, c).db, d).result.Ok?
    ensures var last := CreatePastGuards(CreatePastGuards(db, c).db, d).db;
            && last.ops == db.ops + [Operation(c.user, CREATE_ORDER, c.at.started),
                 Operation(c.user, CREATE_ORDER, d.at.started)]
            && c.id in last.orders && IsActive(last.orders[c.id]) && last.orders[c.id].user == c.user
            && d.id in last.orders && IsActive(last.orders[d.id]) && last.orders[d.id].user == c.user
  {
    InsertedOrder(db, c);
    InsertedOrder(CreatePastGuards(db, c).db, d);
  }

  lemma OneCommits(limit: int, start: Net, net: Net, id: TxId, c: CreateInput)
    requires Leads(limit, start, net) && SchemaOk(net.db) && Positive(c.lines)
    requires id in net.txs && net.txs[id] == PastGuards(c) && CreatePastGuards(net.db, c).result.Ok?
    requires forall k :: k in net.txs && k != id ==> OutOfWay(net.txs[id], net.txs[k])
    ensures Leads(limit, start, Net(CreatePastGuards(net.db, c).db, net.txs - {id}))
  {
    CreateAloneInTx(limit, net.db, c);
    InsertedOrder(net.db, c);
    AloneIsReady(limit, net.db, PastGuards(c));
    CommitAlone(limit, start, net, id);
  }

  function PastGuards(c: CreateInput): Txn {
    Begin(CreateRequest(c)).(phase := Checking)
  }

  lemma InsertedOrder(db: Db, c: CreateInput)
    requires CreatePastGuards(db, c).result.Ok?
    ensures var next := CreatePastGuards(db, c).db;
            && c.id !in db.orders && next.orders == db.orders[c.id := next.orders[c.id]]
            && IsActive(next.orders[c.id]) && next.orders[c.id].user == c.user
            && next.ops == db.ops + [Operation(c.user, CREATE_ORDER, c.at.started)]
  {
  }

  lemma AloneIsReady(limit: int, db: Db, t: Txn)
    requires Alone(limit, db, t).Some?
    ensures Alone(limit, db, t).value.phase == Ready && Alone(limit, db, t).value.req == t.req
    decreases PhasesLeft(t.phase), RoundsLeft(t)
  {
    if t.phase != Ready {
      var rows := ItemsOf(db.items, Target(t.req));
      StatementsRunOut(limit, db, t, rows);
      StatementKeepsRequest(limit, db, t, rows);
      AloneIsReady(limit, db, Advance(limit, db, t, rows).value);
    }
  }

  lemma LeadsKeepsSchema(limit: int, from: Net, to: Net)
    requires Leads(limit, from, to) && SchemaOk(from.db) && from.txs == map[]
    ensures SchemaOk(to.db)
  {
    var nets, moves :| IsRun(limit, nets, moves) && nets[0] == from && nets[|nets| - 1] == to;
    RunKeepsLockInv(limit, nets, moves, |nets| - 1);
  }

  lemma BothPastGuards(limit: int, db: Db, c: CreateInput, d: CreateInput)
    requires Positive(c.lines) && Positive(d.lines) && !HasActive(db.orders, c.user) && !HasActive(db.orders, d.user)
    requires !RateLimited(db.ops, c.user, CREATE_ORDER, limit, c.at.checked)
    requires !RateLimited(db.ops, d.user, CREATE_ORDER, limit, d.at.checked)
    ensures Leads(limit, Net(db, map[]), Net(db, map[1 := PastGuards(c), 2 := PastGuards(d)]))
  {
    var start := Net(db, map[]);
    LeadsNowhere(limit, start);
    OnePastGuards(limit, start, start, 1, c);
    var one := Net(db, map[1 := PastGuards(c)]);
    assert start.txs[1 := PastGuards(c)] == one.txs;
    OnePastGuards(limit, start, one, 2, d);
    assert one.txs[2 := PastGuards(d)] == map[1 := PastGuards(c), 2 := PastGuards(d)];
  }

  lemma OnePastGuards(limit: int, start: Net, net: Net, id: TxId, c: CreateInput)
    requires Leads(limit, start, net) && id !in net.txs && Positive(c.lines)
    requires !HasActive(net.db.orders, c.user) && !RateLimited(net.db.ops, c.user, CREATE_ORDER, limit, c.at.checked)
    ensures Leads(limit, start, net.(txs := net.txs[id := PastGuards(c)]))
  {
    var begun := Begin(CreateRequest(c));
    var tested := begun.(phase := Testing);
    LeadsOn(limit, start, net, Start(id, CreateRequest(c)));
    var first := net.(txs := net.txs[id := begun]);
    LeadsOn(limit, start, first, Statement(id, []));
    var second := net.(txs := net.txs[id := tested]);
    assert first.txs[id := tested] == second.txs;
    LeadsOn(limit, start, second, Statement(id, []));
    assert second.txs[id := PastGuards(c)] == net.txs[id := PastGuards(c)];
  }

  // ---- Promo uses beyond the maximum ----

  // A Create of a single line that has read its promo and not yet taken the use.
  function AtUsing(db: Db, c: CreateInput, quote: Quote): Txn
    requires |c.lines| == 1 && c.lines[0].product in db.products
  {
    AfterTake(db, c).(promo := quote.promo, discount := quote.discount, phase := Using)
  }

  lemma ReachesUsing(limit: int, start: Net, net: Net, id: TxId, c: CreateInput, quote: Quote)
    requires Leads(limit, start, net) && SchemaOk(net.db) && Positive(c.lines) && |c.lines| == 1
    requires id in net.txs && net.txs[id] == PastGuards(c) && Reserve(net.db.products, c.lines).Ok?
    requires AllFound(net.db.products, c.lines)
    requires c.code.Some? && QuoteNew(net.db.promos, net.db.codes, Gross(Snapshot(net.db.products, c.lines)), c.code,
        c.at.priced) == Ok(quote)
    requires forall k :: k in net.txs && k != id ==> net.txs[k].products == map[]
    ensures Leads(limit, start, net.(txs := net.txs[id := AtUsing(net.db, c, quote)]))
  {
    var checked, taken := AfterCheck(net.db, c), AfterTake(net.db, c);
    assert net.txs[id := PastGuards(c)] == net.txs;
    ChecksOne(limit, net.db, c);
    OneStatement(limit, start, net, id, PastGuards(c), checked);
    OneStatement(limit, start, net, id, checked, checked.(phase := Taking));
    TakesOne(limit, net.db, c);
    OneStatement(limit, start, net, id, checked.(phase := Taking), taken);
    OneStatement(limit, start, net, id, taken, taken.(phase := Pricing));
    PricesOne(limit, net.db, c, quote);
    OneStatement(limit, start, net, id, taken.(phase := Pricing), AtUsing(net.db, c, quote));
  }

  function AfterCheck(db: Db, c: CreateInput): Txn
    requires |c.lines| == 1 && c.lines[0].product in db.products
  {
    var p := c.lines[0].product;
    PastGuards(c).(entries := [db.products[p]], products := map[p := db.products[p]])
  }

  function AfterTake(db: Db, c: CreateInput): Txn
    requires |c.lines| == 1 && c.lines[0].product in db.products
  {
    var p := c.lines[0].product;
    var row := db.products[p];
    AfterCheck(db, c).(taken := 1, products := map[p := row.(stock := row.stock - c.lines[0].quantity)],
        phase := Taking)
  }

  lemma ChecksOne(limit: int, db: Db, c: CreateInput)
    requires Positive(c.lines) && |c.lines| == 1 && Reserve(db.products, c.lines).Ok? && AllFound(db.products, c.lines)
    ensures Advance(limit, db, PastGuards(c), []) == Some(AfterCheck(db, c))
    ensures Advance(limit, db, AfterCheck(db, c), []) == Some(AfterCheck(db, c).(phase := Taking))
    ensures c.lines[0].quantity <= db.products[c.lines[0].product].stock
  {
    var p := c.lines[0].product;
    ReserveAccepts(db.products, c.lines);
    DemandBounds(c.lines, p);
    var t := PastGuards(c);
    assert SeenProducts(db, t)[p] == db.products[p];
    assert t.products[p := db.products[p]] == AfterCheck(db, c).products
        && t.entries + [db.products[p]] == AfterCheck(db, c).entries;
  }

  lemma TakesOne(limit: int, db: Db, c: CreateInput)
    requires SchemaOk(db) && Positive(c.lines) && |c.lines| == 1 && c.lines[0].product in db.products
    requires c.lines[0].quantity <= db.products[c.lines[0].product].stock
    ensures Advance(limit, db, AfterCheck(db, c).(phase := Taking), []) == Some(AfterTake(db, c))
    ensures Advance(limit, db, AfterTake(db, c), []) == Some(AfterTake(db, c).(phase := Pricing))
  {
    var p := c.lines[0].product;
    assert ProductRowOk(db.products[p]);
    var t := AfterCheck(db, c).(phase := Taking);
    assert SeenProducts(db, t)[p] == db.products[p];
    assert t.products[p := AfterTake(db, c).products[p]] == AfterTake(db, c).products;
    assert TakeNext(db, t) == Some(t.(taken := 1, products := AfterTake(db, c).products));
  }

  lemma PricesOne(limit: int, db: Db, c: CreateInput, quote: Quote)
    requires |c.lines| == 1 && AllFound(db.products, c.lines) && c.code.Some?
    requires QuoteNew(db.promos, db.codes, Gross(Snapshot(db.products, c.lines)), c.code, c.at.priced) == Ok(quote)
    ensures Advance(limit, db, AfterTake(db, c).(phase := Pricing), []) == Some(AtUsing(db, c, quote))
  {
    var t := AfterTake(db, c).(phase := Pricing);
    assert RowsOf(t) == Snapshot(db.products, c.lines);
    assert SeenPromos(db, t) == db.promos;
  }

  // One statement of a Create up to its promo, with nobody else holding a product.
  lemma OneStatement(limit: int, start: Net, net: Net, id: TxId, t: Txn, next: Txn)
    requires Leads(limit, start, net.(txs := net.txs[id := t])) && Advance(limit, net.db, t, []) == Some(next)
    requires t.phase in {Checking, Taking, Pricing}
    requires forall k :: k in net.txs && k != id ==> net.txs[k].products == map[]
    ensures Leads(limit, start, net.(txs := net.txs[id := next]))
  {
    var now := net.(txs := net.txs[id := t]);
    LeadsOn(limit, start, now, Statement(id, []));
    assert now.txs[id := next] == net.txs[id := next];
  }

  // The request that was kept waiting takes its use on top of what has been used up meanwhile.
  lemma UsesAnyway(limit: int, db: Db, c: CreateInput, quote: Quote, later: Db)
    requires |c.lines| == 1 && AllFound(db.products, c.lines) && c.user in later.users && quote.promo.Some?
    requires OrderRowOk(NewOrder(c.user, quote, Gross(Snapshot(db.products, c.lines))))
    requires quote.promo.value in later.promos && later.promos[quote.promo.value].uses < MAX_INT
    ensures var end := Alone(limit, later, AtUsing(db, c, quote));
            && end.Some? && end.value.phase == Ready && end.value.order.Some? && end.value.req == CreateRequest(c)
            && quote.promo.value in end.value.promos
            && end.value.promos[quote.promo.value].uses == later.promos[quote.promo.value].uses + 1
  {
    var t := AtUsing(db, c, quote);
    assert RowsOf(t) == Snapshot(db.products, c.lines);
    UseTail(limit, later, t);
    var used := UsePromo(later, t).value;
    assert RowsOf(used) == RowsOf(t);
  }

  // The maximum of a promo holds only without overlaps: the read that tests it takes no lock, and the
  // increment has no bound of its own. Two Creates that find its last use free can both take it.
  lemma OverlappingCreatesOveruse(limit: int, db: Db, c: CreateInput, d: CreateInput)
    requires SchemaOk(db) && Positive(c.lines) && Positive(d.lines) && c.id != d.id
    requires CreateOutcome(limit, db, c).result.Ok? && CreateOutcome(limit, db, d).result.Ok?
    requires |c.lines| == 1 && forall i :: 0 <= i < |d.lines| ==> d.lines[i].product != c.lines[0].product
    requires c.code.Some? && d.code == c.code && c.code.value in db.codes && db.codes[c.code.value] in db.promos
    requires var promo := db.promos[db.codes[c.code.value]]; promo.uses + 1 == promo.maxUses < MAX_INT
    ensures exists last: Net ::
              && Leads(limit, Net(db, map[]), last) && last.txs == map[]
              && db.codes[c.code.value] in last.db.promos
              && last.db.promos[db.codes[c.code.value]].uses == db.promos[db.codes[c.code.value]].maxUses + 1
  {
    var start := Net(db, map[]);
    UnguardedCreate(limit, db, c);
    UnguardedCreate(limit, db, d);
    BothPastGuards(limit, db, c, d);
    var quote := QuoteOf(db, c);
    FirstReachesUsing(limit, start, db, c, d, quote);
    Overtakes(limit, start, db, AtUsing(db, c, quote), d);
    var later := CreatePastGuards(db, d).db;
    UseOfInserted(db, d);
    UsesAnyway(limit, db, c, quote, later);
    LastUses(limit, start, db, c, quote, later);
  }

  // What a successful Create was quoted.
  lemma QuoteOf(db: Db, c: CreateInput) returns (quote: Quote)
    requires CreatePastGuards(db, c).result.Ok? && c.code.Some?
    ensures Reserve(db.products, c.lines).Ok? && AllFound(db.products, c.lines)
    ensures QuoteNew(db.promos, db.codes, Gross(Snapshot(db.products, c.lines)), c.code, c.at.priced) == Ok(quote)
    ensures quote.promo == Some(db.codes[c.code.value]) && c.user in db.users && c.id !in db.orders
    ensures OrderRowOk(NewOrder(c.user, quote, Gross(Snapshot(db.products, c.lines))))
  {
    ReservedAllFound(db.products, c.lines);
    quote := QuoteNew(db.promos, db.codes, Gross(Snapshot(db.products, c.lines)), c.code, c.at.priced).value;
  }

  lemma UseOfInserted(db: Db, d: CreateInput)
    requires CreatePastGuards(db, d).result.Ok? && d.code.Some?
    ensures var next, r := CreatePastGuards(db, d).db, db.codes[d.code.value];
            && r in db.promos && next.users == db.users && next.orders.Keys == db.orders.Keys + {d.id}
            && next.promos.Keys == db.promos.Keys && next.promos[r].uses == db.promos[r].uses + 1
  {
  }

  lemma FirstReachesUsing(limit: int, start: Net, db: Db, c: CreateInput, d: CreateInput, quote: Quote)
    requires Leads(limit, start, Net(db, map[1 := PastGuards(c), 2 := PastGuards(d)]))
    requires SchemaOk(db) && Positive(c.lines) && |c.lines| == 1 && c.code.Some?
    requires Reserve(db.products, c.lines).Ok? && AllFound(db.products, c.lines)
    requires QuoteNew(db.promos, db.codes, Gross(Snapshot(db.products, c.lines)), c.code, c.at.priced) == Ok(quote)
    ensures Leads(limit, start, Net(db, map[1 := AtUsing(db, c, quote), 2 := PastGuards(d)]))
  {
    var both, stopped := map[1 := PastGuards(c), 2 := PastGuards(d)], AtUsing(db, c, quote);
    ReachesUsing(limit, start, Net(db, both), 1, c, quote);
    assert both[1 := stopped] == map[1 := stopped, 2 := PastGuards(d)];
  }

  lemma Overtakes(limit: int, start: Net, db: Db, stopped: Txn, d: CreateInput)
    requires Leads(limit, start, Net(db, map[1 := stopped, 2 := PastGuards(d)]))
    requires SchemaOk(db) && Positive(d.lines) && CreatePastGuards(db, d).result.Ok? && OutOfWay(PastGuards(d), stopped)
    ensures Leads(limit, start, Net(CreatePastGuards(db, d).db, map[1 := stopped]))
  {
    var txs := map[1 := stopped, 2 := PastGuards(d)];
    OneCommits(limit, start, Net(db, txs), 2, d);
    assert txs - {2} == map[1 := stopped];
  }

  lemma LastUses(limit: int, start: Net, db: Db, c: CreateInput, quote: Quote, later: Db)
    requires |c.lines| == 1 && AllFound(db.products, c.lines) && quote.promo.Some? && c.id !in later.orders
    requires Leads(limit, start, Net(later, map[1 := AtUsing(db, c, quote)]))
    requires var end := Alone(limit, later, AtUsing(db, c, quote));
             && end.Some? && end.value.phase == Ready && end.value.order.Some? && end.value.req == CreateRequest(c)
             && quote.promo.value in end.value.promos
    ensures exists last: Net ::
              && Leads(limit, start, last) && last.txs == map[] && quote.promo.value in last.db.promos
              && last.db.promos[quote.promo.value].uses
                   == Alone(limit, later, AtUsing(db, c, quote)).value.promos[quote.promo.value].uses
  {
    var net := Net(later, map[1 := AtUsing(db, c, quote)]);
    CommitAlone(limit, start, net, 1);
    assert net.txs - {1} == map[];
  }
}
