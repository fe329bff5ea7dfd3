/**
 Whole interleaved runs: the amounts stored in every state, and the serial run that an interleaved
 run comes to when competing requests do not overlap.
 */
module SerialOrder {
  import Money
  import opened Schema
  import opened Reservation
  import opened OrderRules
  import opened Balance
  import opened Invariant
  import opened RateLimitRuns
  import opened Runs
  import opened ReachableFacts
  import opened Interleaving
  import opened LockProofs
  import opened NetProofs
  import opened Limits
  import opened SerialCommits

  // ---- Stored amounts ----

  lemma CreatedMatches(db: Db, t: Txn, c: CreateInput)
    requires t.req == CreateRequest(c) && t.phase == Ready && RowCurrent(db, t) && CodeQuoted(db, t, c)
    requires Gross(RowsOf(t)) >= 0
    ensures t.order.Some? && AmountsMatch(db.promos, t.order.value, Gross(RowsOf(t)))
  {
    PricedMatches(db.promos, Order(c.user, CREATED, None, 0, 0), Gross(RowsOf(t)), t.promo);
  }

  lemma UpdatedMatches(db: Db, t: Txn, u: UpdateInput)
    requires t.req == UpdateRequest(u) && t.phase == Ready && RowCurrent(db, t) && Reviewed(db, t, u)
    requires Gross(RowsOf(t)) >= 0
    requires u.order in db.orders
    ensures t.order.Some? && AmountsMatch(db.promos, t.order.value, Gross(RowsOf(t)))
  {
    PricedMatches(db.promos, db.orders[u.order], Gross(RowsOf(t)), t.promo);
  }

  lemma CanceledMatches(db: Db, t: Txn, x: CancelInput)
    requires t.req == CancelRequest(x) && t.phase == Ready && RowCurrent(db, t) && Settled(db) && x.order in db.orders
    ensures t.order.Some? && AmountsMatch(db.promos, t.order.value, Gross(ItemsOf(db.items, x.order)))
  {
  }

  lemma PublishedMatches(db: Db, t: Txn)
    requires Due(db, t) && Settled(db)
    ensures AmountsMatch(Publish(db, t).promos, t.order.value, Gross(ItemsOf(Publish(db, t).items, Target(t.req))))
  {
    PublishedItemsOk(db, t);
    GrossNonNegative(RowsOf(t));
    match t.req {
      case CreateRequest(c) => CreatedMatches(db, t, c);
      case UpdateRequest(u) => UpdatedMatches(db, t, u);
      case CancelRequest(x) => CanceledMatches(db, t, x);
    }
    PublishKeepsTerms(db, t);
    AmountsKeepMatching(db.promos, Publish(db, t).promos, t.order.value,
        Gross(ItemsOf(Publish(db, t).items, Target(t.req))));
  }

  lemma PublishKeepsSettled(db: Db, t: Txn)
    requires Due(db, t) && Settled(db) && (t.req.CreateRequest? ==> Target(t.req) !in db.orders)
    ensures Settled(Publish(db, t))
  {
    PublishIsBalanced(db, t);
    PublishedMatches(db, t);
    OtherOrdersStaySettled(db, Publish(db, t), Target(t.req));
  }

  lemma OutsideKeepsSettled(limit: int, db: Db, e: Event)
    requires Settled(db) && IsOutside(e)
    ensures Settled(Apply(limit, db, e))
  {
    var next := Apply(limit, db, e);
    OutsideKeepsTerms(limit, db, e);
    forall o | o in next.orders ensures AmountsMatch(next.promos, next.orders[o], Gross(ItemsOf(next.items, o))) {
      OutsideKeepsAmounts(limit, db, e, o);
      AmountsKeepMatching(db.promos, next.promos, db.orders[o], Gross(ItemsOf(db.items, o)));
    }
  }

  lemma OutsideKeepsAmounts(limit: int, db: Db, e: Event, o: OrderId)
    requires IsOutside(e) && o in Apply(limit, db, e).orders
    ensures o in db.orders && Apply(limit, db, e).items == db.items
    ensures Apply(limit, db, e).orders[o].(status := CREATED) == db.orders[o].(status := CREATED)
  {
  }

  // Everything a commit needs in order to be due, of all transactions.
  ghost predicate DueInv(net: Net) {
    NetInv(net) && AllCurrent(net.db, net.txs) && AllPrepared(net.db, net.txs)
  }

  lemma MoveKeepsDueInv(limit: int, net: Net, m: Move)
    requires DueInv(net) && Exclusive(net) && Enabled(net, m)
    ensures DueInv(Next(limit, net, m))
  {
    MoveKeepsNetInv(limit, net, m);
    MoveKeepsCurrent(limit, net, m);
    MoveKeepsAllPrepared(limit, net, m);
  }

  lemma CommitIsDue(net: Net, id: TxId)
    requires DueInv(net) && Enabled(net, Commit(id))
    ensures Due(net.db, net.txs[id])
  {
  }

  lemma MoveKeepsSettled(limit: int, net: Net, m: Move)
    requires DueInv(net) && Enabled(net, m) && Settled(net.db)
    ensures Settled(Next(limit, net, m).db)
  {
    if m.Commit? && !Collides(net.db, net.txs[m.id]) {
      CommitIsDue(net, m.id);
      PublishKeepsSettled(net.db, net.txs[m.id]);
    } else if m.Outside? {
      OutsideKeepsSettled(limit, net.db, m.event);
    }
  }

  lemma {:induction false} RunKeepsSettled(limit: int, nets: seq<Net>, moves: seq<Move>, i: nat)
    requires IsRun(limit, nets, moves) && i < |nets| && DueInv(nets[0]) && Settled(nets[0].db)
    requires forall k :: 0 <= k < i ==> Exclusive(nets[k])
    ensures DueInv(nets[i]) && Settled(nets[i].db)
  {
    if i > 0 {
      RunKeepsSettled(limit, nets, moves, i - 1);
      MoveKeepsDueInv(limit, nets[i - 1], moves[i - 1]);
      MoveKeepsSettled(limit, nets[i - 1], moves[i - 1]);
    }
  }

  // In every interleaving without overlapping Updates or Cancels of one order, the stored amounts of
  // each committed order are those its rows and its promo call for.
  lemma InterleavedAmounts(limit: int, nets: seq<Net>, moves: seq<Move>, i: nat, o: OrderId)
    requires IsRun(limit, nets, moves) && i < |nets|
    requires SchemaOk(nets[0].db) && PromoExact(nets[0].db) && Settled(nets[0].db) && nets[0].txs == map[]
    requires forall k :: 0 <= k < i ==> Exclusive(nets[k])
    requires o in nets[i].db.orders
    ensures var db := nets[i].db;
            && AmountsMatch(db.promos, db.orders[o], Gross(ItemsOf(db.items, o)))
            && (db.orders[o].promo.Some? ==> db.orders[o].promo.value in db.promos)
            && db.orders[o].total + db.orders[o].discount
               == Gross(ItemsOf(db.items, o)) + (if Money.EndsOnHalfCent(ExactDiscount(db, o)) then 1 else 0)
  {
    RunKeepsSettled(limit, nets, moves, i);
    SettledAmountsAddUp(nets[i].db, o);
  }

  // ---- The order a request has read ----

  // It still is as it was read, and the request may go on with it.
  ghost predicate SeenStill(db: Db, t: Txn) {
    var o := Target(t.req);
    Tracks(t, o) ==> o in db.orders && t.seen == Some(db.orders[o]) && Permits(t.req, db.orders[o])
  }

  predicate Permits(req: Request, order: Order) {
    match req
    case CreateRequest(_) => true
    case UpdateRequest(u) => MayTouch(order, u.caller, u.role) && order.status == CREATED
    case CancelRequest(x) => MayTouch(order, x.caller, x.role) && IsActive(order)
  }

  ghost predicate AllSeen(db: Db, txs: map<TxId, Txn>) {
    forall id :: id in txs ==> SeenStill(db, txs[id])
  }

  // Payment and delivery leave the orders alone that are being updated or cancelled.
  ghost predicate Undisturbed(net: Net, m: Move) {
    m.Outside? && m.event.Progress? ==> forall id :: id in net.txs ==> !Tracks(net.txs[id], m.event.order)
  }

  lemma OnlyReadingSees(limit: int, db: Db, t: Txn, rows: seq<Item>)
    requires Advance(limit, db, t, rows).Some? && t.phase != Reading
    ensures var next := Advance(limit, db, t, rows).value; next.req == t.req && next.seen == t.seen
  {
    if t.phase == Pricing { PriceShape(db, t); }
    if t.phase == Reviewing { ReviewShape(db, t); }
    if t.phase == Refunding { RefundShape(db, t); }
  }

  lemma StatementKeepsSeen(limit: int, db: Db, t: Txn, rows: seq<Item>)
    requires SeenStill(db, t) && Advance(limit, db, t, rows).Some?
    ensures SeenStill(db, Advance(limit, db, t, rows).value)
  {
    if t.phase != Reading { OnlyReadingSees(limit, db, t, rows); }
  }

  lemma CommitKeepsSeen(net: Net, id: TxId)
    requires AllSeen(net.db, net.txs) && Exclusive(net) && Enabled(net, Commit(id)) && !Collides(net.db, net.txs[id])
    ensures AllSeen(Publish(net.db, net.txs[id]), net.txs - {id})
  {
    var t := net.txs[id];
    assert t.req.CreateRequest? || Tracks(t, Target(t.req));
    forall k | k in net.txs && k != id ensures SeenStill(Publish(net.db, t), net.txs[k]) {
      assert Tracks(net.txs[k], Target(net.txs[k].req)) ==> Target(net.txs[k].req) != Target(t.req);
    }
  }

  lemma OutsideKeepsSeen(limit: int, net: Net, e: Event)
    requires AllSeen(net.db, net.txs) && IsOutside(e) && Undisturbed(net, Outside(e))
    ensures AllSeen(Apply(limit, net.db, e), net.txs)
  {
    forall k | k in net.txs ensures SeenStill(Apply(limit, net.db, e), net.txs[k]) {
      OutsideOrders(limit, net.db, e, Target(net.txs[k].req));
    }
  }

  lemma MoveKeepsSeen(limit: int, net: Net, m: Move)
    requires AllSeen(net.db, net.txs) && Exclusive(net) && Undisturbed(net, m) && Enabled(net, m)
    ensures AllSeen(Next(limit, net, m).db, Next(limit, net, m).txs)
  {
    match m
    case Start(id, req) =>
    case Statement(id, rows) =>
      if Advance(limit, net.db, net.txs[id], rows).Some? {
        StatementKeepsSeen(limit, net.db, net.txs[id], rows);
      }
    case Commit(id) =>
      if !Collides(net.db, net.txs[id]) { CommitKeepsSeen(net, id); }
    case Abort(id) =>
    case Outside(e) => OutsideKeepsSeen(limit, net, e);
  }

  // ---- The serial run ----

  // No two requests in flight compete for one order, one user's or caller's rate, or one promo.
  ghost predicate Apart(net: Net) {
    Exclusive(net) && OneCallPerRate(net) && InOrder(net) && OneCreatePerPromo(net)
  }

  lemma ApartMeansOneCreatePerUser(net: Net)
    requires Apart(net)
    ensures OneCreatePerUser(net)
  {
    forall a, b | a in net.txs && b in net.txs && a != b && PastTest(net.txs[a]) && PastTest(net.txs[b])
      ensures net.txs[a].req.create.user != net.txs[b].req.create.user
    {
      assert PastLimit(net.txs[a]) && PastLimit(net.txs[b]);
    }
  }

  ghost predicate SerialInv(limit: int, net: Net) {
    && DueInv(net) && ActiveOk(net.db, net.txs) && UsesOk(net.db, net.txs)
    && RateInv(limit, net) && AllSeen(net.db, net.txs)
  }

  lemma MoveKeepsSerialInv(limit: int, net: Net, m: Move)
    requires SerialInv(limit, net) && Apart(net) && Undisturbed(net, m) && Enabled(net, m)
    ensures SerialInv(limit, Next(limit, net, m))
  {
    ApartMeansOneCreatePerUser(net);
    MoveKeepsDueInv(limit, net, m);
    PhasesAreOk(net);
    MoveKeepsActive(limit, net, m);
    TxnsAreOk(net);
    MoveKeepsUses(limit, net, m);
    MoveKeepsRateInv(limit, net, m);
    MoveKeepsSeen(limit, net, m);
  }

  function CallOutcome(limit: int, db: Db, req: Request): Outcome {
    match req
    case CreateRequest(c) => CreateOutcome(limit, db, c)
    case UpdateRequest(u) => UpdateOutcome(limit, db, u)
    case CancelRequest(x) => CancelOutcome(db, x)
  }

  function CallEvent(req: Request): Event {
    match req
    case CreateRequest(c) => CreateCall(c)
    case UpdateRequest(u) => UpdateCall(u)
    case CancelRequest(x) => CancelCall(x)
  }

  // The guards that were passed one by one would all pass now.
  lemma GuardsStillPass(limit: int, db: Db, t: Txn)
    requires t.phase == Ready && StillWithinRate(limit, db, t) && StillFree(db, t) && SeenStill(db, t)
    ensures CallOutcome(limit, db, t.req) ==
            match t.req
            case CreateRequest(c) => CreatePastGuards(db, c)
            case UpdateRequest(u) => Reordered(db, u)
            case CancelRequest(x) => CancelPastGuards(db, x.order)
  {
    assert !t.req.CreateRequest? ==> Tracks(t, Target(t.req));
  }

  // A commit has exactly the outcome of the call made at that moment with nobody else around.
  lemma CommitIsSerial(limit: int, net: Net, id: TxId)
    requires SerialInv(limit, net) && Enabled(net, Commit(id)) && !Collides(net.db, net.txs[id])
    ensures CallOutcome(limit, net.db, net.txs[id].req)
         == Outcome(Next(limit, net, Commit(id)).db, Ok(net.txs[id].order.value))
  {
    var t := net.txs[id];
    CommitIsDue(net, id);
    assert !t.req.CreateRequest? ==> Tracks(t, Target(t.req));
    GuardsStillPass(limit, net.db, t);
    match t.req
    case CreateRequest(c) => CreateCommitsSerially(net.db, t, c);
    case UpdateRequest(u) => UpdateCommitsSerially(net.db, t, u);
    case CancelRequest(x) => CancelCommitsSerially(net.db, t, x);
  }

  // The event that a move amounts to, if any.
  function SerialEvent(net: Net, m: Move): seq<Event> {
    match m
    case Commit(id) => if id in net.txs && !Collides(net.db, net.txs[id]) then [CallEvent(net.txs[id].req)] else []
    case Outside(e) => [e]
    case _ => []
  }

  // The calls of a run in the order of their commits, among the outside events.
  function SerialEvents(nets: seq<Net>, moves: seq<Move>, i: nat): seq<Event>
    requires i <= |moves| && i < |nets|
  {
    if i == 0 then [] else SerialEvents(nets, moves, i - 1) + SerialEvent(nets[i - 1], moves[i - 1])
  }

  lemma MoveIsSerial(limit: int, net: Net, m: Move, w: World, before: seq<Event>)
    requires Enabled(net, m) && Run(limit, w, before).db == net.db
    requires m.Commit? && !Collides(net.db, net.txs[m.id]) ==>
               Run(limit, w, before + [CallEvent(net.txs[m.id].req)]).db == Next(limit, net, m).db
    ensures Run(limit, w, before + SerialEvent(net, m)).db == Next(limit, net, m).db
  {
    if m.Outside? {
      OneMoreEvent(limit, w, before, m.event);
    } else {
      NoEvent(before);
    }
  }

  lemma NoEvent(before: seq<Event>)
    ensures before + [] == before
  {
  }

  lemma CommittedCall(limit: int, net: Net, id: TxId, w: World, before: seq<Event>)
    requires SerialInv(limit, net) && Enabled(net, Commit(id)) && !Collides(net.db, net.txs[id])
    requires Run(limit, w, before).db == net.db
    ensures Run(limit, w, before + [CallEvent(net.txs[id].req)]).db == Next(limit, net, Commit(id)).db
  {
    CommitIsSerial(limit, net, id);
    OneMoreEvent(limit, w, before, CallEvent(net.txs[id].req));
    CallIsApplied(limit, net.db, net.txs[id].req);
  }

  lemma SerialStep(limit: int, net: Net, m: Move, w: World, before: seq<Event>)
    requires SerialInv(limit, net) && Enabled(net, m) && Run(limit, w, before).db == net.db
    ensures Run(limit, w, before + SerialEvent(net, m)).db == Next(limit, net, m).db
  {
    if m.Commit? && !Collides(net.db, net.txs[m.id]) {
      CommittedCall(limit, net, m.id, w, before);
    }
    MoveIsSerial(limit, net, m, w, before);
  }

  lemma OneMoreEvent(limit: int, w: World, before: seq<Event>, e: Event)
    ensures Run(limit, w, before + [e]).db == Apply(limit, Run(limit, w, before).db, e)
  {
    assert (before + [e])[..|before|] == before;
  }

  lemma CallIsApplied(limit: int, db: Db, req: Request)
    ensures Apply(limit, db, CallEvent(req)) == CallOutcome(limit, db, req).db
  {
  }

  lemma {:induction false} RunKeepsSerialInv(limit: int, nets: seq<Net>, moves: seq<Move>, i: nat)
    requires IsRun(limit, nets, moves) && i < |nets| && SerialInv(limit, nets[0])
    requires forall k :: 0 <= k < i ==> Apart(nets[k]) && Undisturbed(nets[k], moves[k])
    ensures SerialInv(limit, nets[i])
  {
    if i > 0 {
      RunKeepsSerialInv(limit, nets, moves, i - 1);
      MoveKeepsSerialInv(limit, nets[i - 1], moves[i - 1]);
    }
  }

  lemma StartsSerial(limit: int, net: Net)
    requires Inv(net.db) && Spaced(limit, net.db.ops) && net.txs == map[]
    ensures SerialInv(limit, net)
  {
  }

  // The tables of an interleaved run are those of a serial run of its calls in commit order, as long
  // as requests that compete for an order, a user's rate or a promo do not overlap.
  lemma {:induction false} InterleavedIsSerial(limit: int, nets: seq<Net>, moves: seq<Move>, i: nat, clock: Time)
    requires IsRun(limit, nets, moves) && i < |nets|
    requires Inv(nets[0].db) && Spaced(limit, nets[0].db.ops) && nets[0].txs == map[]
    requires forall k :: 0 <= k < i ==> Apart(nets[k]) && Undisturbed(nets[k], moves[k])
    ensures Run(limit, World(nets[0].db, clock), SerialEvents(nets, moves, i)).db == nets[i].db
  {
    if i > 0 {
      InterleavedIsSerial(limit, nets, moves, i - 1, clock);
      StartsSerial(limit, nets[0]);
      RunKeepsSerialInv(limit, nets, moves, i - 1);
      SerialStep(limit, nets[i - 1], moves[i - 1], World(nets[0].db, clock), SerialEvents(nets, moves, i - 1));
    }
  }

  // So everything the serial calls keep holds in each of its states.
  lemma InterleavedInv(limit: int, nets: seq<Net>, moves: seq<Move>, i: nat)
    requires IsRun(limit, nets, moves) && i < |nets|
    requires Inv(nets[0].db) && Spaced(limit, nets[0].db.ops) && nets[0].txs == map[]
    requires forall k :: 0 <= k < i ==> Apart(nets[k]) && Undisturbed(nets[k], moves[k])
    ensures Inv(nets[i].db) && Spaced(limit, nets[i].db.ops)
  {
    StartsSerial(limit, nets[0]);
    RunKeepsSerialInv(limit, nets, moves, i);
    RunKeepsSettled(limit, nets, moves, i);
  }
}
