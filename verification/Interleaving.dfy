/**
 Requests that overlap. Every statement reads committed rows and the transaction's own writes (READ
 COMMITTED). A row that a transaction has written, or read FOR UPDATE, is locked until the
 transaction ends: it is kept in the transaction's own copy, and a statement that needs a row held
 by somebody else has to wait. A transaction may be rolled back at any moment.
 */
module Interleaving {
  import opened Money
  import opened Schema
  import opened Reservation
  import opened OrderRules
  import opened Runs

  type TxId = nat

  datatype Request =
    | CreateRequest(create: CreateInput)
    | UpdateRequest(update: UpdateInput)
    | CancelRequest(cancel: CancelInput)

  function LinesOfRequest(req: Request): seq<Line> {
    match req
    case CreateRequest(c) => c.lines
    case UpdateRequest(u) => u.lines
    case CancelRequest(_) => []
  }

  function Target(req: Request): OrderId {
    match req
    case CreateRequest(c) => c.id
    case UpdateRequest(u) => u.order
    case CancelRequest(x) => x.order
  }

  // Where a request is. The first two are outside its transaction.
  datatype Phase =
    | Reading     // GetOrderByID
    | Limiting    // GetLastUserOperation
    | Testing     // GetActiveOrderByUserID
    | Fetching    // GetOrderItems
    | Restoring   // IncrementStock, row by row
    | Checking    // GetProductByIDForUpdate, line by line
    | Taking      // DecrementStock, line by line
    | Pricing     // GetPromoCodeByCode
    | Using       // IncrementPromoUses
    | Reviewing   // GetPromoCodeByIDForUpdate
    | Refunding   // DecrementPromoUses
    | Writing     // the order row, its item rows, the log entry
    | Ready       // COMMIT

  datatype Txn = Txn(
    req: Request,
    phase: Phase,
    seen: Option<Order>,     // the order as read before the transaction
    held: seq<Item>,          // the rows to give back
    restored: nat,           // how many of them are given back
    entries: seq<Product>,   // product rows as read by the check loop
    short: bool,             // whether some line asked for more than its row had
    taken: nat,              // how many lines are taken
    promo: Option<PromoId>,  // the promo the order will carry
    discount: int,           // and its discount, in micros
    used: Option<PromoId>,      // promo use taken
    refunded: Option<PromoId>,  // promo use given back
    products: Products,      // locked product rows as this transaction has left them
    promos: Promos,          // locked promo rows as this transaction has left them
    order: Option<Order>)    // the order row it has written

  function Begin(req: Request): Txn {
    var phase := if req.CreateRequest? then Limiting else Reading;
    Txn(req, phase, None, [], 0, [], false, 0, None, 0, None, None, map[], map[], None)
  }

  // Rows as transaction t sees them.
  function SeenProducts(db: Db, t: Txn): Products {
    db.products + t.products
  }

  function SeenPromos(db: Db, t: Txn): Promos {
    db.promos + t.promos
  }

  // The item rows it writes: prices as the check loop read them.
  function RowsOf(t: Txn): seq<Item> {
    var lines := LinesOfRequest(t.req);
    seq(if |t.entries| < |lines| then |t.entries| else |lines|,
        i requires 0 <= i < |t.entries| && i < |lines| => Item(lines[i].product, lines[i].quantity, t.entries[i].price))
  }

  // ---- Statements: None when the call fails and its transaction is rolled back ----

  function ReadOrder(db: Db, t: Txn): Option<Txn> {
    var o := Target(t.req);
    if o !in db.orders then None
    else
      var order := db.orders[o];
      match t.req
      case UpdateRequest(u) =>
        if !MayTouch(order, u.caller, u.role) || order.status != CREATED then None
        else Some(t.(seen := Some(order), phase := Limiting))
      case CancelRequest(x) =>
        if !MayTouch(order, x.caller, x.role) || !IsActive(order) then None
        else Some(t.(seen := Some(order), phase := Fetching))
      case CreateRequest(_) => None
  }

  function CheckLimit(limit: int, db: Db, t: Txn): Option<Txn> {
    match t.req
    case CreateRequest(c) =>
      if RateLimited(db.ops, c.user, CREATE_ORDER, limit, c.at.checked) then None else Some(t.(phase := Testing))
    case UpdateRequest(u) =>
      if RateLimited(db.ops, u.caller, UPDATE_ORDER, limit, u.at.checked) then None else Some(t.(phase := Fetching))
    case CancelRequest(_) => None
  }

  function TestActive(db: Db, t: Txn): Option<Txn> {
    if !t.req.CreateRequest? || HasActive(db.orders, t.req.create.user) then None else Some(t.(phase := Checking))
  }

  // The rows of the order, in whatever order they come.
  function FetchRows(db: Db, t: Txn, rows: seq<Item>): Option<Txn> {
    if multiset(rows) != multiset(ItemsOf(db.items, Target(t.req))) then None
    else Some(t.(held := rows, phase := Restoring))
  }

  function RestoreNext(db: Db, t: Txn): Option<Txn> {
    if t.restored >= |t.held| then Some(t.(phase := if t.req.CancelRequest? then Refunding else Checking))
    else
      var p := t.held[t.restored].product;
      if p !in SeenProducts(db, t) then Some(t.(restored := t.restored + 1))
      else
        var row := SeenProducts(db, t)[p];
        var stock := row.stock + t.held[t.restored].quantity;
        if !(0 <= stock <= MAX_INT) then None
        else Some(t.(restored := t.restored + 1, products := t.products[p := row.(stock := stock)]))
  }

  function CheckNext(db: Db, t: Txn): Option<Txn> {
    var lines := LinesOfRequest(t.req);
    if |t.entries| >= |lines| then (if t.short then None else Some(t.(phase := Taking)))
    else
      var line := lines[|t.entries|];
      if LineError(SeenProducts(db, t), line).Some? then None
      else
        var row := SeenProducts(db, t)[line.product];
        Some(t.(entries := t.entries + [row],
                short := t.short || row.stock < line.quantity,
                products := t.products[line.product := row]))
  }

  function TakeNext(db: Db, t: Txn): Option<Txn> {
    var lines := LinesOfRequest(t.req);
    if t.taken >= |lines| then Some(t.(phase := if t.req.CreateRequest? then Pricing else Reviewing))
    else
      var p := lines[t.taken].product;
      if p !in SeenProducts(db, t) then Some(t.(taken := t.taken + 1))
      else
        var row := SeenProducts(db, t)[p];
        var stock := row.stock - lines[t.taken].quantity;
        if !(0 <= stock <= MAX_INT) then None
        else Some(t.(taken := t.taken + 1, products := t.products[p := row.(stock := stock)]))
  }

  // Create reads its promo without a lock ...
  function PriceCode(db: Db, t: Txn): Option<Txn> {
    if !t.req.CreateRequest? then None
    else
      var c := t.req.create;
      if c.code.None? then Some(t.(phase := Writing))
      else
        match QuoteNew(SeenPromos(db, t), db.codes, Gross(RowsOf(t)), c.code, c.at.priced)
        case Err(_) => None
        case Ok(quote) => Some(t.(promo := quote.promo, discount := quote.discount, phase := Using))
  }

  // ... and then increments whatever count is there by then.
  function UsePromo(db: Db, t: Txn): Option<Txn> {
    if t.promo.None? || t.promo.value !in SeenPromos(db, t) then None
    else
      var r := t.promo.value;
      var row := SeenPromos(db, t)[r];
      if row.uses + 1 > MAX_INT then None
      else Some(t.(used := Some(r), promos := t.promos[r := row.(uses := row.uses + 1)], phase := Writing))
  }

  function ReviewPromo(db: Db, t: Txn): Option<Txn> {
    if !t.req.UpdateRequest? || t.seen.None? then None
    else if t.seen.value.promo.None? then Some(t.(phase := Writing))
    else
      var r := t.seen.value.promo.value;
      if r !in SeenPromos(db, t) then Some(t.(promo := Some(r), phase := Writing))
      else
        var row := SeenPromos(db, t)[r];
        var gross := Gross(RowsOf(t));
        var locked := t.(promos := t.promos[r := row]);
        if StillApplies(row, gross, t.req.update.at.priced)
        then Some(locked.(promo := Some(r), discount := CalcDiscount(gross, row.kind, row.amount), phase := Writing))
        else Some(locked.(phase := Refunding))
  }

  function RefundPromo(db: Db, t: Txn): Option<Txn> {
    if t.seen.None? then None
    else if t.seen.value.promo.None? || t.seen.value.promo.value !in SeenPromos(db, t) then Some(t.(phase := Writing))
    else
      var r := t.seen.value.promo.value;
      var row := SeenPromos(db, t)[r];
      if row.uses > 0
      then Some(t.(refunded := Some(r), promos := t.promos[r := row.(uses := row.uses - 1)], phase := Writing))
      else Some(t.(phase := Writing))
  }

  // The order row a transaction writes, over the committed one.
  function WrittenRow(db: Db, t: Txn): Option<Order> {
    var o := Target(t.req);
    match t.req
    case CreateRequest(c) => Some(NewOrder(c.user, Quote(t.promo, t.discount, map[]), Gross(RowsOf(t))))
    case UpdateRequest(u) =>
      if o in db.orders then Some(Priced(db.orders[o], t.promo, Gross(RowsOf(t)), t.discount)) else None
    case CancelRequest(x) => if o in db.orders then Some(db.orders[o].(status := CANCELED)) else None
  }

  function LogEntry(req: Request): Option<Operation> {
    match req
    case CreateRequest(c) => Some(Operation(c.user, CREATE_ORDER, c.at.started))
    case UpdateRequest(u) => Some(Operation(u.caller, UPDATE_ORDER, u.at.started))
    case CancelRequest(_) => None
  }

  function WriteOrder(db: Db, t: Txn): Option<Txn> {
    var row := WrittenRow(db, t);
    var log := LogEntry(t.req);
    if row.None? || !OrderRowOk(row.value) || row.value.user !in db.users then None
    else if log.Some? && log.value.user !in db.users then None
    else Some(t.(order := row, phase := Ready))
  }

  function Advance(limit: int, db: Db, t: Txn, rows: seq<Item>): Option<Txn> {
    match t.phase
    case Reading => ReadOrder(db, t)
    case Limiting => CheckLimit(limit, db, t)
    case Testing => TestActive(db, t)
    case Fetching => FetchRows(db, t, rows)
    case Restoring => RestoreNext(db, t)
    case Checking => CheckNext(db, t)
    case Taking => TakeNext(db, t)
    case Pricing => PriceCode(db, t)
    case Using => UsePromo(db, t)
    case Reviewing => ReviewPromo(db, t)
    case Refunding => RefundPromo(db, t)
    case Writing => WriteOrder(db, t)
    case Ready => None
  }

  // What a commit makes visible.
  function Publish(db: Db, t: Txn): Db
    requires t.order.Some?
  {
    var o := Target(t.req);
    db.(products := db.products + t.products,
        promos := db.promos + t.promos,
        orders := db.orders[o := t.order.value],
        items := if t.req.CancelRequest? then db.items else db.items[o := RowsOf(t)],
        ops := db.ops + (match LogEntry(t.req) case Some(op) => [op] case None => []))
  }

  // ---- Locks ----

  datatype Row = ProductRow(product: ProductId) | PromoRow(promo: PromoId) | OrderRow(order: OrderId)

  // The row of the promo the order carried when it was read.
  function SeenPromoRowOf(t: Txn): Option<Row> {
    if t.seen.Some? && t.seen.value.promo.Some? then Some(PromoRow(t.seen.value.promo.value)) else None
  }

  // The row the next statement of t locks, if any.
  function Wanted(t: Txn): Option<Row> {
    match t.phase
    case Restoring => if t.restored < |t.held| then Some(ProductRow(t.held[t.restored].product)) else None
    case Checking =>
      var lines := LinesOfRequest(t.req);
      if |t.entries| < |lines| then Some(ProductRow(lines[|t.entries|].product)) else None
    case Taking =>
      if t.taken < |LinesOfRequest(t.req)| then Some(ProductRow(LinesOfRequest(t.req)[t.taken].product)) else None
    case Using => if t.promo.Some? then Some(PromoRow(t.promo.value)) else None
    case Reviewing => SeenPromoRowOf(t)
    case Refunding => SeenPromoRowOf(t)
    case Writing => Some(OrderRow(Target(t.req)))
    case _ => None
  }

  predicate Holds(t: Txn, row: Row) {
    match row
    case ProductRow(p) => p in t.products
    case PromoRow(r) => r in t.promos
    case OrderRow(o) => t.order.Some? && o == Target(t.req)
  }

  predicate FreeFor(txs: map<TxId, Txn>, id: TxId, row: Option<Row>) {
    row.Some? ==> forall k :: k in txs && k != id ==> !Holds(txs[k], row.value)
  }

  // ---- The whole system ----

  datatype Net = Net(db: Db, txs: map<TxId, Txn>)

  datatype Move =
    | Start(id: TxId, req: Request)
    | Statement(id: TxId, rows: seq<Item>)
    | Commit(id: TxId)
    | Abort(id: TxId)
    | Outside(event: Event)  // a single statement of a seller, promo creation, payment or delivery

  // The row an outside statement writes.
  function EventRow(e: Event): Option<Row> {
    match e
    case EditCall(x) => Some(ProductRow(x.product))
    case ArchiveCall(p, _, _) => Some(ProductRow(p))
    case Progress(o, _) => Some(OrderRow(o))
    case _ => None
  }

  predicate IsOutside(e: Event) {
    !e.CreateCall? && !e.UpdateCall? && !e.CancelCall?
  }

  predicate Enabled(net: Net, m: Move) {
    match m
    case Start(id, req) => id !in net.txs && Positive(LinesOfRequest(req))
    case Statement(id, rows) => id in net.txs && net.txs[id].phase != Ready && FreeFor(net.txs, id, Wanted(net.txs[id]))
    case Commit(id) => id in net.txs && net.txs[id].phase == Ready && net.txs[id].order.Some?
    case Abort(id) => id in net.txs
    case Outside(e) =>
      && IsOutside(e)
      && (EventRow(e).Some? ==> forall k :: k in net.txs ==> !Holds(net.txs[k], EventRow(e).value))
  }

  // A commit that would insert an order id twice fails on the primary key.
  predicate Collides(db: Db, t: Txn) {
    t.req.CreateRequest? && Target(t.req) in db.orders
  }

  function Next(limit: int, net: Net, m: Move): Net
    requires Enabled(net, m)
  {
    match m
    case Start(id, req) => net.(txs := net.txs[id := Begin(req)])
    case Statement(id, rows) =>
      (match Advance(limit, net.db, net.txs[id], rows)
       case Some(t) => net.(txs := net.txs[id := t])
       case None => net.(txs := net.txs - {id}))
    case Commit(id) =>
      if Collides(net.db, net.txs[id]) then net.(txs := net.txs - {id})
      else Net(Publish(net.db, net.txs[id]), net.txs - {id})
    case Abort(id) => net.(txs := net.txs - {id})
    case Outside(e) => net.(db := Apply(limit, net.db, e))
  }

  // A run of the system, as the sequence of its states.
  ghost predicate IsRun(limit: int, nets: seq<Net>, moves: seq<Move>) {
    && |nets| == |moves| + 1
    && forall i :: 0 <= i < |moves| ==> Enabled(nets[i], moves[i]) && nets[i + 1] == Next(limit, nets[i], moves[i])
  }

  // A request that has read its order, and will update or cancel it.
  predicate Tracks(t: Txn, o: OrderId) {
    !t.req.CreateRequest? && Target(t.req) == o && t.phase != Reading
  }

  // No two Update or Cancel requests on one order overlap, from the read before the transaction on.
  ghost predicate Exclusive(net: Net) {
    forall a, b, o :: a in net.txs && b in net.txs && a != b && Tracks(net.txs[a], o) ==> !Tracks(net.txs[b], o)
  }
}
