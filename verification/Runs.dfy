/**
 Serial runs: calls carried out one after another, in any order and number, together with the
 changes made by sellers, by promo creation and by payment and delivery.
 */
module Runs {
  import opened Schema
  import opened Reservation
  import opened OrderRules
  import opened Balance
  import opened Invariant
  import Sums

  datatype World = World(db: Db, clock: Time)

  datatype Event =
    | CreateCall(create: CreateInput)
    | UpdateCall(update: UpdateInput)
    | CancelCall(cancel: CancelInput)
    | LostCall  // a call that failed because its connection was lost
    | EditCall(edit: ProductEdit)
    | ArchiveCall(archived: ProductId, caller: UserId, role: Role)
    | AddProduct(product: ProductId, price: int, stock: int, seller: UserId)
    | AddPromo(promo: PromoId, terms: Promo)
    | AddUser(user: UserId)
    | Progress(order: OrderId, status: OrderStatus)  // payment or delivery moves an order on

  const EMPTY := Db({}, map[], map[], map[], map[], map[], [])

  // The moves of an order that no service call makes.
  predicate Follows(from: OrderStatus, to: OrderStatus) {
    || (from == CREATED && to == PAYMENT_PENDING)
    || (from == PAYMENT_PENDING && to == PAID)
    || (from == PAID && to == SHIPPED)
    || (from == SHIPPED && to == COMPLETED)
  }

  function WithProduct(db: Db, p: ProductId, row: Product): Db {
    if p in db.products || !ProductRowOk(row) then db else db.(products := db.products[p := row])
  }

  // A new promo is active and unused; its code must be new.
  function WithPromo(db: Db, r: PromoId, terms: Promo): Db {
    var row := terms.(uses := 0, active := true);
    if r in db.promos || row.code in db.codes || !PromoRowOk(row) then db
    else db.(promos := db.promos[r := row], codes := db.codes[row.code := r])
  }

  function Moved(db: Db, o: OrderId, status: OrderStatus): Db {
    if o in db.orders && Follows(db.orders[o].status, status)
    then db.(orders := db.orders[o := db.orders[o].(status := status)])
    else db
  }

  function Apply(limit: int, db: Db, e: Event): Db {
    match e
    case CreateCall(c) => CreateOutcome(limit, db, c).db
    case UpdateCall(u) => UpdateOutcome(limit, db, u).db
    case CancelCall(c) => CancelOutcome(db, c).db
    case LostCall => db
    case EditCall(x) => EditOutcome(db, x).db
    case ArchiveCall(p, caller, role) => ArchiveOutcome(db, p, caller, role).db
    case AddProduct(p, price, stock, seller) => WithProduct(db, p, Product(price, stock, ACTIVE, Some(seller)))
    case AddPromo(r, terms) => WithPromo(db, r, terms)
    case AddUser(user) => db.(users := db.users + {user})
    case Progress(o, status) => Moved(db, o, status)
  }

  predicate Timely(at: Instants, clock: Time) {
    clock <= at.checked <= at.started <= at.priced
  }

  // Baskets have positive quantities, and calls happen in the order of the clock.
  predicate Legal(w: World, e: Event) {
    match e
    case CreateCall(c) => Positive(c.lines) && Timely(c.at, w.clock)
    case UpdateCall(u) => Positive(u.lines) && Timely(u.at, w.clock)
    case _ => true
  }

  function Step(limit: int, w: World, e: Event): World {
    World(Apply(limit, w.db, e),
          match e
          case CreateCall(c) => c.at.priced
          case UpdateCall(u) => u.at.priced
          case _ => w.clock)
  }

  function Run(limit: int, w: World, events: seq<Event>): World {
    if events == [] then w
    else Step(limit, Run(limit, w, events[..|events| - 1]), events[|events| - 1])
  }

  ghost predicate LegalRun(limit: int, w: World, events: seq<Event>) {
    forall i :: 0 <= i < |events| ==> Legal(Run(limit, w, events[..i]), events[i])
  }

  ghost predicate Reachable(limit: int, w: World) {
    exists clock, events :: LegalRun(limit, World(EMPTY, clock), events) && Run(limit, World(EMPTY, clock), events) == w
  }

  lemma LegalPrefix(limit: int, w: World, events: seq<Event>)
    requires events != [] && LegalRun(limit, w, events)
    ensures LegalRun(limit, w, events[..|events| - 1])
    ensures Legal(Run(limit, w, events[..|events| - 1]), events[|events| - 1])
  {
    var n := |events| - 1;
    forall i | 0 <= i < n ensures Legal(Run(limit, w, events[..n][..i]), events[..n][i]) {
      assert events[..n][..i] == events[..i];
    }
  }

  // ---- One step ----

  // A call that fails leaves every table as it was.
  lemma FailureChangesNothing(limit: int, db: Db, c: CreateInput, u: UpdateInput, x: CancelInput)
    ensures CreateOutcome(limit, db, c).result.Err? ==> CreateOutcome(limit, db, c).db == db
    ensures UpdateOutcome(limit, db, u).result.Err? ==> UpdateOutcome(limit, db, u).db == db
    ensures CancelOutcome(db, x).result.Err? ==> CancelOutcome(db, x).db == db
  {
  }

  lemma UpdateThroughGuards(limit: int, db: Db, u: UpdateInput)
    requires UpdateOutcome(limit, db, u).result.Ok?
    ensures u.order in db.orders && db.orders[u.order].status == CREATED
    ensures UpdateOutcome(limit, db, u) == Reordered(db, u)
    ensures MayTouch(db.orders[u.order], u.caller, u.role)
  {
  }

  lemma EditedSchema(db: Db, x: ProductEdit)
    requires SchemaOk(db)
    ensures SchemaOk(EditOutcome(db, x).db)
  {
  }

  lemma EditKeepsInv(db: Db, p: ProductId, row: Product)
    requires Inv(db) && ProductRowOk(row)
    ensures Inv(db.(products := db.products[p := row]))
  {
    var next := db.(products := db.products[p := row]);
    SameOrdersSameUses(db, next);
  }

  lemma SameOrdersSameUses(db: Db, next: Db)
    requires next.orders == db.orders
    ensures forall r :: LiveUses(next, r) == LiveUses(db, r)
  {
    forall r ensures LiveUses(next, r) == LiveUses(db, r) {
      Sums.SumSame(db.orders.Keys, (o: OrderId) => Carries(db, o, r), (o: OrderId) => Carries(next, o, r));
    }
  }

  lemma PromoKeepsSchema(db: Db, r: PromoId, terms: Promo)
    requires SchemaOk(db)
    ensures SchemaOk(WithPromo(db, r, terms))
    ensures UsesWithinMax(db.promos) ==> UsesWithinMax(WithPromo(db, r, terms).promos)
    ensures TermsKept(db.promos, WithPromo(db, r, terms).promos)
  {
  }

  lemma PromoKeepsExact(db: Db, r: PromoId, terms: Promo)
    requires OrdersOk(db) && PromoExact(db)
    ensures PromoExact(WithPromo(db, r, terms))
  {
    SameOrdersSameUses(db, WithPromo(db, r, terms));
    if r !in db.promos {
      UnknownPromoUnused(db, r);
    }
  }

  lemma PromoKeepsInv(db: Db, r: PromoId, terms: Promo)
    requires Inv(db)
    ensures Inv(WithPromo(db, r, terms))
  {
    var next := WithPromo(db, r, terms);
    PromoKeepsSchema(db, r, terms);
    PromoKeepsExact(db, r, terms);
    forall o | o in next.orders
      ensures AmountsMatch(next.promos, next.orders[o], Gross(ItemsOf(next.items, o)))
    {
      AmountsKeepMatching(db.promos, next.promos, db.orders[o], Gross(ItemsOf(db.items, o)));
    }
  }

  lemma UnknownPromoUnused(db: Db, r: PromoId)
    requires OrdersOk(db) && r !in db.promos
    ensures LiveUses(db, r) == 0
  {
    var f := (o: OrderId) => Carries(db, o, r);
    forall o | o in db.orders ensures f(o) == 0 {
    }
    Sums.SumOfZeros(db.orders.Keys, f);
  }

  lemma MovedIsBalanced(db: Db, o: OrderId, status: OrderStatus)
    requires o in db.orders && o in db.items
    ensures Balanced(db, Moved(db, o, status), o)
  {
  }

  lemma MovedKeepsInv(db: Db, o: OrderId, status: OrderStatus)
    requires Inv(db)
    ensures Inv(Moved(db, o, status))
  {
    if o in db.orders && Follows(db.orders[o].status, status) {
      MovedIsBalanced(db, o, status);
      StillOneActive(db.orders, o, db.orders[o].(status := status));
      BalancedKeepsInv(db, Moved(db, o, status), o);
    }
  }

  lemma UserKeepsInv(db: Db, user: UserId)
    requires Inv(db)
    ensures Inv(db.(users := db.users + {user}))
  {
    SameOrdersSameUses(db, db.(users := db.users + {user}));
  }

  lemma StepKeepsInv(limit: int, w: World, e: Event)
    requires Inv(w.db) && Legal(w, e)
    ensures Inv(Step(limit, w, e).db)
  {
    match e
    case CreateCall(c) =>
      if CreateOutcome(limit, w.db, c).result.Ok? { CreateKeepsInv(w.db, c); }
    case UpdateCall(u) =>
      if UpdateOutcome(limit, w.db, u).result.Ok? {
        UpdateThroughGuards(limit, w.db, u);
        UpdateKeepsInv(w.db, u);
      }
    case CancelCall(c) =>
      if CancelOutcome(w.db, c).result.Ok? { CancelKeepsInv(w.db, c); }
    case LostCall =>
    case EditCall(x) =>
      if EditOutcome(w.db, x).result.Ok? {
        EditKeepsInv(w.db, x.product,
            w.db.products[x.product].(price := x.price, stock := x.stock, status := x.status));
      }
    case ArchiveCall(p, caller, role) =>
      if ArchiveOutcome(w.db, p, caller, role).result.Ok? {
        EditKeepsInv(w.db, p, w.db.products[p].(status := ARCHIVED));
      }
    case AddProduct(p, price, stock, seller) =>
      var row := Product(price, stock, ACTIVE, Some(seller));
      if ProductRowOk(row) { EditKeepsInv(w.db, p, row); }
    case AddPromo(r, terms) => PromoKeepsInv(w.db, r, terms);
    case AddUser(user) => UserKeepsInv(w.db, user);
    case Progress(o, status) => MovedKeepsInv(w.db, o, status);
  }

  // ---- Every reachable state ----

  lemma {:induction false} RunKeepsInv(limit: int, w: World, events: seq<Event>)
    requires Inv(w.db) && LegalRun(limit, w, events)
    ensures Inv(Run(limit, w, events).db)
  {
    if events != [] {
      LegalPrefix(limit, w, events);
      RunKeepsInv(limit, w, events[..|events| - 1]);
      StepKeepsInv(limit, Run(limit, w, events[..|events| - 1]), events[|events| - 1]);
    }
  }

  lemma ReachableInv(limit: int, w: World)
    requires Reachable(limit, w)
    ensures Inv(w.db)
  {
    var clock, events :| LegalRun(limit, World(EMPTY, clock), events) && Run(limit, World(EMPTY, clock), events) == w;
    RunKeepsInv(limit, World(EMPTY, clock), events);
  }
}
