/**
 Facts of every reachable serial state, and of the life of a single order over a run.
 */
module ReachableFacts {
  import opened Money
  import opened Schema
  import opened Reservation
  import opened OrderRules
  import opened Balance
  import opened Invariant
  import opened Runs
  import Sums

  // ---- Promo accounting ----

  ghost function Carriers(db: Db, r: PromoId): set<OrderId> {
    set o | o in db.orders && Carries(db, o, r) == 1
  }

  function Ones(s: set<OrderId>, f: OrderId -> int): set<OrderId> {
    set o | o in s && f(o) == 1
  }

  lemma OnesTakeOut(s: set<OrderId>, f: OrderId -> int, k: OrderId)
    requires k in s
    ensures |Ones(s, f)| == |Ones(s - {k}, f)| + (if f(k) == 1 then 1 else 0)
  {
    if f(k) == 1 {
      assert Ones(s, f) == Ones(s - {k}, f) + {k};
    } else {
      assert Ones(s, f) == Ones(s - {k}, f);
    }
  }

  lemma {:induction false} SumCounts(s: set<OrderId>, f: OrderId -> int)
    requires forall o :: o in s ==> f(o) == 0 || f(o) == 1
    ensures Sums.Sum(s, f) == |Ones(s, f)|
    decreases |s|
  {
    if s == {} {
      assert Ones(s, f) == {};
    } else {
      var k :| k in s;
      Sums.SumTakeOut(s, f, k);
      SumCounts(s - {k}, f);
      OnesTakeOut(s, f, k);
    }
  }

  // Each promo's counter is the number of its live orders, and within the maximum.
  lemma PromoCounters(limit: int, w: World, r: PromoId)
    requires Reachable(limit, w) && r in w.db.promos
    ensures w.db.promos[r].uses == |Carriers(w.db, r)| <= w.db.promos[r].maxUses
  {
    ReachableInv(limit, w);
    SumCounts(w.db.orders.Keys, (o: OrderId) => Carries(w.db, o, r));
    assert Carriers(w.db, r) == Ones(w.db.orders.Keys, (o: OrderId) => Carries(w.db, o, r));
  }

  // So Update's test on the uses is never what drops a promo, and a refund is never swallowed.
  lemma CarriedPromoCounter(limit: int, w: World, o: OrderId, gross: int, now: Time)
    requires Reachable(limit, w) && Live(w.db, o) && w.db.orders[o].promo.Some?
    ensures var r := w.db.orders[o].promo.value;
            && r in w.db.promos
            && Refunded(w.db.promos, r)[r].uses == w.db.promos[r].uses - 1
            && var promo := w.db.promos[r];
               var quote := Requote(w.db.promos, gross, Some(r), now);
               && (quote.promo == Some(r) <==>
                     promo.active && promo.validFrom <= now && now <= promo.validUntil && gross >= promo.minAmount)
               && (quote.promo == None <==> quote.promos[r].uses == promo.uses - 1)
  {
    ReachableInv(limit, w);
    CarriedPromoIsCounted(w.db, o, w.db.orders[o].promo.value);
    RequoteWhen(w.db.promos, gross, w.db.orders[o].promo.value, now);
  }

  // ---- Stored amounts ----

  // The exact discount of an order, in micros, before it was stored.
  function ExactDiscount(db: Db, o: OrderId): int
    requires o in db.orders && (db.orders[o].promo.Some? ==> db.orders[o].promo.value in db.promos)
  {
    match db.orders[o].promo
    case None => 0
    case Some(r) => CalcDiscount(Gross(ItemsOf(db.items, o)), db.promos[r].kind, db.promos[r].amount)
  }

  lemma MatchedAmountsAddUp(promos: Promos, order: Order, gross: int)
    requires AmountsMatch(promos, order, gross) && gross >= 0
    requires order.promo.Some? ==> promos[order.promo.value].amount > 0
    ensures order.promo.None? ==> order.total + order.discount == gross
    ensures order.promo.Some? ==>
              var promo := promos[order.promo.value];
              order.total + order.discount
                  == gross + (if EndsOnHalfCent(CalcDiscount(gross, promo.kind, promo.amount)) then 1 else 0)
  {
    if order.promo.Some? {
      var promo := promos[order.promo.value];
      DiscountBounds(gross, promo.kind, promo.amount);
      StoredPartsAddUp(gross, CalcDiscount(gross, promo.kind, promo.amount));
    }
  }

  lemma SettledAmountsAddUp(db: Db, o: OrderId)
    requires SchemaOk(db) && Settled(db) && o in db.orders
    ensures db.orders[o].total + db.orders[o].discount
         == Gross(ItemsOf(db.items, o)) + (if EndsOnHalfCent(ExactDiscount(db, o)) then 1 else 0)
  {
    GrossNonNegative(ItemsOf(db.items, o));
    MatchedAmountsAddUp(db.promos, db.orders[o], Gross(ItemsOf(db.items, o)));
  }

  // Stored total plus stored discount is the basket total, but for the half-cent case.
  lemma StoredAmountIdentity(limit: int, w: World, o: OrderId)
    requires Reachable(limit, w) && o in w.db.orders
    ensures w.db.orders[o].promo.Some? ==> w.db.orders[o].promo.value in w.db.promos
    ensures w.db.orders[o].total + w.db.orders[o].discount
         == Gross(ItemsOf(w.db.items, o)) + (if EndsOnHalfCent(ExactDiscount(w.db, o)) then 1 else 0)
  {
    ReachableInv(limit, w);
    SettledAmountsAddUp(w.db, o);
  }

  // A basket of 0.05 at 50%: 2.5 cents off and 2.5 cents to pay are stored as 3 and 3.
  lemma HalfCentExample()
    ensures EndsOnHalfCent(CalcDiscount(5, PERCENTAGE, 5_000))
    ensures StoredNet(5, PERCENTAGE, 5_000) == 3 && StoredDiscount(5, PERCENTAGE, 5_000) == 3
  {
  }

  // The stored amounts of an order, by the kind of its promo.
  ghost predicate AmountsByKind(promos: Promos, order: Order, gross: int) {
    match order.promo
    case None => order.total == gross && order.discount == 0
    case Some(r) =>
      && r in promos
      && var value := promos[r].amount;
         match promos[r].kind
         case FIXED_AMOUNT =>
           if value <= gross then order.discount == value && order.total == gross - value
           else order.discount == gross && order.total == 0
         case PERCENTAGE =>
           var rate := if value < 7_000 then value else 7_000;
           IsNearestCent(gross * rate, order.discount) && IsNearestCent(gross * (10_000 - rate), order.total)
  }

  lemma MatchedByKind(promos: Promos, order: Order, gross: int)
    requires AmountsMatch(promos, order, gross) && gross >= 0
    requires order.promo.Some? ==> promos[order.promo.value].amount > 0
    ensures AmountsByKind(promos, order, gross)
  {
    if order.promo.Some? {
      var promo := promos[order.promo.value];
      if promo.kind == FIXED_AMOUNT {
        FixedAmounts(gross, promo.amount);
      } else {
        PercentageAmounts(gross, promo.amount);
      }
    }
  }

  lemma StoredAmountsByKind(limit: int, w: World, o: OrderId)
    requires Reachable(limit, w) && o in w.db.orders
    ensures AmountsByKind(w.db.promos, w.db.orders[o], Gross(ItemsOf(w.db.items, o)))
  {
    ReachableInv(limit, w);
    GrossNonNegative(ItemsOf(w.db.items, o));
    MatchedByKind(w.db.promos, w.db.orders[o], Gross(ItemsOf(w.db.items, o)));
  }

  lemma PromoTermsHold(limit: int, w: World, o: OrderId)
    requires Reachable(limit, w) && o in w.db.orders
    ensures var order := w.db.orders[o];
            match order.promo
            case None => order.discount == 0
            case Some(r) =>
              && r in w.db.promos && w.db.promos[r].minAmount <= Gross(ItemsOf(w.db.items, o))
              && (w.db.promos[r].kind == PERCENTAGE ==> 10 * order.discount <= 7 * Gross(ItemsOf(w.db.items, o)) + 5)
  {
    ReachableInv(limit, w);
    var order := w.db.orders[o];
    if order.promo.Some? {
      GrossNonNegative(ItemsOf(w.db.items, o));
      var promo := w.db.promos[order.promo.value];
      DiscountBounds(Gross(ItemsOf(w.db.items, o)), promo.kind, promo.amount);
    }
  }

  // CHECK (total_amount >= 0) and CHECK (discount_amount >= 0) never fire: a priced basket that
  // fits NUMERIC(12, 2) is stored, whatever its promo. First for Create, then for Update.
  lemma AmountChecksNeverAbort(promos: Promos, codes: map<string, PromoId>, rows: seq<Item>, user: UserId,
      code: Option<string>, now: Time)
    requires PromosOk(promos, codes)
    requires forall i :: 0 <= i < |rows| ==> ItemRowOk(rows[i])
    requires QuoteNew(promos, codes, Gross(rows), code, now).Ok?
    ensures var row := NewOrder(user, QuoteNew(promos, codes, Gross(rows), code, now).value, Gross(rows));
            0 <= row.total <= Gross(rows) && 0 <= row.discount <= Gross(rows)
  {
    GrossNonNegative(rows);
    var quote := QuoteNew(promos, codes, Gross(rows), code, now).value;
    if code.Some? {
      var promo := promos[codes[code.value]];
      DiscountBounds(Gross(rows), promo.kind, promo.amount);
    }
    StoredPartsAddUp(Gross(rows), quote.discount);
  }

  lemma UpdatedAmountChecksNeverAbort(promos: Promos, codes: map<string, PromoId>, rows: seq<Item>, order: Order,
      now: Time)
    requires PromosOk(promos, codes)
    requires forall i :: 0 <= i < |rows| ==> ItemRowOk(rows[i])
    ensures var quote := Requote(promos, Gross(rows), order.promo, now);
            var row := Priced(order, quote.promo, Gross(rows), quote.discount);
            0 <= row.total <= Gross(rows) && 0 <= row.discount <= Gross(rows)
  {
    GrossNonNegative(rows);
    if order.promo.Some? && order.promo.value in promos {
      var promo := promos[order.promo.value];
      DiscountBounds(Gross(rows), promo.kind, promo.amount);
    }
    StoredPartsAddUp(Gross(rows), Requote(promos, Gross(rows), order.promo, now).discount);
  }

  // ---- One active order ----

  lemma AtMostOneActive(limit: int, w: World, a: OrderId, b: OrderId)
    requires Reachable(limit, w) && a in w.db.orders && b in w.db.orders
    requires w.db.orders[a].user == w.db.orders[b].user
    requires w.db.orders[a].status == CREATED || w.db.orders[a].status == PAYMENT_PENDING
    requires w.db.orders[b].status == CREATED || w.db.orders[b].status == PAYMENT_PENDING
    ensures a == b
  {
    ReachableInv(limit, w);
  }

  // ---- The life of an order ----

  function Rank(status: OrderStatus): (r: int)
    ensures 0 <= r <= 4
  {
    match status
    case CREATED => 0
    case PAYMENT_PENDING => 1
    case PAID => 2
    case SHIPPED => 3
    case COMPLETED => 4
    case CANCELED => 4
  }

  ghost predicate SameBasket(db: Db, next: Db, o: OrderId)
    requires o in db.orders && o in next.orders
  {
    && ItemsOf(next.items, o) == ItemsOf(db.items, o)
    && next.orders[o].(status := CREATED) == db.orders[o].(status := CREATED)
  }

  // What one event can do to an existing order.
  ghost predicate LivesOn(db: Db, next: Db, o: OrderId)
    requires o in db.orders
  {
    && o in next.orders && next.orders[o].user == db.orders[o].user
    && (next.orders[o].status != db.orders[o].status ==>
         Rank(next.orders[o].status) > Rank(db.orders[o].status) && SameBasket(db, next, o))
    && (db.orders[o].status != CREATED ==> SameBasket(db, next, o))
  }

  lemma OthersLiveOn(db: Db, next: Db, changed: OrderId, o: OrderId)
    requires OnlyOrder(db, next, changed) && o in db.orders && o != changed
    ensures LivesOn(db, next, o)
  {
  }

  lemma CreateLetsLive(db: Db, c: CreateInput, o: OrderId)
    requires SchemaOk(db) && Positive(c.lines) && CreateUnlimited(db, c).result.Ok? && o in db.orders
    ensures LivesOn(db, CreateUnlimited(db, c).db, o)
  {
    CreateIsBalanced(db, c);
    CreateParts(db, c);
    PlacedParts(db, c, CreateUnlimited(db, c).db.products, CreatedRows(db, c));
    OthersLiveOn(db, CreateUnlimited(db, c).db, c.id, o);
  }

  lemma UpdateLetsLive(db: Db, u: UpdateInput, o: OrderId)
    requires SchemaOk(db) && PromoExact(db) && Positive(u.lines) && o in db.orders
    requires u.order in db.orders && db.orders[u.order].status == CREATED && Reordered(db, u).result.Ok?
    ensures LivesOn(db, Reordered(db, u).db, o)
  {
    var next := Reordered(db, u).db;
    if o == u.order {
      UpdateParts(db, u);
      RewrittenParts(db, u, next.products, Snapshot(Given(db.products, OldLines(db, u.order)), u.lines));
    } else {
      UpdateIsBalanced(db, u);
      OthersLiveOn(db, next, u.order, o);
    }
  }

  lemma CancelLetsLive(db: Db, c: CancelInput, o: OrderId)
    requires CancelOutcome(db, c).result.Ok? && o in db.orders
    ensures LivesOn(db, CancelOutcome(db, c).db, o)
  {
    CancelParts(db, c);
  }

  lemma ProgressLetsLive(db: Db, moved: OrderId, status: OrderStatus, o: OrderId)
    requires o in db.orders
    ensures LivesOn(db, Moved(db, moved, status), o)
  {
  }

  lemma UntouchedLivesOn(db: Db, next: Db, o: OrderId)
    requires next.orders == db.orders && next.items == db.items && o in db.orders
    ensures LivesOn(db, next, o)
  {
  }

  lemma OrderLivesOn(limit: int, w: World, e: Event, o: OrderId)
    requires Inv(w.db) && Legal(w, e) && o in w.db.orders
    ensures LivesOn(w.db, Step(limit, w, e).db, o)
  {
    var next := Step(limit, w, e).db;
    if e.CreateCall? && CreateOutcome(limit, w.db, e.create).result.Ok? {
      CreateLetsLive(w.db, e.create, o);
    } else if e.UpdateCall? && UpdateOutcome(limit, w.db, e.update).result.Ok? {
      UpdateThroughGuards(limit, w.db, e.update);
      UpdateLetsLive(w.db, e.update, o);
    } else if e.CancelCall? && CancelOutcome(w.db, e.cancel).result.Ok? {
      CancelLetsLive(w.db, e.cancel, o);
    } else if e.Progress? {
      ProgressLetsLive(w.db, e.order, e.status, o);
    } else {
      QuietStep(limit, w, e);
      UntouchedLivesOn(w.db, next, o);
    }
  }

  predicate Succeeds(limit: int, db: Db, e: Event) {
    match e
    case CreateCall(c) => CreateOutcome(limit, db, c).result.Ok?
    case UpdateCall(u) => UpdateOutcome(limit, db, u).result.Ok?
    case CancelCall(c) => CancelOutcome(db, c).result.Ok?
    case _ => false
  }

  // Everything but a successful order call, payment and delivery leaves the orders alone.
  lemma QuietStep(limit: int, w: World, e: Event)
    requires !Succeeds(limit, w.db, e) && !e.Progress?
    ensures Step(limit, w, e).db.orders == w.db.orders && Step(limit, w, e).db.items == w.db.items
  {
  }

  // Only a successful Update of that order rewrites its items, prices and amounts: product edits,
  // archiving, other orders, payment, delivery and its own cancellation leave them alone.
  lemma StepKeepsBasket(limit: int, w: World, e: Event, o: OrderId)
    requires Inv(w.db) && Legal(w, e) && o in w.db.orders
    requires e.UpdateCall? && Succeeds(limit, w.db, e) ==> e.update.order != o
    ensures o in Step(limit, w, e).db.orders && SameBasket(w.db, Step(limit, w, e).db, o)
  {
    if !Succeeds(limit, w.db, e) {
      if !e.Progress? { QuietStep(limit, w, e); }
    } else {
      match e
      case CreateCall(c) => CreateKeepsBasket(w.db, c, o);
      case UpdateCall(u) =>
        UpdateThroughGuards(limit, w.db, u);
        UpdateKeepsOtherBasket(w.db, u, o);
      case CancelCall(x) => CancelKeepsBasket(w.db, x, o);
    }
  }

  lemma UpdateKeepsOtherBasket(db: Db, u: UpdateInput, o: OrderId)
    requires SchemaOk(db) && PromoExact(db) && Live(db, u.order) && Reordered(db, u).result.Ok?
    requires o in db.orders && o != u.order
    ensures o in Reordered(db, u).db.orders && SameBasket(db, Reordered(db, u).db, o)
  {
    UpdateIsBalanced(db, u);
    OthersKeepBasket(db, Reordered(db, u).db, u.order, o);
  }

  lemma CancelKeepsBasket(db: Db, x: CancelInput, o: OrderId)
    requires CancelOutcome(db, x).result.Ok? && o in db.orders
    ensures o in CancelOutcome(db, x).db.orders && SameBasket(db, CancelOutcome(db, x).db, o)
  {
    CancelParts(db, x);
  }

  lemma OthersKeepBasket(db: Db, next: Db, changed: OrderId, o: OrderId)
    requires OnlyOrder(db, next, changed) && o in db.orders && o != changed
    ensures SameBasket(db, next, o)
  {
  }

  lemma CreateKeepsBasket(db: Db, c: CreateInput, o: OrderId)
    requires SchemaOk(db) && Positive(c.lines) && CreateUnlimited(db, c).result.Ok? && o in db.orders
    ensures o in CreateUnlimited(db, c).db.orders && SameBasket(db, CreateUnlimited(db, c).db, o)
  {
    CreateIsBalanced(db, c);
    CreateParts(db, c);
    PlacedParts(db, c, CreateUnlimited(db, c).db.products, CreatedRows(db, c));
    OthersKeepBasket(db, CreateUnlimited(db, c).db, c.id, o);
  }

  ghost predicate NoUpdateOf(events: seq<Event>, o: OrderId) {
    forall i :: 0 <= i < |events| && events[i].UpdateCall? ==> events[i].update.order != o
  }

  lemma {:induction false} PricesAreSnapshots(limit: int, w: World, events: seq<Event>, o: OrderId)
    requires Inv(w.db) && LegalRun(limit, w, events) && o in w.db.orders && NoUpdateOf(events, o)
    ensures o in Run(limit, w, events).db.orders && SameBasket(w.db, Run(limit, w, events).db, o)
  {
    if events != [] {
      var before := events[..|events| - 1];
      LegalPrefix(limit, w, events);
      PricesAreSnapshots(limit, w, before, o);
      RunKeepsInv(limit, w, before);
      StepKeepsBasket(limit, Run(limit, w, before), events[|events| - 1], o);
    }
  }

  // ---- Who changes an order ----

  // Calls of its user or an admin about that order, payment and delivery.
  predicate MayChange(e: Event, o: OrderId, owner: UserId) {
    match e
    case UpdateCall(u) => u.order == o && (u.role == ADMIN || u.caller == owner)
    case CancelCall(x) => x.order == o && (x.role == ADMIN || x.caller == owner)
    case Progress(p, _) => p == o
    case _ => false
  }

  ghost predicate SameOrder(db: Db, next: Db, o: OrderId)
    requires o in db.orders
  {
    o in next.orders && next.orders[o] == db.orders[o] && ItemsOf(next.items, o) == ItemsOf(db.items, o)
  }

  lemma OthersUntouched(db: Db, next: Db, changed: OrderId, o: OrderId)
    requires OnlyOrder(db, next, changed) && o in db.orders && o != changed
    ensures SameOrder(db, next, o)
  {
  }

  lemma CreateTouchesNoOther(limit: int, db: Db, c: CreateInput, o: OrderId)
    requires SchemaOk(db) && Positive(c.lines) && o in db.orders
    ensures SameOrder(db, CreateOutcome(limit, db, c).db, o)
  {
    if CreateOutcome(limit, db, c).result.Ok? {
      CreateIsBalanced(db, c);
      CreateParts(db, c);
      PlacedParts(db, c, CreateUnlimited(db, c).db.products, CreatedRows(db, c));
      OthersUntouched(db, CreateUnlimited(db, c).db, c.id, o);
    }
  }

  lemma UpdateTouchesOwn(limit: int, db: Db, u: UpdateInput, o: OrderId)
    requires SchemaOk(db) && PromoExact(db) && o in db.orders
    requires !(u.order == o && (u.role == ADMIN || u.caller == db.orders[o].user))
    ensures SameOrder(db, UpdateOutcome(limit, db, u).db, o)
  {
    UpdateGuards(limit, db, u);
    if UpdateOutcome(limit, db, u).result.Ok? {
      UpdateIsBalanced(db, u);
      OthersUntouched(db, Reordered(db, u).db, u.order, o);
    }
  }

  lemma CancelTouchesOwn(db: Db, x: CancelInput, o: OrderId)
    requires SchemaOk(db) && PromoExact(db) && o in db.orders
    requires !(x.order == o && (x.role == ADMIN || x.caller == db.orders[o].user))
    ensures SameOrder(db, CancelOutcome(db, x).db, o)
  {
    CancelGuards(db, x);
    if CancelOutcome(db, x).result.Ok? {
      CancelIsBalanced(db, x);
      OthersUntouched(db, CancelOutcome(db, x).db, x.order, o);
    }
  }

  lemma OnlyOwnersChange(limit: int, w: World, e: Event, o: OrderId)
    requires Inv(w.db) && Legal(w, e) && o in w.db.orders && !MayChange(e, o, w.db.orders[o].user)
    ensures SameOrder(w.db, Step(limit, w, e).db, o)
  {
    match e
    case CreateCall(c) => CreateTouchesNoOther(limit, w.db, c, o);
    case UpdateCall(u) => UpdateTouchesOwn(limit, w.db, u, o);
    case CancelCall(x) => CancelTouchesOwn(w.db, x, o);
    case Progress(p, status) => ProgressTouchesOwn(w.db, p, status, o);
    case _ => QuietStep(limit, w, e);
  }

  lemma ProgressTouchesOwn(db: Db, p: OrderId, status: OrderStatus, o: OrderId)
    requires o in db.orders && p != o
    ensures SameOrder(db, Moved(db, p, status), o)
  {
  }

  // Through any run, an order is as it was unless its user, an admin, payment or delivery acted on it.
  lemma {:induction false} OnlyOwnersChangeOverRun(limit: int, w: World, events: seq<Event>, o: OrderId)
    requires Inv(w.db) && LegalRun(limit, w, events) && o in w.db.orders
    requires forall i :: 0 <= i < |events| ==> !MayChange(events[i], o, w.db.orders[o].user)
    ensures SameOrder(w.db, Run(limit, w, events).db, o)
  {
    if events != [] {
      var before := events[..|events| - 1];
      LegalPrefix(limit, w, events);
      OnlyOwnersChangeOverRun(limit, w, before, o);
      RunKeepsInv(limit, w, before);
      OnlyOwnersChange(limit, Run(limit, w, before), events[|events| - 1], o);
    }
  }

  // The moves a status can make, and no others.
  predicate InTable(from: OrderStatus, to: OrderStatus) {
    match from
    case CREATED => to == PAYMENT_PENDING || to == CANCELED
    case PAYMENT_PENDING => to == PAID || to == CANCELED
    case PAID => to == SHIPPED
    case SHIPPED => to == COMPLETED
    case COMPLETED => false
    case CANCELED => false
  }

  // The status of o stays or makes a move of the table.
  ghost predicate StatusMoves(db: Db, next: Db, o: OrderId)
    requires o in db.orders
  {
    && o in next.orders
    && (next.orders[o].status == db.orders[o].status || InTable(db.orders[o].status, next.orders[o].status))
  }

  lemma StatusTable(limit: int, w: World, e: Event, o: OrderId)
    requires Inv(w.db) && Legal(w, e) && o in w.db.orders
    ensures StatusMoves(w.db, Step(limit, w, e).db, o)
  {
    if !MayChange(e, o, w.db.orders[o].user) {
      OnlyOwnersChange(limit, w, e, o);
    } else {
      match e
      case UpdateCall(u) => UpdateMoves(limit, w.db, u);
      case CancelCall(x) => CancelMoves(w.db, x);
      case Progress(p, status) => ProgressMoves(w.db, p, status);
    }
  }

  lemma UpdateMoves(limit: int, db: Db, u: UpdateInput)
    requires SchemaOk(db) && Positive(u.lines) && u.order in db.orders
    ensures StatusMoves(db, UpdateOutcome(limit, db, u).db, u.order)
  {
    if UpdateOutcome(limit, db, u).result.Ok? {
      UpdateThroughGuards(limit, db, u);
      UpdateKeepsStatus(db, u);
    }
  }

  lemma CancelMoves(db: Db, x: CancelInput)
    requires x.order in db.orders
    ensures StatusMoves(db, CancelOutcome(db, x).db, x.order)
  {
    CancelGuards(db, x);
  }

  lemma ProgressMoves(db: Db, o: OrderId, status: OrderStatus)
    requires o in db.orders
    ensures StatusMoves(db, Moved(db, o, status), o)
  {
  }

  // Every move of the table other than to CANCELED is made by payment or delivery.
  lemma ProgressMakesMoves(limit: int, db: Db, o: OrderId, to: OrderStatus)
    requires o in db.orders && InTable(db.orders[o].status, to) && to != CANCELED
    ensures Apply(limit, db, Progress(o, to)) == db.(orders := db.orders[o := db.orders[o].(status := to)])
  {
  }

  predicate Final(status: OrderStatus) {
    status == CANCELED || status == COMPLETED
  }

  // A canceled order never changes again in any way, through any run; nor does a completed one.
  lemma {:induction false} NoExit(limit: int, w: World, events: seq<Event>, o: OrderId)
    requires Inv(w.db) && LegalRun(limit, w, events) && o in w.db.orders && Final(w.db.orders[o].status)
    ensures var last := Run(limit, w, events).db;
            o in last.orders && last.orders[o] == w.db.orders[o] && ItemsOf(last.items, o) == ItemsOf(w.db.items, o)
  {
    if events != [] {
      var before := events[..|events| - 1];
      LegalPrefix(limit, w, events);
      NoExit(limit, w, before, o);
      RunKeepsInv(limit, w, before);
      OrderLivesOn(limit, Run(limit, w, before), events[|events| - 1], o);
      FinalStays(Run(limit, w, before).db, Run(limit, w, events).db, o);
    }
  }

  lemma FinalStays(db: Db, next: Db, o: OrderId)
    requires o in db.orders && LivesOn(db, next, o) && Final(db.orders[o].status)
    ensures next.orders[o] == db.orders[o] && ItemsOf(next.items, o) == ItemsOf(db.items, o)
  {
  }

  // How often the status of o changes over a run.
  function StatusChanges(limit: int, w: World, events: seq<Event>, o: OrderId): nat {
    if events == [] then 0
    else
      var before := Run(limit, w, events[..|events| - 1]).db;
      var next := Run(limit, w, events).db;
      StatusChanges(limit, w, events[..|events| - 1], o) +
      (if o in before.orders && o in next.orders && next.orders[o].status != before.orders[o].status then 1 else 0)
  }

  lemma {:induction false} StatusOverRun(limit: int, w: World, events: seq<Event>, o: OrderId)
    requires Inv(w.db) && LegalRun(limit, w, events) && o in w.db.orders
    ensures var last := Run(limit, w, events).db;
            && o in last.orders
            && StatusChanges(limit, w, events, o) <= Rank(last.orders[o].status) - Rank(w.db.orders[o].status)
            && (w.db.orders[o].status != CREATED ==> SameBasket(w.db, last, o))
  {
    if events != [] {
      var before := events[..|events| - 1];
      LegalPrefix(limit, w, events);
      StatusOverRun(limit, w, before, o);
      RunKeepsInv(limit, w, before);
      OrderLivesOn(limit, Run(limit, w, before), events[|events| - 1], o);
      BasketChain(w.db, Run(limit, w, before).db, Run(limit, w, events).db, o);
    }
  }

  lemma BasketChain(a: Db, b: Db, c: Db, o: OrderId)
    requires o in a.orders && o in b.orders && LivesOn(b, c, o)
    requires a.orders[o].status != CREATED ==> SameBasket(a, b, o)
    requires Rank(b.orders[o].status) >= Rank(a.orders[o].status)
    ensures a.orders[o].status != CREATED ==> SameBasket(a, c, o)
    ensures Rank(c.orders[o].status) >= Rank(b.orders[o].status)
        + (if c.orders[o].status != b.orders[o].status then 1 else 0)
  {
  }

  lemma AtMostFourStatusChanges(limit: int, w: World, events: seq<Event>, o: OrderId)
    requires Inv(w.db) && LegalRun(limit, w, events) && o in w.db.orders
    ensures StatusChanges(limit, w, events, o) <= 4
  {
    StatusOverRun(limit, w, events, o);
  }
}
