/**
 OrderService: Create, Update, Cancel and the rate limit, statement by statement as in
 internal/service/orders.go, proved to have exactly the outcomes of OrderRules.

 Each call either returns that outcome, or the connection was lost on the way and the call failed
 with nothing changed; a call needs a bounded number of statements, so a connection that survives
 them gives the exact outcome.
 */
module OrderService {
  import opened Money
  import opened Schema
  import opened Reservation
  import opened OrderRules
  import opened Session

  // A product row as read under its lock, and the quantity asked for.
  datatype Entry = Entry(id: ProductId, product: Product, quantity: int)

  function EntriesOf(products: Products, lines: seq<Line>): seq<Entry>
    requires AllFound(products, lines)
  {
    seq(|lines|, i requires 0 <= i < |lines| => Entry(lines[i].product, products[lines[i].product], lines[i].quantity))
  }

  // ---- Facts for the loops ----

  lemma TakenStep(products: Products, lines: seq<Line>, i: nat)
    requires i < |lines| && lines[i].product in products
    ensures var p := lines[i].product;
            var before := Taken(products, lines[..i]);
            Taken(products, lines[..i + 1]) == before[p := before[p].(stock := before[p].stock - lines[i].quantity)]
  {
    forall p | p in products
      ensures Demand(lines[..i + 1], p)
          == Demand(lines[..i], p) + (if lines[i].product == p then lines[i].quantity else 0)
    {
      DemandOfPrefix(lines, i, p);
    }
  }

  // One decrement of the loop.
  lemma TakenOneLine(products: Products, lines: seq<Line>, i: nat)
    requires i < |lines| && lines[i].product in products
    requires forall p :: p in products ==> 0 <= Taken(products, lines[..i])[p].stock
    ensures var p, before := lines[i].product, Taken(products, lines[..i]);
            var stock := before[p].stock - lines[i].quantity;
            && Taken(products, lines[..i + 1]) == WithStock(before, p, stock)
            && (0 <= stock ==> forall r :: r in products ==> 0 <= Taken(products, lines[..i + 1])[r].stock)
  {
    TakenStep(products, lines, i);
  }

  lemma GivenStep(products: Products, lines: seq<Line>, i: nat)
    requires i < |lines|
    ensures var p := lines[i].product;
            var before := Given(products, lines[..i]);
            Given(products, lines[..i + 1]) ==
            if p in products then before[p := before[p].(stock := before[p].stock + lines[i].quantity)] else before
  {
    forall p | p in products
      ensures Demand(lines[..i + 1], p)
          == Demand(lines[..i], p) + (if lines[i].product == p then lines[i].quantity else 0)
    {
      DemandOfPrefix(lines, i, p);
    }
  }

  lemma NothingMoved(products: Products)
    ensures Taken(products, []) == products && Given(products, []) == products
  {
  }

  // A decrement that the constraint refuses shows that the basket is not covered.
  lemma RefusedDecrement(products: Products, lines: seq<Line>, i: nat)
    requires ProductsOk(products) && Positive(lines) && i < |lines| && lines[i].product in products
    requires !(0 <= Taken(products, lines[..i])[lines[i].product].stock - lines[i].quantity <= MAX_INT)
    ensures !Covered(products, lines)
  {
    DemandOfPrefix(lines, i, lines[i].product);
    PrefixDemandAtMost(lines, i, lines[i].product);
    PrefixDemandAtMost(lines, i + 1, lines[i].product);
  }

  lemma TakenAllMeansCovered(products: Products, lines: seq<Line>)
    requires forall p :: p in products ==> 0 <= Taken(products, lines)[p].stock
    ensures Covered(products, lines)
  {
    forall i | 0 <= i < |lines| && lines[i].product in products
      ensures Demand(lines, lines[i].product) <= products[lines[i].product].stock
    {
      assert 0 <= Taken(products, lines)[lines[i].product].stock;
    }
  }

  lemma RefusedIncrement(products: Products, lines: seq<Line>, i: nat)
    requires ProductsOk(products) && Positive(lines) && i < |lines| && lines[i].product in products
    requires !(0 <= Given(products, lines[..i])[lines[i].product].stock + lines[i].quantity <= MAX_INT)
    ensures !FitsBack(products, lines)
  {
    DemandOfPrefix(lines, i, lines[i].product);
    PrefixDemandAtMost(lines, i, lines[i].product);
    PrefixDemandAtMost(lines, i + 1, lines[i].product);
  }

  lemma GivenAllMeansFitsBack(products: Products, lines: seq<Line>)
    requires forall p :: p in products ==> Given(products, lines)[p].stock <= MAX_INT
    ensures FitsBack(products, lines)
  {
    forall i | 0 <= i < |lines| && lines[i].product in products
      ensures products[lines[i].product].stock + Demand(lines, lines[i].product) <= MAX_INT
    {
      assert Given(products, lines)[lines[i].product].stock <= MAX_INT;
    }
  }

  // Releasing the rows in any order gives the same result.
  lemma ReleaseInAnyOrder(products: Products, read: seq<Item>, rows: seq<Item>)
    requires multiset(read) == multiset(rows)
    requires Positive(LinesOf(read))
    ensures Positive(LinesOf(rows))
    ensures Release(products, LinesOf(read)) == Release(products, LinesOf(rows))
  {
    var a, b := LinesOf(read), LinesOf(rows);
    LinesOfPermutation(read, rows);
    PermutationKeepsDemand(a, b);
    SameDemandSameStock(products, a, b);
    forall i | 0 <= i < |b| ensures b[i] in a {
      assert b[i] in multiset(b);
    }
    forall i | 0 <= i < |a| ensures a[i] in b {
      assert a[i] in multiset(a);
    }
  }

  lemma SnapshotStep(products: Products, lines: seq<Line>, i: nat)
    requires AllFound(products, lines) && i < |lines|
    ensures var rows := Snapshot(products, lines);
            var price := products[lines[i].product].price;
            && rows[..i + 1] == rows[..i] + [Item(lines[i].product, lines[i].quantity, price)]
            && Gross(rows[..i + 1]) == Gross(rows[..i]) + price * lines[i].quantity
  {
    var rows := Snapshot(products, lines);
    assert rows[..i + 1][..i] == rows[..i];
  }

  lemma SnapshotRowsOk(products: Products, lines: seq<Line>)
    requires ProductsOk(products) && Positive(lines) && AllFound(products, lines)
    ensures ItemRowsOk(products, Snapshot(products, lines))
  {
  }

  // ---- The service ----

  class OrderService {
    const db: Session
    const limit: int

    constructor (db: Session, limit: int)
      ensures this.db == db && this.limit == limit
    {
      this.db, this.limit := db, limit;
    }

    method CheckRateLimit(user: UserId, kind: OperationType, now: Time) returns (error: Option<Error>)
      modifies db`lost, db`budget
      ensures error == (if RateLimited(db.committed.ops, user, kind, limit, now) then Some(OrderLimitExceeded)
          else None)
           || (db.lost && error == Some(StatementFailed))
      ensures var ops := db.committed.ops;
              var recent := exists i ::
                0 <= i < |ops| && ops[i].user == user && ops[i].kind == kind && now - ops[i].at < limit;
              !db.lost ==> error == if recent then Some(OrderLimitExceeded) else None
      ensures old(db.lost) ==> db.lost
      ensures db.budget <= old(db.budget) <= db.budget + 1
      ensures db.lost && !old(db.lost) ==> db.budget == 0
    {
      RateLimitedWhen(db.committed.ops, user, kind, limit, now);
      var ok, last := db.GetLastOperation(user, kind);
      if !ok { return Some(StatementFailed); }
      if last.Some? && now - last.value < limit { return Some(OrderLimitExceeded); }
      return None;
    }

    // The first loop: lock and read each product, collect the lines that ask for too much.
    method CheckLines(lines: seq<Line>) returns (r: Result<seq<Entry>>)
      requires !db.broken
      modifies db`broken, db`lost, db`budget
      ensures r.Ok? ==>
                && !db.broken
                && FirstLineError(db.work.products, lines) == None && Shortages(db.work.products, lines) == []
                && AllFound(db.work.products, lines) && r.value == EntriesOf(db.work.products, lines)
      ensures r.Err? ==>
                || (db.lost && r.error == StatementFailed)
                || FirstLineError(db.work.products, lines) == Some(r.error)
                || (FirstLineError(db.work.products, lines) == None && Shortages(db.work.products, lines) != []
                    && r.error == InsufficientStock(Shortages(db.work.products, lines)))
      ensures old(db.lost) ==> db.lost
      ensures db.budget <= old(db.budget) <= db.budget + |lines|
      ensures db.lost && !old(db.lost) ==> db.budget == 0
    {
      var entries: seq<Entry>, shortages := [], [];
      for i := 0 to |lines|
        invariant !db.broken
        invariant old(db.lost) == db.lost
        invariant old(db.budget) == db.budget + i
        invariant FirstLineError(db.work.products, lines[..i]) == None
        invariant shortages == Shortages(db.work.products, lines[..i])
        invariant AllFound(db.work.products, lines[..i]) && entries == EntriesOf(db.work.products, lines[..i])
      {
        assert lines[..i + 1][..i] == lines[..i];
        var line := lines[i];
        var ok, row := db.GetProductForUpdate(line.product);
        if !ok { return Err(StatementFailed); }
        if row.None? || row.value.status != ACTIVE {
          FirstLineErrorSticks(db.work.products, lines, i + 1);
          return Err(if row.None? then ProductNotFound(line.product) else ProductInactive(line.product));
        }
        if row.value.stock < line.quantity {
          shortages := shortages + [Shortage(line.product, line.quantity, row.value.stock)];
        }
        entries := entries + [Entry(line.product, row.value, line.quantity)];
      }
      assert lines[..|lines|] == lines;
      r := if shortages != [] then Err(InsufficientStock(shortages)) else Ok(entries);
    }

    // The second loop: take the stock, add up the price. A basket that asks for more than the stock
    // over several lines is stopped here, by the CHECK constraint.
    method TakeLines(entries: seq<Entry>, ghost lines: seq<Line>) returns (ok: bool, total: int)
      requires !db.broken && ProductsOk(db.work.products) && Positive(lines)
      requires AllFound(db.work.products, lines) && entries == EntriesOf(db.work.products, lines)
      modifies db`work, db`broken, db`lost, db`budget
      ensures ok ==>
                && !db.broken && Covered(old(db.work).products, lines)
                && db.work == old(db.work).(products := Taken(old(db.work).products, lines))
                && total == Gross(Snapshot(old(db.work).products, lines))
      ensures !ok ==> db.lost || !Covered(old(db.work).products, lines)
      ensures old(db.lost) ==> db.lost
      ensures db.budget <= old(db.budget) <= db.budget + |lines|
      ensures db.lost && !old(db.lost) ==> db.budget == 0
    {
      ghost var products := db.work.products;
      ghost var rows := Snapshot(products, lines);
      NothingMoved(products);
      total := 0;
      for i := 0 to |entries|
        invariant !db.broken
        invariant old(db.lost) == db.lost
        invariant db.budget + i == old(db.budget)
        invariant db.work == old(db.work).(products := Taken(products, lines[..i]))
        invariant forall p :: p in products ==> 0 <= Taken(products, lines[..i])[p].stock
        invariant total == Gross(rows[..i])
      {
        TakenOneLine(products, lines, i);
        SnapshotStep(products, lines, i);
        assert entries[i] == Entry(lines[i].product, products[lines[i].product], lines[i].quantity);
        ok := db.DecrementStock(entries[i].id, entries[i].quantity);
        if !ok {
          if !db.lost { RefusedDecrement(products, lines, i); }
          return;
        }
        total := total + entries[i].product.price * entries[i].quantity;
      }
      assert lines[..|lines|] == lines;
      assert rows[..|rows|] == rows;
      TakenAllMeansCovered(products, lines);
      ok := true;
    }

    // Both loops, as they stand one after the other in Create and in Update.
    method ReserveLines(lines: seq<Line>) returns (r: Result<seq<Entry>>, total: int)
      requires !db.broken && ProductsOk(db.work.products) && Positive(lines)
      modifies db`work, db`broken, db`lost, db`budget
      ensures r.Ok? ==>
                && !db.broken && Reserve(old(db.work).products, lines) == Ok(db.work.products)
                && db.work == old(db.work).(products := db.work.products)
                && AllFound(old(db.work).products, lines)
                && r.value == EntriesOf(old(db.work).products, lines)
                && total == Gross(Snapshot(old(db.work).products, lines))
      ensures r.Err? ==>
                || (db.lost && r.error == StatementFailed)
                || Reserve(old(db.work).products, lines) == Err(r.error)
      ensures old(db.lost) ==> db.lost
      ensures db.budget <= old(db.budget) <= db.budget + 2 * |lines|
      ensures db.lost && !old(db.lost) ==> db.budget == 0
    {
      total := 0;
      r := CheckLines(lines);
      if r.Ok? {
        var ok;
        ok, total := TakeLines(r.value, lines);
        if !ok { r := Err(StatementFailed); }
      }
    }

    // The restore loop of Update and Cancel.
    method ReleaseRows(read: seq<Item>) returns (ok: bool)
      requires !db.broken && ProductsOk(db.work.products) && Positive(LinesOf(read))
      modifies db`work, db`broken, db`lost, db`budget
      ensures ok ==>
                && !db.broken && Release(old(db.work).products, LinesOf(read)) == Ok(db.work.products)
                && db.work == old(db.work).(products := db.work.products)
      ensures !ok ==> db.lost || Release(old(db.work).products, LinesOf(read)) == Err(StatementFailed)
      ensures old(db.lost) ==> db.lost
      ensures db.budget <= old(db.budget) <= db.budget + |read|
      ensures db.lost && !old(db.lost) ==> db.budget == 0
    {
      ghost var products := db.work.products;
      ghost var lines := LinesOf(read);
      NothingMoved(products);
      for i := 0 to |read|
        invariant !db.broken
        invariant old(db.lost) == db.lost
        invariant db.budget + i == old(db.budget)
        invariant db.work == old(db.work).(products := Given(products, lines[..i]))
        invariant forall p :: p in products ==> Given(products, lines[..i])[p].stock <= MAX_INT
      {
        GivenStep(products, lines, i);
        ok := db.IncrementStock(read[i].product, read[i].quantity);
        if !ok {
          if !db.lost { RefusedIncrement(products, lines, i); }
          return;
        }
      }
      assert lines[..|lines|] == lines;
      GivenAllMeansFitsBack(products, lines);
      ok := true;
    }

    // Reading the rows of an order, in whatever order they come, and giving them back.
    method GiveBack(o: OrderId) returns (ok: bool, read: seq<Item>)
      requires !db.broken && SchemaOk(db.work)
      modifies db`work, db`broken, db`lost, db`budget
      ensures ok ==>
                && !db.broken && Release(old(db.work).products, OldLines(old(db.work), o)) == Ok(db.work.products)
                && db.work == old(db.work).(products := db.work.products)
                && multiset(read) == multiset(ItemsOf(old(db.work).items, o))
      ensures !ok ==> db.lost || Release(old(db.work).products, OldLines(old(db.work), o)) == Err(StatementFailed)
      ensures old(db.lost) ==> db.lost
      ensures db.budget <= old(db.budget) <= db.budget + |OldLines(old(db.work), o)| + 1
      ensures db.lost && !old(db.lost) ==> db.budget == 0
    {
      ghost var rows := ItemsOf(db.work.items, o);
      ok, read := db.GetOrderItems(o);
      if !ok { return; }
      OldLinesPositive(db.work, o);
      ReleaseInAnyOrder(db.work.products, rows, read);
      SameLength(read, rows);
      ok := ReleaseRows(read);
    }

    // The promo branch of Create.
    method ApplyCode(code: Option<string>, gross: int, now: Time) returns (r: Result<(Option<PromoId>, int)>)
      requires !db.broken
      modifies db`work, db`broken, db`lost, db`budget
      ensures r.Ok? ==>
                && !db.broken && db.work == old(db.work).(promos := db.work.promos)
                && QuoteNew(old(db.work).promos, old(db.work).codes, gross, code, now)
                   == Ok(Quote(r.value.0, r.value.1, db.work.promos))
      ensures r.Err? ==>
                || (db.lost && r.error == StatementFailed)
                || QuoteNew(old(db.work).promos, old(db.work).codes, gross, code, now) == Err(r.error)
      ensures var codes, promos := old(db.work).codes, old(db.work).promos;
              code.Some? && code.value in codes && codes[code.value] in promos && !db.lost ==>
                var promo := promos[codes[code.value]];
                var usable :=
                  promo.active && promo.uses < promo.maxUses && promo.validFrom <= now && now <= promo.validUntil;
                && (r == Err(PromoCodeInvalid) <==> !usable)
                && (r == Err(PromoCodeMinAmount) <==> usable && gross < promo.minAmount)
                && (r.Ok? ==> r.value == (Some(codes[code.value]), CalcDiscount(gross, promo.kind, promo.amount)))
      ensures old(db.lost) ==> db.lost
      ensures db.budget <= old(db.budget) <= db.budget + 2
      ensures db.lost && !old(db.lost) ==> db.budget == 0
    {
      if code.None? { return Ok((None, 0)); }
      var ok, found := db.GetPromoByCode(code.value);
      if !ok { return Err(StatementFailed); }
      if found.None? { return Err(PromoCodeInvalid); }
      var promo := db.work.promos[found.value];
      if !promo.active || promo.uses >= promo.maxUses || now < promo.validFrom || now > promo.validUntil {
        return Err(PromoCodeInvalid);
      }
      if gross < promo.minAmount { return Err(PromoCodeMinAmount); }
      var discount := CalcDiscount(gross, promo.kind, promo.amount);
      ok := db.IncrementPromoUses(found.value);
      if !ok { return Err(StatementFailed); }
      return Ok((found, discount));
    }

    // The promo branch of Update. Errors of its two statements are ignored; they leave the
    // transaction broken, so nothing after them can commit.
    method ReviewPromo(current: Option<PromoId>, gross: int, now: Time) returns (promo: Option<PromoId>, discount: int)
      requires !db.broken
      modifies db`work, db`broken, db`lost, db`budget
      ensures !db.broken ==>
                && db.work == old(db.work).(promos := db.work.promos)
                && Requote(old(db.work).promos, gross, current, now) == Quote(promo, discount, db.work.promos)
      ensures !db.broken && current.Some? && current.value in old(db.work).promos ==>
                var was := old(db.work).promos[current.value];
                promo == current <==>
                  && was.active && was.uses <= was.maxUses
                  && was.validFrom <= now && now <= was.validUntil && gross >= was.minAmount
      ensures db.broken ==> db.lost
      ensures db.work.orders == old(db.work).orders && db.work.items == old(db.work).items
      ensures old(db.lost) ==> db.lost
      ensures db.budget <= old(db.budget) <= db.budget + 2
      ensures db.lost && !old(db.lost) ==> db.budget == 0
    {
      promo, discount := current, 0;
      if current.Some? {
        var ok, row := db.GetPromoForUpdate(current.value);
        if ok && row.Some? {
          var found := row.value;
          if found.active && found.uses <= found.maxUses && !(now < found.validFrom) && !(now > found.validUntil)
              && gross >= found.minAmount {
            discount := CalcDiscount(gross, found.kind, found.amount);
          } else {
            var _ := db.DecrementPromoUses(current.value);
            promo := None;
          }
        }
      }
    }

    method InsertItems(o: OrderId, entries: seq<Entry>, ghost products: Products, ghost lines: seq<Line>)
      returns (ok: bool, items: seq<Item>)
      requires !db.broken && o in db.work.orders && o in db.work.items && db.work.items[o] == []
      requires AllFound(products, lines) && entries == EntriesOf(products, lines)
      requires ItemRowsOk(products, Snapshot(products, lines)) && products.Keys == db.work.products.Keys
      modifies db`work, db`broken, db`lost, db`budget
      ensures ok ==>
                && !db.broken && items == Snapshot(products, lines)
                && db.work == old(db.work).(items := old(db.work).items[o := items])
      ensures !ok ==> db.lost
      ensures old(db.lost) ==> db.lost
      ensures db.budget <= old(db.budget) <= db.budget + |lines|
      ensures db.lost && !old(db.lost) ==> db.budget == 0
    {
      ghost var rows := Snapshot(products, lines);
      items := [];
      assert db.work.items[o := items] == db.work.items;
      for i := 0 to |entries|
        invariant !db.broken
        invariant old(db.lost) == db.lost
        invariant db.budget <= old(db.budget) <= db.budget + i
        invariant items == rows[..i]
        invariant db.work == old(db.work).(items := old(db.work).items[o := items])
      {
        SnapshotStep(products, lines, i);
        var row := Item(entries[i].id, entries[i].quantity, entries[i].product.price);
        assert row == rows[i];
        ok := db.CreateOrderItem(o, row);
        if !ok { return; }
        items := items + [row];
      }
      assert rows[..|rows|] == rows;
      ok := true;
    }

    // The last two statements of Create and of Update.
    method LogAndCommit(user: UserId, kind: OperationType, now: Time) returns (ok: bool)
      requires !db.broken
      modifies db
      ensures ok ==>
                && user in old(db.work).users
                && db.committed == old(db.work).(ops := old(db.work).ops + [Operation(user, kind, now)])
      ensures !ok ==> db.committed == old(db.committed) && (db.lost || user !in old(db.work).users)
      ensures old(db.lost) ==> db.lost
      ensures db.budget <= old(db.budget) <= db.budget + 2
      ensures db.lost && !old(db.lost) ==> db.budget == 0
    {
      ok := db.CreateOperation(user, kind, now);
      if !ok { return; }
      ok := db.Commit();
    }

    // The end of Create: order row, item rows, log entry, commit.
    method StoreOrder(input: CreateInput, entries: seq<Entry>, gross: int, promo: Option<PromoId>, discount: int,
        ghost products: Products)
      returns (r: Result<Order>, items: seq<Item>)
      requires !db.broken && (promo.Some? ==> promo.value in db.work.promos)
      requires AllFound(products, input.lines) && entries == EntriesOf(products, input.lines)
      requires ItemRowsOk(products, Snapshot(products, input.lines)) && products.Keys == db.work.products.Keys
      modifies db
      ensures var row := NewOrder(input.user, Quote(promo, discount, old(db.work).promos), gross);
              && (r.Ok? ==>
                   && r.value == row && OrderRowOk(row) && input.id !in old(db.work).orders
                        && input.user in old(db.work).users
                   && items == Snapshot(products, input.lines)
                   && db.committed == Inserted(old(db.work), input, old(db.work).products, old(db.work).promos, row,
                        items))
              && (r.Err? ==>
                   && r.error == StatementFailed && db.committed == old(db.committed)
                   && (db.lost || !OrderRowOk(row) || input.id in old(db.work).orders
                        || input.user !in old(db.work).users))
      ensures old(db.lost) ==> db.lost
      ensures db.budget <= old(db.budget) <= db.budget + |input.lines| + 3
      ensures db.lost && !old(db.lost) ==> db.budget == 0
    {
      items := [];
      var ok, row := db.CreateOrder(input.id, input.user, promo, gross * MICROS_PER_CENT - discount, discount);
      if !ok { return Err(StatementFailed), []; }
      ok, items := InsertItems(input.id, entries, products, input.lines);
      if !ok { return Err(StatementFailed), []; }
      assert old(db.work).items[input.id := []][input.id := items] == old(db.work).items[input.id := items];
      ok := LogAndCommit(input.user, CREATE_ORDER, input.at.started);
      if !ok { return Err(StatementFailed), []; }
      r := Ok(row);
    }

    // The part of Create after the stock is taken: promo, then StoreOrder.
    method PriceAndStore(input: CreateInput, entries: seq<Entry>, gross: int, ghost base: Db)
      returns (r: Result<Order>, items: seq<Item>)
      requires !db.broken && SchemaOk(base) && Positive(input.lines) && base == db.committed
      requires db.work == base.(products := db.work.products) && db.work.products.Keys == base.products.Keys
      requires AllFound(base.products, input.lines) && entries == EntriesOf(base.products, input.lines)
      requires gross == Gross(Snapshot(base.products, input.lines))
      modifies db
      ensures Outcome(db.committed, r)
          == Placed(base, input, old(db.work).products, Snapshot(base.products, input.lines))
           || (db.lost && Outcome(db.committed, r) == Outcome(base, Err(StatementFailed)))
      ensures r.Ok? ==> input.id in db.committed.items && items == db.committed.items[input.id]
      ensures old(db.lost) ==> db.lost
      ensures db.budget <= old(db.budget) <= db.budget + |input.lines| + 5
      ensures db.lost && !old(db.lost) ==> db.budget == 0
    {
      ghost var rows := Snapshot(base.products, input.lines);
      var quote := ApplyCode(input.code, gross, input.at.priced);
      if quote.Err? { return Err(quote.error), []; }
      ghost var work := db.work;
      QuotedPromoExists(base.promos, base.codes, gross, input.code, input.at.priced);
      SnapshotRowsOk(base.products, input.lines);
      r, items := StoreOrder(input, entries, gross, quote.value.0, quote.value.1, base.products);
      PlacedComposes(base, input, work, Quote(quote.value.0, quote.value.1, work.promos), rows);
    }

    method Create(input: CreateInput) returns (r: Result<Order>, items: seq<Item>)
      requires SchemaOk(db.committed) && Positive(input.lines)
      modifies db
      ensures Outcome(db.committed, r) == CreateOutcome(limit, old(db.committed), input)
           || (db.lost && Outcome(db.committed, r) == Outcome(old(db.committed), Err(StatementFailed)))
      ensures var recent := Recent(old(db.committed).ops, input.user, CREATE_ORDER, limit, input.at.checked);
              !db.lost ==>
                && (r == Err(OrderLimitExceeded) <==> recent)
                && (r == Err(OrderHasActive) <==> !recent && HasOpenOrder(old(db.committed).orders, input.user))
      ensures r.Err? ==> db.committed == old(db.committed)
      ensures r.Ok? ==> input.id in db.committed.items && items == db.committed.items[input.id]
      ensures !old(db.lost) && old(db.budget) > 3 * |input.lines| + 8 ==> !db.lost
    {
      CreateGuards(limit, db.committed, input);
      items := [];
      var limited := CheckRateLimit(input.user, CREATE_ORDER, input.at.checked);
      if limited.Some? { return Err(limited.value), []; }
      var ok := db.Begin();
      if !ok { return Err(StatementFailed), []; }
      r, items := CreateInTx(input);
    }

    // Create from BEGIN to COMMIT.
    method CreateInTx(input: CreateInput) returns (r: Result<Order>, items: seq<Item>)
      requires !db.broken && db.work == db.committed && SchemaOk(db.work) && Positive(input.lines)
      modifies db
      ensures Outcome(db.committed, r) == CreateUnlimited(old(db.committed), input)
           || (db.lost && Outcome(db.committed, r) == Outcome(old(db.committed), Err(StatementFailed)))
      ensures r.Ok? ==> input.id in db.committed.items && items == db.committed.items[input.id]
      ensures old(db.lost) ==> db.lost
      ensures db.budget <= old(db.budget) <= db.budget + 3 * |input.lines| + 6
      ensures db.lost && !old(db.lost) ==> db.budget == 0
    {
      items := [];
      var ok, active := db.HasActiveOrder(input.user);
      if !ok { return Err(StatementFailed), []; }
      if active { return Err(OrderHasActive), []; }

      var reserved, gross := ReserveLines(input.lines);
      if reserved.Err? { return Err(reserved.error), []; }
      r, items := PriceAndStore(input, reserved.value, gross, old(db.work));
    }

    // Update reads the order outside its transaction.
    method Update(input: UpdateInput) returns (r: Result<Order>, items: seq<Item>)
      requires SchemaOk(db.committed) && Positive(input.lines)
      modifies db
      ensures Outcome(db.committed, r) == UpdateOutcome(limit, old(db.committed), input)
           || (db.lost && Outcome(db.committed, r) == Outcome(old(db.committed), Err(StatementFailed)))
      ensures r.Ok? && input.order in old(db.committed).orders ==>
                input.role == ADMIN || old(db.committed).orders[input.order].user == input.caller
      ensures !db.lost && input.order in old(db.committed).orders ==>
                var order := old(db.committed).orders[input.order];
                var stranger := input.role != ADMIN && order.user != input.caller;
                var recent := Recent(old(db.committed).ops, input.caller, UPDATE_ORDER, limit, input.at.checked);
                && (r == Err(OrderOwnershipViolation) <==> stranger)
                && (r == Err(InvalidStateTransition) <==> !stranger && order.status != CREATED)
                && (r == Err(OrderLimitExceeded) <==> !stranger && order.status == CREATED && recent)
      ensures r.Err? ==> db.committed == old(db.committed)
      ensures r.Ok? ==> input.order in db.committed.items && items == db.committed.items[input.order]
      ensures var statements := |OldLines(old(db.committed), input.order)| + 3 * |input.lines| + 11;
              !old(db.lost) && old(db.budget) >= statements ==> !db.lost
    {
      UpdateGuards(limit, db.committed, input);
      items := [];
      var ok, order := db.GetOrder(input.order);
      if !ok { return Err(StatementFailed), []; }
      if order.None? { return Err(OrderNotFound), []; }
      if input.role != ADMIN && order.value.user != input.caller { return Err(OrderOwnershipViolation), []; }
      if order.value.status != CREATED { return Err(InvalidStateTransition), []; }
      var limited := CheckRateLimit(input.caller, UPDATE_ORDER, input.at.checked);
      if limited.Some? { return Err(limited.value), []; }
      ok := db.Begin();
      if !ok { return Err(StatementFailed), []; }
      r, items := UpdateInTx(input, order.value);
    }

    // Update from BEGIN to COMMIT.
    method UpdateInTx(input: UpdateInput, order: Order) returns (r: Result<Order>, items: seq<Item>)
      requires !db.broken && db.work == db.committed && SchemaOk(db.work) && Positive(input.lines)
      requires input.order in db.work.orders && order == db.work.orders[input.order]
      modifies db
      ensures Outcome(db.committed, r) == Reordered(old(db.committed), input)
           || (db.lost && Outcome(db.committed, r) == Outcome(old(db.committed), Err(StatementFailed)))
      ensures r.Ok? ==> input.order in db.committed.items && items == db.committed.items[input.order]
      ensures old(db.lost) ==> db.lost
      ensures db.budget <= old(db.budget) <= db.budget + |OldLines(old(db.committed), input.order)|
          + 3 * |input.lines| + 7
      ensures db.lost && !old(db.lost) ==> db.budget == 0
    {
      ghost var base := db.work;
      items := [];
      var ok, _ := GiveBack(input.order);
      if !ok { return Err(StatementFailed), []; }
      OldLinesPositive(base, input.order);
      ReleasedRowsOk(base.products, OldLines(base, input.order));
      r, items := ReserveAndRewrite(input, order, base);
    }

    // The part of Update after the old reservation is given back.
    method ReserveAndRewrite(input: UpdateInput, order: Order, ghost base: Db)
        returns (r: Result<Order>, items: seq<Item>)
      requires !db.broken && base == db.committed && Positive(input.lines) && SchemaOk(base)
      requires db.work == base.(products := db.work.products) && ProductsOk(db.work.products)
      requires input.order in base.orders && order == base.orders[input.order]
      requires Release(base.products, OldLines(base, input.order)) == Ok(db.work.products)
      modifies db
      ensures Outcome(db.committed, r) == Reordered(base, input)
           || (db.lost && Outcome(db.committed, r) == Outcome(base, Err(StatementFailed)))
      ensures r.Ok? ==> input.order in db.committed.items && items == db.committed.items[input.order]
      ensures old(db.lost) ==> db.lost
      ensures db.budget <= old(db.budget) <= db.budget + 3 * |input.lines| + 6
      ensures db.lost && !old(db.lost) ==> db.budget == 0
    {
      items := [];
      ghost var released := db.work.products;
      var reserved, gross := ReserveLines(input.lines);
      if reserved.Err? { return Err(reserved.error), []; }
      SnapshotRowsOk(released, input.lines);
      r, items := ReviewAndRewrite(input, order, reserved.value, gross, base, released);
    }

    // The part of Update after the stock is taken again.
    method ReviewAndRewrite(input: UpdateInput, order: Order, entries: seq<Entry>, gross: int, ghost base: Db,
        ghost released: Products)
      returns (r: Result<Order>, items: seq<Item>)
      requires !db.broken && base == db.committed && input.order in base.orders && order == base.orders[input.order]
      requires db.work == base.(products := db.work.products) && db.work.products.Keys == released.Keys
      requires AllFound(released, input.lines) && entries == EntriesOf(released, input.lines)
      requires gross == Gross(Snapshot(released, input.lines))
      requires ItemRowsOk(released, Snapshot(released, input.lines))
      modifies db
      ensures Outcome(db.committed, r) == Rewritten(base, input, old(db.work).products, Snapshot(released, input.lines))
           || (db.lost && Outcome(db.committed, r) == Outcome(base, Err(StatementFailed)))
      ensures r.Ok? ==> input.order in db.committed.items && items == db.committed.items[input.order]
      ensures old(db.lost) ==> db.lost
      ensures db.budget <= old(db.budget) <= db.budget + |input.lines| + 6
      ensures db.lost && !old(db.lost) ==> db.budget == 0
    {
      items := [];
      ghost var products := db.work.products;
      ghost var rows := Snapshot(released, input.lines);
      var promo, discount := ReviewPromo(order.promo, gross, input.at.priced);
      ghost var work, alive := db.work, !db.broken;
      r, items := RewriteOrder(input, entries, gross, promo, discount, released);
      if alive {
        RewrittenComposes(base, input, work, Quote(promo, discount, work.promos), rows);
      }
    }

    // The end of Update: delete the old rows, write amounts, rows and log entry, commit.
    method RewriteOrder(input: UpdateInput, entries: seq<Entry>, gross: int, promo: Option<PromoId>, discount: int,
        ghost products: Products)
      returns (r: Result<Order>, items: seq<Item>)
      requires db.broken ==> db.lost
      requires input.order in db.work.orders
      requires AllFound(products, input.lines) && entries == EntriesOf(products, input.lines)
      requires ItemRowsOk(products, Snapshot(products, input.lines))
      requires !db.broken ==> products.Keys == db.work.products.Keys
      modifies db
      ensures var row := Priced(old(db.work).orders[input.order], promo, gross, discount);
              && (r.Ok? ==>
                   && !old(db.broken) && r.value == row && OrderRowOk(row) && input.caller in old(db.work).users
                   && items == Snapshot(products, input.lines)
                   && db.committed == Replaced(old(db.work), input, old(db.work).products, old(db.work).promos, row,
                        items))
              && (r.Err? ==>
                   && r.error == StatementFailed && db.committed == old(db.committed)
                   && (db.lost || !OrderRowOk(row) || input.caller !in old(db.work).users))
      ensures old(db.lost) ==> db.lost
      ensures db.budget <= old(db.budget) <= db.budget + |input.lines| + 4
      ensures db.lost && !old(db.lost) ==> db.budget == 0
    {
      items := [];
      var ok := db.DeleteOrderItems(input.order);
      if !ok { return Err(StatementFailed), []; }
      r, items := WriteAmounts(input, entries, gross, promo, discount, products);
    }

    method WriteAmounts(input: UpdateInput, entries: seq<Entry>, gross: int, promo: Option<PromoId>, discount: int,
        ghost products: Products)
      returns (r: Result<Order>, items: seq<Item>)
      requires !db.broken && input.order in db.work.orders
      requires input.order in db.work.items && db.work.items[input.order] == []
      requires AllFound(products, input.lines) && entries == EntriesOf(products, input.lines)
      requires ItemRowsOk(products, Snapshot(products, input.lines)) && products.Keys == db.work.products.Keys
      modifies db
      ensures var row := Priced(old(db.work).orders[input.order], promo, gross, discount);
              && (r.Ok? ==>
                   && r.value == row && OrderRowOk(row) && input.caller in old(db.work).users
                   && items == Snapshot(products, input.lines)
                   && db.committed == Replaced(old(db.work), input, old(db.work).products, old(db.work).promos, row,
                        items))
              && (r.Err? ==>
                   && r.error == StatementFailed && db.committed == old(db.committed)
                   && (db.lost || !OrderRowOk(row) || input.caller !in old(db.work).users))
      ensures old(db.lost) ==> db.lost
      ensures db.budget <= old(db.budget) <= db.budget + |input.lines| + 3
      ensures db.lost && !old(db.lost) ==> db.budget == 0
    {
      items := [];
      var ok, row := db.UpdateOrderAmounts(input.order, gross * MICROS_PER_CENT - discount, discount, promo);
      if !ok { return Err(StatementFailed), []; }
      ok, items := InsertItems(input.order, entries, products, input.lines);
      if !ok { return Err(StatementFailed), []; }
      ok := LogAndCommit(input.caller, UPDATE_ORDER, input.at.started);
      if !ok { return Err(StatementFailed), []; }
      r := Ok(row);
    }

    // Cancel also reads the order outside its transaction; it returns the rows it gave back.
    method Cancel(input: CancelInput) returns (r: Result<Order>, items: seq<Item>)
      requires SchemaOk(db.committed)
      modifies db
      ensures Outcome(db.committed, r) == CancelOutcome(old(db.committed), input)
           || (db.lost && Outcome(db.committed, r) == Outcome(old(db.committed), Err(StatementFailed)))
      ensures r.Ok? && input.order in old(db.committed).orders ==>
                input.role == ADMIN || old(db.committed).orders[input.order].user == input.caller
      ensures !db.lost && input.order in old(db.committed).orders ==>
                var order := old(db.committed).orders[input.order];
                var stranger := input.role != ADMIN && order.user != input.caller;
                && (r == Err(OrderOwnershipViolation) <==> stranger)
                && (r == Err(InvalidStateTransition) <==>
                      !stranger && order.status != CREATED && order.status != PAYMENT_PENDING)
      ensures r.Err? ==> db.committed == old(db.committed)
      ensures r.Ok? ==> multiset(items) == multiset(ItemsOf(old(db.committed).items, input.order))
      ensures !old(db.lost) && old(db.budget) > |OldLines(old(db.committed), input.order)| + 6 ==> !db.lost
    {
      CancelGuards(db.committed, input);
      items := [];
      var ok, order := db.GetOrder(input.order);
      if !ok { return Err(StatementFailed), []; }
      if order.None? { return Err(OrderNotFound), []; }
      if input.role != ADMIN && order.value.user != input.caller { return Err(OrderOwnershipViolation), []; }
      if order.value.status != CREATED && order.value.status != PAYMENT_PENDING {
        return Err(InvalidStateTransition), [];
      }
      ok := db.Begin();
      if !ok { return Err(StatementFailed), []; }
      ok, items := GiveBack(input.order);
      if !ok { return Err(StatementFailed), []; }
      r := Withdraw(input.order, order.value);
    }

    // The end of Cancel: promo use back (its error ignored, as in Update), status, commit.
    method Withdraw(o: OrderId, order: Order) returns (r: Result<Order>)
      requires !db.broken && o in db.work.orders && order == db.work.orders[o]
      modifies db
      ensures r.Ok? ==>
                && r.value == order.(status := CANCELED)
                && db.committed == Withdrawn(old(db.work), o, old(db.work).products, r.value)
      ensures r.Err? ==> r.error == StatementFailed && db.lost && db.committed == old(db.committed)
      ensures old(db.lost) ==> db.lost
      ensures db.budget <= old(db.budget) <= db.budget + 3
      ensures db.lost && !old(db.lost) ==> db.budget == 0
    {
      if order.promo.Some? {
        var _ := db.DecrementPromoUses(order.promo.value);
      }
      var ok, row := db.UpdateOrderStatus(o, CANCELED);
      if !ok { return Err(StatementFailed); }
      ok := db.Commit();
      if !ok { return Err(StatementFailed); }
      r := Ok(row);
    }
  }

  lemma RewrittenComposes(base: Db, input: UpdateInput, work: Db, quote: Quote, rows: seq<Item>)
    requires input.order in base.orders
    requires quote == Requote(base.promos, Gross(rows), base.orders[input.order].promo, input.at.priced)
    requires work == base.(products := work.products, promos := quote.promos)
    ensures var row := Priced(base.orders[input.order], quote.promo, Gross(rows), quote.discount);
            Rewritten(base, input, work.products, rows) ==
              if !OrderRowOk(row) || input.caller !in base.users then Outcome(base, Err(StatementFailed))
              else Outcome(Replaced(work, input, work.products, work.promos, row, rows), Ok(row))
  {
  }

  lemma QuotedPromoExists(promos: Promos, codes: map<string, PromoId>, gross: int, code: Option<string>, now: Time)
    requires QuoteNew(promos, codes, gross, code, now).Ok?
    ensures var quote := QuoteNew(promos, codes, gross, code, now).value;
            quote.promos.Keys == promos.Keys && (quote.promo.Some? ==> quote.promo.value in quote.promos)
  {
  }

  // Once the stock is reserved and the promo is used, what StoreOrder writes is the outcome of the call.
  lemma PlacedComposes(base: Db, input: CreateInput, work: Db, quote: Quote, rows: seq<Item>)
    requires QuoteNew(base.promos, base.codes, Gross(rows), input.code, input.at.priced) == Ok(quote)
    requires work == base.(products := work.products, promos := quote.promos)
    ensures var row := NewOrder(input.user, quote, Gross(rows));
            Placed(base, input, work.products, rows) ==
              if input.id in base.orders || input.user !in base.users || !OrderRowOk(row)
              then Outcome(base, Err(StatementFailed))
              else Outcome(Inserted(work, input, work.products, work.promos, row, rows), Ok(row))
  {
  }

  lemma SameLength(a: seq<Item>, b: seq<Item>)
    requires multiset(a) == multiset(b)
    ensures |a| == |b|
  {
    assert |multiset(a)| == |a| && |multiset(b)| == |b|;
  }
}
