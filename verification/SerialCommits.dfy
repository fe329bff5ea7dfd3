/**
 Interleaved runs against serial ones. When requests that compete for the same order, user or promo
 do not overlap, every commit has exactly the outcome of the call made at that moment with nobody
 else around, so the tables of an interleaved run are those of a serial run of its commits.
 */
module SerialCommits {
  import opened Money
  import opened Schema
  import opened Reservation
  import opened OrderRules
  import opened OrderService
  import opened Balance
  import opened Invariant
  import opened Runs
  import opened Interleaving
  import opened LockProofs
  import opened NetProofs
  import opened Limits

  // ---- What a request has read for its prices ----

  // The product rows it has read were on sale.
  ghost predicate OnSale(t: Txn) {
    forall j :: 0 <= j < |t.entries| ==> t.entries[j].status == ACTIVE && ProductRowOk(t.entries[j])
  }

  // The promo of a Create and its discount, once priced.
  ghost predicate CodeQuoted(db: Db, t: Txn, c: CreateInput) {
    if c.code.None? then t.promo.None? && t.discount == 0
    else
      && c.code.value in db.codes && t.promo == Some(db.codes[c.code.value]) && t.promo.value in db.promos
      && var promo := db.promos[t.promo.value];
         && promo.active && InWindow(promo, c.at.priced) && Gross(RowsOf(t)) >= promo.minAmount
         && t.discount == CalcDiscount(Gross(RowsOf(t)), promo.kind, promo.amount)
  }

  // The promo of an Update and its discount, once reviewed under the lock of the promo row.
  ghost predicate Reviewed(db: Db, t: Txn, u: UpdateInput) {
    && t.seen.Some?
    && match t.seen.value.promo
       case None => t.promo.None? && t.discount == 0
       case Some(r) =>
         && r in db.promos && r in t.promos
         && if StillApplies(db.promos[r], Gross(RowsOf(t)), u.at.priced)
            then
              && t.promo == Some(r)
              && t.discount == CalcDiscount(Gross(RowsOf(t)), db.promos[r].kind, db.promos[r].amount)
            else t.promo.None? && t.discount == 0
  }

  ghost predicate Quoted(db: Db, t: Txn) {
    match t.req
    case CreateRequest(c) => t.phase in {Using, Writing, Ready} ==> CodeQuoted(db, t, c)
    case UpdateRequest(u) => t.phase in {Refunding, Writing, Ready} ==> Reviewed(db, t, u)
    case CancelRequest(_) => true
  }

  // The user it logs exists.
  ghost predicate LoggedUserKnown(db: Db, t: Txn) {
    t.phase == Ready && LogEntry(t.req).Some? ==> LogEntry(t.req).value.user in db.users
  }

  ghost predicate Prepared(db: Db, t: Txn) {
    OnSale(t) && Quoted(db, t) && LoggedUserKnown(db, t)
  }

  // ---- Its own statements keep that ----

  lemma SameEntriesSameRows(t: Txn, next: Txn)
    requires next.req == t.req && next.entries == t.entries
    ensures RowsOf(next) == RowsOf(t)
  {
  }

  lemma CheckKeepsOnSale(db: Db, t: Txn)
    requires SchemaOk(db) && ProductCopies(db, t) && OnSale(t) && t.phase == Checking && CheckNext(db, t).Some?
    ensures OnSale(CheckNext(db, t).value)
  {
    if |t.entries| < |LinesOfRequest(t.req)| {
      SeenRow(db, t, LinesOfRequest(t.req)[|t.entries|].product);
    }
  }

  lemma OnlyCheckReads(limit: int, db: Db, t: Txn, rows: seq<Item>)
    requires Advance(limit, db, t, rows).Some? && t.phase != Checking
    ensures Advance(limit, db, t, rows).value.entries == t.entries
  {
    if t.phase == Pricing { PriceShape(db, t); }
    if t.phase == Reviewing { ReviewShape(db, t); }
    if t.phase == Refunding { RefundShape(db, t); }
  }

  // A promo row that the transaction has not moved a use of is seen as it is committed.
  lemma SeenUnmoved(db: Db, t: Txn, r: PromoId)
    requires SchemaOk(db) && PromoCopies(db, t) && r in SeenPromos(db, t) && UsesMoved(t, r) == 0
    ensures r in db.promos && SeenPromos(db, t)[r] == db.promos[r]
  {
    SeenPromoRow(db, t, r);
  }

  lemma PricingQuotes(db: Db, t: Txn)
    requires SchemaOk(db) && PhaseOk(t) && PromoCopies(db, t) && t.phase == Pricing && PriceCode(db, t).Some?
    ensures Quoted(db, PriceCode(db, t).value)
  {
    PriceShape(db, t);
    SameEntriesSameRows(t, PriceCode(db, t).value);
    if t.req.create.code.Some? {
      SeenUnmoved(db, t, PriceCode(db, t).value.promo.value);
    }
  }

  lemma UsingKeepsQuote(db: Db, t: Txn)
    requires PhaseOk(t) && Quoted(db, t) && t.phase == Using && UsePromo(db, t).Some?
    ensures Quoted(db, UsePromo(db, t).value)
  {
    SameEntriesSameRows(t, UsePromo(db, t).value);
  }

  lemma ReviewingQuotes(db: Db, t: Txn)
    requires SchemaOk(db) && PhaseOk(t) && PromoCopies(db, t) && t.phase == Reviewing && ReviewPromo(db, t).Some?
    ensures Quoted(db, ReviewPromo(db, t).value)
  {
    SameEntriesSameRows(t, ReviewPromo(db, t).value);
    if t.seen.value.promo.Some? {
      SeenUnmoved(db, t, t.seen.value.promo.value);
    }
  }

  lemma RefundingKeepsQuote(db: Db, t: Txn)
    requires Quoted(db, t) && !t.req.CreateRequest? && t.phase == Refunding && RefundPromo(db, t).Some?
    ensures Quoted(db, RefundPromo(db, t).value)
  {
    RefundShape(db, t);
    SameEntriesSameRows(t, RefundPromo(db, t).value);
  }

  lemma WritingKeepsQuote(db: Db, t: Txn)
    requires Quoted(db, t) && t.phase == Writing && WriteOrder(db, t).Some?
    ensures Quoted(db, WriteOrder(db, t).value) && LoggedUserKnown(db, WriteOrder(db, t).value)
  {
    SameEntriesSameRows(t, WriteOrder(db, t).value);
  }

  lemma NotYetQuoted(limit: int, db: Db, t: Txn, rows: seq<Item>)
    requires BeforePromo(t.phase) && Advance(limit, db, t, rows).Some?
    ensures Quoted(db, Advance(limit, db, t, rows).value)
  {
  }

  lemma StatementKeepsQuoted(limit: int, db: Db, t: Txn, rows: seq<Item>)
    requires SchemaOk(db) && PhaseOk(t) && PromoCopies(db, t) && Quoted(db, t) && Advance(limit, db, t, rows).Some?
    ensures Quoted(db, Advance(limit, db, t, rows).value)
  {
    match t.phase
    case Pricing => PricingQuotes(db, t);
    case Using => UsingKeepsQuote(db, t);
    case Reviewing => ReviewingQuotes(db, t);
    case Refunding => RefundingKeepsQuote(db, t);
    case Writing => WritingKeepsQuote(db, t);
    case _ => NotYetQuoted(limit, db, t, rows);
  }

  lemma StatementKeepsPrepared(limit: int, db: Db, t: Txn, rows: seq<Item>)
    requires SchemaOk(db) && TxnOk(db, t) && Prepared(db, t) && Advance(limit, db, t, rows).Some?
    ensures Prepared(db, Advance(limit, db, t, rows).value)
  {
    StatementKeepsQuoted(limit, db, t, rows);
    if t.phase == Checking {
      CheckKeepsOnSale(db, t);
    } else {
      OnlyCheckReads(limit, db, t, rows);
    }
    if t.phase == Writing {
      WritingKeepsQuote(db, t);
    } else {
      ReadyOnlyByWriting(limit, db, t, rows);
    }
  }

  // ---- What others do does not disturb it ----

  ghost predicate TermsAndCodesKept(db: Db, next: Db) {
    TermsKept(db.promos, next.promos) && forall c :: c in db.codes ==> c in next.codes && next.codes[c] == db.codes[c]
  }

  lemma PreparedStays(db: Db, next: Db, t: Txn)
    requires Prepared(db, t) && TermsAndCodesKept(db, next) && RowsKept(db, next, t)
    ensures Prepared(next, t)
  {
  }

  lemma PublishKeepsTerms(db: Db, t: Txn)
    requires PromoCopies(db, t) && t.order.Some?
    ensures TermsAndCodesKept(db, Publish(db, t))
  {
  }

  lemma OutsideKeepsTerms(limit: int, db: Db, e: Event)
    requires IsOutside(e)
    ensures TermsAndCodesKept(db, Apply(limit, db, e))
  {
    OutsideWrites(limit, db, e);
  }

  ghost predicate AllPrepared(db: Db, txs: map<TxId, Txn>) {
    forall id :: id in txs ==> Prepared(db, txs[id])
  }

  lemma StatementKeepsAllPrepared(limit: int, net: Net, id: TxId, rows: seq<Item>)
    requires AllPrepared(net.db, net.txs) && Enabled(net, Statement(id, rows))
    requires SchemaOk(net.db) && TxnOk(net.db, net.txs[id])
    ensures var next := Next(limit, net, Statement(id, rows)); AllPrepared(next.db, next.txs)
  {
    if Advance(limit, net.db, net.txs[id], rows).Some? {
      StatementKeepsPrepared(limit, net.db, net.txs[id], rows);
    }
  }

  lemma CommitKeepsAllPrepared(net: Net, id: TxId)
    requires LockInv(net) && AllPrepared(net.db, net.txs) && id in net.txs && net.txs[id].order.Some?
    ensures AllPrepared(Publish(net.db, net.txs[id]), net.txs - {id})
  {
    PublishKeepsTerms(net.db, net.txs[id]);
    forall k | k in net.txs && k != id ensures Prepared(Publish(net.db, net.txs[id]), net.txs[k]) {
      CommitKeepsOthers(net, id, k);
      PreparedStays(net.db, Publish(net.db, net.txs[id]), net.txs[k]);
    }
  }

  lemma OutsideKeepsAllPrepared(limit: int, net: Net, e: Event)
    requires LockInv(net) && AllPrepared(net.db, net.txs) && Enabled(net, Outside(e))
    ensures AllPrepared(Apply(limit, net.db, e), net.txs)
  {
    OutsideKeepsTerms(limit, net.db, e);
    forall k | k in net.txs ensures Prepared(Apply(limit, net.db, e), net.txs[k]) {
      OutsideKeepsRows(limit, net, e, k);
      PreparedStays(net.db, Apply(limit, net.db, e), net.txs[k]);
    }
  }

  lemma MoveKeepsAllPrepared(limit: int, net: Net, m: Move)
    requires LockInv(net) && AllPrepared(net.db, net.txs) && Enabled(net, m)
    ensures AllPrepared(Next(limit, net, m).db, Next(limit, net, m).txs)
  {
    match m
    case Start(id, req) =>
    case Statement(id, rows) => StatementKeepsAllPrepared(limit, net, id, rows);
    case Commit(id) => CommitKeepsAllPrepared(net, id);
    case Abort(id) =>
    case Outside(e) => OutsideKeepsAllPrepared(limit, net, e);
  }

  // ---- The stock of a commit ----

  // A line's product row as it was read is the committed row with the transaction's own units back.
  lemma CheckedLine(db: Db, t: Txn, j: nat)
    requires TxnOk(db, t) && t.phase == Ready && j < |LinesOfRequest(t.req)|
    ensures var p := LinesOfRequest(t.req)[j].product;
            && p in db.products && t.entries[j] == Given(db.products, LinesOf(t.held))[p]
            && LinesOfRequest(t.req)[j].quantity <= t.entries[j].stock
  {
    assert LinesOfRequest(t.req)[j].product in t.products;
    assert LinesOf(t.held)[..|t.held|] == LinesOf(t.held);
  }

  lemma HeldFitsBack(db: Db, t: Txn)
    requires SchemaOk(db) && TxnOk(db, t) && OnSale(t) && t.phase == Ready
    ensures FitsBack(db.products, LinesOf(t.held))
  {
    var held, lines := LinesOf(t.held), LinesOfRequest(t.req);
    assert held[..|t.held|] == held && lines[..t.taken] == lines;
    forall i | 0 <= i < |held| && held[i].product in db.products
      ensures db.products[held[i].product].stock + Demand(held, held[i].product) <= MAX_INT
    {
      var p := held[i].product;
      if j :| 0 <= j < |lines| && lines[j].product == p {
        CheckedLine(db, t, j);
      } else {
        DemandBounds(lines, p);
        assert Out(t, p) == 0;
      }
    }
  }

  lemma TakenRow(db: Db, t: Txn, p: ProductId)
    requires ProductCopies(db, t) && PhaseOk(t) && t.phase == Ready && p in db.products
    ensures Taken(Given(db.products, LinesOf(t.held)), LinesOfRequest(t.req))[p] == (db.products + t.products)[p]
  {
    assert LinesOf(t.held)[..|t.held|] == LinesOf(t.held);
    assert LinesOfRequest(t.req)[..t.taken] == LinesOfRequest(t.req);
  }

  lemma TakenIsPublished(db: Db, t: Txn)
    requires ProductCopies(db, t) && PhaseOk(t) && t.phase == Ready
    ensures Taken(Given(db.products, LinesOf(t.held)), LinesOfRequest(t.req)) == db.products + t.products
  {
    var taken := Taken(Given(db.products, LinesOf(t.held)), LinesOfRequest(t.req));
    forall p | p in db.products ensures taken[p] == (db.products + t.products)[p] {
      TakenRow(db, t, p);
    }
    assert taken.Keys == db.products.Keys == (db.products + t.products).Keys;
  }

  lemma ReservableNow(db: Db, t: Txn)
    requires TxnOk(db, t) && OnSale(t) && t.phase == Ready
    ensures Reservable(Given(db.products, LinesOf(t.held)), LinesOfRequest(t.req))
    ensures RowsOf(t) == Snapshot(Given(db.products, LinesOf(t.held)), LinesOfRequest(t.req))
  {
    var released, lines := Given(db.products, LinesOf(t.held)), LinesOfRequest(t.req);
    forall j | 0 <= j < |lines|
      ensures lines[j].product in released && released[lines[j].product] == t.entries[j]
      ensures Demand(lines, lines[j].product) <= released[lines[j].product].stock
    {
      CheckedLine(db, t, j);
      TakenWithinStock(db, t, lines[j].product);
    }
  }

  // What the transaction has done to the stock is what the two loops would do now.
  lemma ReservedNow(db: Db, t: Txn)
    requires SchemaOk(db) && TxnOk(db, t) && OnSale(t) && t.phase == Ready
    ensures var released := Given(db.products, LinesOf(t.held));
            && Reserve(released, LinesOfRequest(t.req)) == Ok(db.products + t.products)
            && AllFound(released, LinesOfRequest(t.req)) && RowsOf(t) == Snapshot(released, LinesOfRequest(t.req))
  {
    TakenIsPublished(db, t);
    ReservableNow(db, t);
    ReserveAccepts(Given(db.products, LinesOf(t.held)), LinesOfRequest(t.req));
  }

  lemma TakenWithinStock(db: Db, t: Txn, p: ProductId)
    requires ProductCopies(db, t) && PhaseOk(t) && t.phase == Ready && p in t.products
    ensures p in db.products && Demand(LinesOfRequest(t.req), p) <= Given(db.products, LinesOf(t.held))[p].stock
  {
    assert LinesOf(t.held)[..|t.held|] == LinesOf(t.held);
    assert LinesOfRequest(t.req)[..t.taken] == LinesOfRequest(t.req);
  }

  // ---- The promo of a commit ----

  // A promo table with one use taken and one given back, if any.
  function Shifted(promos: Promos, used: Option<PromoId>, refunded: Option<PromoId>): Promos {
    map r | r in promos :: promos[r].(uses := promos[r].uses + Holding(used, r) - Holding(refunded, r))
  }

  lemma ShiftedNothing(promos: Promos)
    ensures Shifted(promos, None, None) == promos
  {
  }

  lemma ShiftedUse(promos: Promos, r: PromoId)
    requires r in promos
    ensures Shifted(promos, Some(r), None) == Used(promos, r)
  {
  }

  lemma ShiftedRefund(promos: Promos, r: PromoId)
    requires r in promos && promos[r].uses >= 1
    ensures Shifted(promos, None, Some(r)) == Refunded(promos, r)
  {
  }

  lemma PublishedPromoTable(db: Db, t: Txn)
    requires PromoCopies(db, t) && t.order.Some?
    ensures Publish(db, t).promos == Shifted(db.promos, t.used, t.refunded)
  {
    forall r | r in db.promos ensures Publish(db, t).promos[r] == Shifted(db.promos, t.used, t.refunded)[r] {
      PublishedCounters(db, t, r);
    }
  }

  lemma QuotedNow(db: Db, t: Txn, c: CreateInput)
    requires PromosOk(db.promos, db.codes) && PromoCopies(db, t) && t.order.Some?
    requires CodeQuoted(db, t, c) && t.req.CreateRequest? && UseIsFree(db, t) && t.used == t.promo && t.refunded.None?
    ensures QuoteNew(db.promos, db.codes, Gross(RowsOf(t)), c.code, c.at.priced)
         == Ok(Quote(t.promo, t.discount, Publish(db, t).promos))
  {
    PublishedPromoTable(db, t);
    if c.code.Some? {
      assert PromoRowOk(db.promos[t.promo.value]);
      ShiftedUse(db.promos, t.promo.value);
    } else {
      ShiftedNothing(db.promos);
    }
  }

  // What the review of a promo finds, against the counters it leaves.
  lemma RequotedNow(promos: Promos, t: Txn, current: Option<PromoId>, gross: int, now: Time)
    requires current.Some? ==> current.value in promos && promos[current.value].uses >= 1
    requires t.used.None?
    requires (t.promo == current && t.refunded.None?) || (t.promo.None? && t.refunded == current)
    requires current.None? ==> t.discount == 0
    requires current.Some? ==>
               var promo := promos[current.value];
               if StillApplies(promo, gross, now)
               then t.promo == current && t.discount == CalcDiscount(gross, promo.kind, promo.amount)
               else t.promo.None? && t.discount == 0
    ensures Requote(promos, gross, current, now) == Quote(t.promo, t.discount, Shifted(promos, t.used, t.refunded))
  {
    ShiftedNothing(promos);
    if current.Some? {
      ShiftedRefund(promos, current.value);
    }
  }

  lemma ReviewedNow(db: Db, t: Txn, u: UpdateInput)
    requires OrdersOk(db) && PromoExact(db) && PromoCopies(db, t) && t.order.Some? && t.req == UpdateRequest(u)
    requires OrderKnown(db, t) && t.phase == Ready && UsesSettled(t) && Reviewed(db, t, u)
    ensures Requote(db.promos, Gross(RowsOf(t)), db.orders[u.order].promo, u.at.priced)
         == Quote(t.promo, t.discount, Publish(db, t).promos)
  {
    PublishedPromoTable(db, t);
    if t.seen.value.promo.Some? {
      CarriedPromoIsCounted(db, u.order, t.seen.value.promo.value);
    }
    RequotedNow(db.promos, t, t.seen.value.promo, Gross(RowsOf(t)), u.at.priced);
  }

  lemma RefundedNow(db: Db, t: Txn, o: OrderId)
    requires OrdersOk(db) && PromoExact(db) && PromoCopies(db, t) && t.order.Some?
    requires t.req.CancelRequest? && Target(t.req) == o && OrderKnown(db, t) && t.phase == Ready && UsesSettled(t)
    ensures Publish(db, t).promos ==
            if db.orders[o].promo.Some? then Refunded(db.promos, db.orders[o].promo.value) else db.promos
  {
    PublishedPromoTable(db, t);
    if db.orders[o].promo.Some? {
      CarriedPromoIsCounted(db, o, db.orders[o].promo.value);
      ShiftedRefund(db.promos, db.orders[o].promo.value);
    } else {
      ShiftedNothing(db.promos);
    }
  }

  // ---- A commit is the call made at that moment ----

  // What holds of the transaction and of the tables when it commits.
  ghost predicate Due(db: Db, t: Txn) {
    && SchemaOk(db) && PromoExact(db) && t.phase == Ready && TxnOk(db, t)
    && Ledger(db, t) && RowCurrent(db, t) && Prepared(db, t)
  }

  lemma CreateCommitsSerially(db: Db, t: Txn, c: CreateInput)
    requires Due(db, t) && t.req == CreateRequest(c) && UseIsFree(db, t) && c.id !in db.orders
    ensures CreatePastGuards(db, c) == Outcome(Publish(db, t), Ok(t.order.value))
  {
    ReservedNow(db, t);
    NothingMoved(db.products);
    assert LinesOf(t.held) == [];
    QuotedNow(db, t, c);
    PlacedNow(db, t, c);
  }

  lemma PlacedNow(db: Db, t: Txn, c: CreateInput)
    requires t.req == CreateRequest(c) && t.phase == Ready && RowCurrent(db, t) && OrderCopy(db, t)
    requires c.id !in db.orders
    requires QuoteNew(db.promos, db.codes, Gross(RowsOf(t)), c.code, c.at.priced)
          == Ok(Quote(t.promo, t.discount, Publish(db, t).promos))
    ensures Placed(db, c, db.products + t.products, RowsOf(t)) == Outcome(Publish(db, t), Ok(t.order.value))
  {
  }

  // The rows given back are the stored ones, in whatever order they were read.
  lemma ReleasedNow(db: Db, t: Txn)
    requires Due(db, t) && !t.req.CreateRequest?
    ensures Release(db.products, OldLines(db, Target(t.req))) == Ok(Given(db.products, LinesOf(t.held)))
  {
    HeldFitsBack(db, t);
    HeldIsStored(db, t);
  }

  lemma HeldIsStored(db: Db, t: Txn)
    requires HeldKnown(db, t) && OrderKnown(db, t) && t.phase == Ready && !t.req.CreateRequest?
    ensures Release(db.products, OldLines(db, Target(t.req))) == Release(db.products, LinesOf(t.held))
  {
    ReleaseInAnyOrder(db.products, t.held, ItemsOf(db.items, Target(t.req)));
  }

  lemma UpdateCommitsSerially(db: Db, t: Txn, u: UpdateInput)
    requires Due(db, t) && t.req == UpdateRequest(u)
    ensures u.order in db.orders && Reordered(db, u) == Outcome(Publish(db, t), Ok(t.order.value))
  {
    ReservedNow(db, t);
    ReleasedNow(db, t);
    ReviewedNow(db, t, u);
    RewrittenNow(db, t, u);
  }

  lemma RewrittenNow(db: Db, t: Txn, u: UpdateInput)
    requires t.req == UpdateRequest(u) && t.phase == Ready && RowCurrent(db, t) && OrderCopy(db, t)
    requires u.order in db.orders
    requires LoggedUserKnown(db, t)
    requires Requote(db.promos, Gross(RowsOf(t)), db.orders[u.order].promo, u.at.priced)
          == Quote(t.promo, t.discount, Publish(db, t).promos)
    ensures Rewritten(db, u, db.products + t.products, RowsOf(t)) == Outcome(Publish(db, t), Ok(t.order.value))
  {
  }

  lemma CancelCommitsSerially(db: Db, t: Txn, x: CancelInput)
    requires Due(db, t) && t.req == CancelRequest(x)
    ensures x.order in db.orders && CancelPastGuards(db, x.order) == Outcome(Publish(db, t), Ok(t.order.value))
  {
    ReservedNow(db, t);
    ReleasedNow(db, t);
    NothingMoved(Given(db.products, LinesOf(t.held)));
    RefundedNow(db, t, x.order);
    WithdrawnNow(db, t, x);
  }

  lemma WithdrawnNow(db: Db, t: Txn, x: CancelInput)
    requires t.req == CancelRequest(x) && t.phase == Ready && RowCurrent(db, t) && OrderCopy(db, t)
    requires x.order in db.orders
    requires Publish(db, t).promos ==
             if db.orders[x.order].promo.Some? then Refunded(db.promos, db.orders[x.order].promo.value) else db.promos
    ensures Withdrawn(db, x.order, db.products + t.products, t.order.value) == Publish(db, t)
    ensures t.order.value == db.orders[x.order].(status := CANCELED)
  {
    assert db.ops + [] == db.ops;
  }
}
