/**
 A database connection: the committed tables, the working copy of an open transaction, and the SQL
 statements the services issue. A statement that fails breaks its transaction: PostgreSQL then
 refuses every later statement and the commit. The connection itself is lost when `budget`
 statements have been carried out.
 */
module Session {
  import opened Money
  import opened Schema
  import opened OrderRules

  function WithStock(products: Products, p: ProductId, stock: int): Products
    requires p in products
  {
    products[p := products[p].(stock := stock)]
  }

  class Session {
    var committed: Db
    var work: Db
    var broken: bool
    var lost: bool
    var budget: nat

    constructor (db: Db, budget: nat)
      ensures committed == db && this.budget == budget && !lost
    {
      committed, work, broken, lost := db, db, true, false;
      this.budget := budget;
    }

    // One round trip outside a transaction.
    method Reach() returns (ok: bool)
      modifies this`lost, this`budget
      ensures ok ==> !old(lost) && !lost && budget + 1 == old(budget)
      ensures !ok ==> lost && budget == old(budget) && (old(lost) || budget == 0)
    {
      ok := !lost && budget > 0;
      if ok { budget := budget - 1; } else { lost := true; }
    }

    // One round trip of the open transaction.
    method Send() returns (ok: bool)
      modifies this`broken, this`lost, this`budget
      ensures ok ==> !old(broken) && !broken && !old(lost) && !lost && budget + 1 == old(budget)
      ensures !ok ==> broken && budget == old(budget) && (old(lost) ==> lost)
      ensures !ok && !old(broken) ==> lost && (old(lost) || budget == 0)
      ensures !ok && old(broken) ==> lost == old(lost)
    {
      if broken {
        ok := false;
      } else {
        ok := Reach();
        broken := !ok;
      }
    }

    method Begin() returns (ok: bool)
      modifies this`work, this`broken, this`lost, this`budget
      ensures ok ==> !broken && work == committed && !old(lost) && !lost && budget + 1 == old(budget)
      ensures !ok ==> broken && lost && budget == old(budget) && (old(lost) || budget == 0)
    {
      ok := Reach();
      broken := !ok;
      work := committed;
    }

    method Commit() returns (ok: bool)
      modifies this`committed, this`broken, this`lost, this`budget
      ensures ok ==> !old(broken) && committed == work && !old(lost) && !lost && budget + 1 == old(budget)
      ensures !ok ==> committed == old(committed) && broken && budget == old(budget)
      ensures !ok && !old(broken) ==> lost && (old(lost) || budget == 0)
      ensures old(broken) ==> lost == old(lost)
    {
      ok := Send();
      if ok { committed := work; }
    }

    // ---- products ----

    method GetProductForUpdate(p: ProductId) returns (ok: bool, row: Option<Product>)
      modifies this`broken, this`lost, this`budget
      ensures ok ==> !old(broken) && !broken && !old(lost) && !lost && budget + 1 == old(budget)
      ensures ok ==> row == if p in work.products then Some(work.products[p]) else None
      ensures !ok ==> broken && budget == old(budget) && (old(broken) || lost) && (old(lost) ==> lost)
      ensures lost && !old(lost) ==> budget == 0
    {
      ok := Send();
      row := if p in work.products then Some(work.products[p]) else None;
    }

    // UPDATE products SET stock = stock + delta: fails outside CHECK (stock >= 0) and INTEGER, and
    // touches nothing when there is no such row.
    method IncrementStock(p: ProductId, delta: int) returns (ok: bool)
      modifies this`work, this`broken, this`lost, this`budget
      ensures ok ==> !old(broken) && !broken && !old(lost) && !lost && budget + 1 == old(budget)
      ensures ok && p !in old(work).products ==> work == old(work)
      ensures ok && p in old(work).products ==>
                var stock := old(work).products[p].stock + delta;
                0 <= stock <= MAX_INT && work == old(work).(products := WithStock(old(work).products, p, stock))
      ensures !ok ==> broken && work == old(work) && (old(lost) ==> lost)
      ensures !ok ==> (old(broken) || lost || (p in work.products && !(0 <= work.products[p].stock + delta <= MAX_INT)))
      ensures budget <= old(budget) <= budget + 1
      ensures lost && !old(lost) ==> budget == 0
    {
      ok := Send();
      if ok && p in work.products {
        var row := work.products[p];
        if 0 <= row.stock + delta <= MAX_INT {
          work := work.(products := work.products[p := row.(stock := row.stock + delta)]);
        } else {
          ok, broken := false, true;
        }
      }
    }

    method DecrementStock(p: ProductId, quantity: int) returns (ok: bool)
      modifies this`work, this`broken, this`lost, this`budget
      ensures ok ==> !old(broken) && !broken && !old(lost) && !lost && budget + 1 == old(budget)
      ensures ok && p !in old(work).products ==> work == old(work)
      ensures ok && p in old(work).products ==>
                var stock := old(work).products[p].stock - quantity;
                0 <= stock <= MAX_INT && work == old(work).(products := WithStock(old(work).products, p, stock))
      ensures !ok ==> broken && work == old(work) && (old(lost) ==> lost)
      ensures !ok ==>
                || old(broken) || lost
                || (p in work.products && !(0 <= work.products[p].stock - quantity <= MAX_INT))
      ensures budget <= old(budget) <= budget + 1
      ensures lost && !old(lost) ==> budget == 0
    {
      ok := IncrementStock(p, -quantity);
    }

    // SELECT ... FROM products outside a transaction.
    method GetProduct(p: ProductId) returns (ok: bool, row: Option<Product>)
      modifies this`lost, this`budget
      ensures ok ==> !old(lost) && !lost && budget + 1 == old(budget)
      ensures ok ==> row == if p in committed.products then Some(committed.products[p]) else None
      ensures !ok ==> lost && budget == old(budget) && (old(lost) || budget == 0)
    {
      ok := Reach();
      row := if p in committed.products then Some(committed.products[p]) else None;
    }

    // UPDATE products ... RETURNING outside a transaction: an absolute write, on its own commit.
    method UpdateProduct(p: ProductId, price: int, stock: int, status: ProductStatus) returns (r: Result<Product>)
      requires p in committed.products
      modifies this`committed, this`lost, this`budget
      ensures var row := old(committed).products[p].(price := price, stock := stock, status := status);
              && (r.Ok? ==>
                   && r.value == row && ProductRowOk(row)
                   && committed == old(committed).(products := old(committed).products[p := row]))
              && (r.Err? ==> r.error == StatementFailed && committed == old(committed) && (lost || !ProductRowOk(row)))
      ensures r.Ok? ==> !old(lost) && !lost
      ensures old(lost) ==> lost
      ensures lost && !old(lost) ==> old(budget) == 0
    {
      var row := committed.products[p].(price := price, stock := stock, status := status);
      var ok := Reach();
      if !ok || !ProductRowOk(row) { return Err(StatementFailed); }
      committed := committed.(products := committed.products[p := row]);
      r := Ok(row);
    }

    // UPDATE products SET status = 'ARCHIVED' ... RETURNING outside a transaction.
    method ArchiveProduct(p: ProductId) returns (r: Result<Product>)
      requires p in committed.products
      modifies this`committed, this`lost, this`budget
      ensures var row := old(committed).products[p].(status := ARCHIVED);
              && (r.Ok? ==>
                   r.value == row && committed == old(committed).(products := old(committed).products[p := row]))
              && (r.Err? ==> r.error == StatementFailed && committed == old(committed) && lost)
      ensures r.Ok? ==> !old(lost) && !lost
      ensures old(lost) ==> lost
      ensures lost && !old(lost) ==> old(budget) == 0
    {
      var ok := Reach();
      if !ok { return Err(StatementFailed); }
      var row := committed.products[p].(status := ARCHIVED);
      committed := committed.(products := committed.products[p := row]);
      r := Ok(row);
    }

    // ---- promo codes ----

    method GetPromoByCode(code: string) returns (ok: bool, found: Option<PromoId>)
      modifies this`broken, this`lost, this`budget
      ensures ok ==> !old(broken) && !broken && !old(lost) && !lost && budget + 1 == old(budget)
      ensures ok ==> (found.Some? <==> code in work.codes && work.codes[code] in work.promos)
      ensures ok && found.Some? ==> found.value == work.codes[code]
      ensures !ok ==> broken && budget == old(budget) && (old(broken) || lost) && (old(lost) ==> lost)
      ensures lost && !old(lost) ==> budget == 0
    {
      ok := Send();
      found := if code in work.codes && work.codes[code] in work.promos then Some(work.codes[code]) else None;
    }

    method GetPromoForUpdate(r: PromoId) returns (ok: bool, row: Option<Promo>)
      modifies this`broken, this`lost, this`budget
      ensures ok ==> !old(broken) && !broken && !old(lost) && !lost && budget + 1 == old(budget)
      ensures ok ==> row == if r in work.promos then Some(work.promos[r]) else None
      ensures !ok ==> broken && budget == old(budget) && (old(broken) || lost) && (old(lost) ==> lost)
      ensures lost && !old(lost) ==> budget == 0
    {
      ok := Send();
      row := if r in work.promos then Some(work.promos[r]) else None;
    }

    method IncrementPromoUses(r: PromoId) returns (ok: bool)
      modifies this`work, this`broken, this`lost, this`budget
      ensures ok ==> !old(broken) && !broken && !old(lost) && !lost
      ensures ok && r !in old(work).promos ==> work == old(work)
      ensures ok && r in old(work).promos ==>
                old(work).promos[r].uses + 1 <= MAX_INT && work == old(work).(promos := Used(old(work).promos, r))
      ensures !ok ==> broken && work == old(work) && (old(lost) ==> lost)
      ensures !ok ==> (old(broken) || lost || (r in work.promos && work.promos[r].uses + 1 > MAX_INT))
      ensures budget <= old(budget) <= budget + 1
      ensures lost && !old(lost) ==> budget == 0
    {
      ok := Send();
      if ok && r in work.promos {
        var row := work.promos[r];
        if row.uses + 1 <= MAX_INT {
          work := work.(promos := work.promos[r := row.(uses := row.uses + 1)]);
        } else {
          ok, broken := false, true;
        }
      }
    }

    // UPDATE ... WHERE current_uses > 0: no row matches at zero, which is not an error.
    method DecrementPromoUses(r: PromoId) returns (ok: bool)
      modifies this`work, this`broken, this`lost, this`budget
      ensures ok ==> !old(broken) && !broken && !old(lost) && !lost
      ensures ok ==> work == old(work).(promos := Refunded(old(work).promos, r))
      ensures !ok ==> broken && work == old(work) && (old(lost) ==> lost) && (old(broken) || lost)
      ensures budget <= old(budget) <= budget + 1
      ensures lost && !old(lost) ==> budget == 0
    {
      ok := Send();
      if ok && r in work.promos && work.promos[r].uses > 0 {
        var row := work.promos[r];
        work := work.(promos := work.promos[r := row.(uses := row.uses - 1)]);
      }
    }

    // ---- orders ----

    // SELECT ... FROM orders outside a transaction.
    method GetOrder(o: OrderId) returns (ok: bool, row: Option<Order>)
      modifies this`lost, this`budget
      ensures ok ==> !old(lost) && !lost && budget + 1 == old(budget)
      ensures ok ==> row == if o in committed.orders then Some(committed.orders[o]) else None
      ensures !ok ==> lost && budget == old(budget)
      ensures lost && !old(lost) ==> budget == 0
    {
      ok := Reach();
      row := if o in committed.orders then Some(committed.orders[o]) else None;
    }

    method HasActiveOrder(user: UserId) returns (ok: bool, found: bool)
      modifies this`broken, this`lost, this`budget
      ensures ok ==> !old(broken) && !broken && !old(lost) && !lost && budget + 1 == old(budget)
      ensures ok ==> found == HasActive(work.orders, user)
      ensures !ok ==> broken && budget == old(budget) && (old(broken) || lost) && (old(lost) ==> lost)
      ensures lost && !old(lost) ==> budget == 0
    {
      ok := Send();
      found := HasActive(work.orders, user);
    }

    // INSERT INTO orders: amounts are given in micros and stored rounded, under the primary key,
    // the foreign keys and the CHECK and NUMERIC(12, 2) bounds. A new order has no item rows yet.
    method CreateOrder(o: OrderId, user: UserId, promo: Option<PromoId>, total: int, discount: int)
      returns (ok: bool, row: Order)
      modifies this`work, this`broken, this`lost, this`budget
      ensures row == Order(user, CREATED, promo, RoundToCents(total), RoundToCents(discount))
      ensures ok ==> !old(broken) && !broken && !old(lost) && !lost
      ensures ok ==> OrderRowOk(row) && o !in old(work).orders && user in old(work).users
      ensures ok && promo.Some? ==> promo.value in old(work).promos
      ensures ok ==> work == old(work).(orders := old(work).orders[o := row], items := old(work).items[o := []])
      ensures !ok ==> broken && work == old(work) && (old(lost) ==> lost)
      ensures !ok ==>
                || old(broken) || lost || !OrderRowOk(row) || o in work.orders || user !in work.users
                || (promo.Some? && promo.value !in work.promos)
      ensures budget <= old(budget) <= budget + 1
      ensures lost && !old(lost) ==> budget == 0
    {
      row := Order(user, CREATED, promo, RoundToCents(total), RoundToCents(discount));
      ok := Send();
      if ok {
        if OrderRowOk(row) && o !in work.orders && user in work.users && (promo.Some? ==> promo.value in work.promos) {
          work := work.(orders := work.orders[o := row], items := work.items[o := []]);
        } else {
          ok, broken := false, true;
        }
      }
    }

    // Order rows are never deleted, so both updates below find the row their caller has read.
    method UpdateOrderAmounts(o: OrderId, total: int, discount: int, promo: Option<PromoId>)
      returns (ok: bool, row: Order)
      requires o in work.orders
      modifies this`work, this`broken, this`lost, this`budget
      ensures row == old(work).orders[o].(promo := promo, total := RoundToCents(total),
          discount := RoundToCents(discount))
      ensures ok ==> !old(broken) && !broken && !old(lost) && !lost
      ensures ok ==> OrderRowOk(row) && work == old(work).(orders := old(work).orders[o := row])
      ensures !ok ==> broken && work == old(work) && (old(lost) ==> lost) && (old(broken) || lost || !OrderRowOk(row))
      ensures budget <= old(budget) <= budget + 1
      ensures lost && !old(lost) ==> budget == 0
    {
      row := work.orders[o].(promo := promo, total := RoundToCents(total), discount := RoundToCents(discount));
      ok := Send();
      if ok {
        if OrderRowOk(row) {
          work := work.(orders := work.orders[o := row]);
        } else {
          ok, broken := false, true;
        }
      }
    }

    method UpdateOrderStatus(o: OrderId, status: OrderStatus) returns (ok: bool, row: Order)
      requires o in work.orders
      modifies this`work, this`broken, this`lost, this`budget
      ensures row == old(work).orders[o].(status := status)
      ensures ok ==> !old(broken) && !broken && !old(lost) && !lost
      ensures ok ==> work == old(work).(orders := old(work).orders[o := row])
      ensures !ok ==> broken && work == old(work) && (old(lost) ==> lost) && (old(broken) || lost)
      ensures budget <= old(budget) <= budget + 1
      ensures lost && !old(lost) ==> budget == 0
    {
      row := work.orders[o].(status := status);
      ok := Send();
      if ok { work := work.(orders := work.orders[o := row]); }
    }

    // ---- order items ----

    // ORDER BY id over random UUIDs: the rows come in any order.
    method GetOrderItems(o: OrderId) returns (ok: bool, rows: seq<Item>)
      modifies this`broken, this`lost, this`budget
      ensures ok ==> !old(broken) && !broken && !old(lost) && !lost && budget + 1 == old(budget)
      ensures multiset(rows) == multiset(ItemsOf(work.items, o))
      ensures !ok ==> broken && budget == old(budget) && (old(broken) || lost) && (old(lost) ==> lost)
      ensures lost && !old(lost) ==> budget == 0
    {
      ok := Send();
      rows :| multiset(rows) == multiset(ItemsOf(work.items, o));
    }

    method CreateOrderItem(o: OrderId, row: Item) returns (ok: bool)
      modifies this`work, this`broken, this`lost, this`budget
      ensures ok ==> !old(broken) && !broken && !old(lost) && !lost
      ensures ok ==> ItemRowOk(row) && row.product in old(work).products && o in old(work).orders
      ensures ok ==> work == old(work).(items := old(work).items[o := ItemsOf(old(work).items, o) + [row]])
      ensures !ok ==> broken && work == old(work) && (old(lost) ==> lost)
      ensures !ok ==> (old(broken) || lost || !ItemRowOk(row) || row.product !in work.products || o !in work.orders)
      ensures budget <= old(budget) <= budget + 1
      ensures lost && !old(lost) ==> budget == 0
    {
      ok := Send();
      if ok {
        if ItemRowOk(row) && row.product in work.products && o in work.orders {
          work := work.(items := work.items[o := ItemsOf(work.items, o) + [row]]);
        } else {
          ok, broken := false, true;
        }
      }
    }

    method DeleteOrderItems(o: OrderId) returns (ok: bool)
      modifies this`work, this`broken, this`lost, this`budget
      ensures ok ==> !old(broken) && !broken && !old(lost) && !lost
      ensures ok ==> work == old(work).(items := old(work).items[o := []])
      ensures !ok ==> broken && work == old(work) && (old(lost) ==> lost) && (old(broken) || lost)
      ensures budget <= old(budget) <= budget + 1
      ensures lost && !old(lost) ==> budget == 0
    {
      ok := Send();
      if ok { work := work.(items := work.items[o := []]); }
    }

    // ---- operation log ----

    // Outside a transaction: ORDER BY created_at DESC LIMIT 1, found by scanning the log.
    method GetLastOperation(user: UserId, kind: OperationType) returns (ok: bool, last: Option<Time>)
      modifies this`lost, this`budget
      ensures ok ==> !old(lost) && !lost && budget + 1 == old(budget)
      ensures ok ==> last == LastOperation(committed.ops, user, kind)
      ensures !ok ==> lost && budget == old(budget)
      ensures lost && !old(lost) ==> budget == 0
    {
      ok := Reach();
      last := LastOperation(committed.ops, user, kind);
    }

    method CreateOperation(user: UserId, kind: OperationType, now: Time) returns (ok: bool)
      modifies this`work, this`broken, this`lost, this`budget
      ensures ok ==> !old(broken) && !broken && !old(lost) && !lost && user in old(work).users
      ensures ok ==> work == old(work).(ops := old(work).ops + [Operation(user, kind, now)])
      ensures !ok ==> broken && work == old(work) && (old(lost) ==> lost)
      ensures !ok ==> old(broken) || lost || user !in work.users
      ensures budget <= old(budget) <= budget + 1
      ensures lost && !old(lost) ==> budget == 0
    {
      ok := Send();
      if ok {
        if user in work.users {
          work := work.(ops := work.ops + [Operation(user, kind, now)]);
        } else {
          ok, broken := false, true;
        }
      }
    }
  }
}
