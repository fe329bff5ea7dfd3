/**
 The rows of the marketplace database and the table constraints its statements run under.

 Ids stand for UUIDs, times for instants on one clock, amounts are cents (see Money).
 */
module Schema {
  import opened Money

  const MAX_INT := 2_147_483_647

  datatype Option<+T> = None | Some(value: T)
  datatype Result<+T> = Ok(value: T) | Err(error: Error)

  type UserId = nat
  type ProductId = nat
  type PromoId = nat
  type OrderId = nat
  type Time = int

  datatype Shortage = Shortage(product: ProductId, requested: int, available: int)

  // The error kinds of the services. StatementFailed is any SQL or driver error.
  datatype Error =
    | OrderLimitExceeded
    | OrderHasActive
    | ProductNotFound(product: ProductId)
    | ProductInactive(product: ProductId)
    | InsufficientStock(shortages: seq<Shortage>)
    | PromoCodeInvalid
    | PromoCodeMinAmount
    | OrderNotFound
    | OrderOwnershipViolation
    | InvalidStateTransition
    | AccessDenied
    | StatementFailed

  datatype Role = USER | SELLER | ADMIN
  datatype ProductStatus = ACTIVE | INACTIVE | ARCHIVED
  datatype OrderStatus = CREATED | PAYMENT_PENDING | PAID | SHIPPED | COMPLETED | CANCELED
  datatype OperationType = CREATE_ORDER | UPDATE_ORDER

  datatype Product = Product(price: int, stock: int, status: ProductStatus, seller: Option<UserId>)
  datatype Promo = Promo(code: string, kind: DiscountType, amount: int, minAmount: int, maxUses: int,
                         uses: int, validFrom: Time, validUntil: Time, active: bool)
  datatype Order = Order(user: UserId, status: OrderStatus, promo: Option<PromoId>, total: int, discount: int)
  datatype Item = Item(product: ProductId, quantity: int, price: int)
  datatype Operation = Operation(user: UserId, kind: OperationType, at: Time)

  type Products = map<ProductId, Product>
  type Promos = map<PromoId, Promo>

  // `codes` is the unique index on promo_codes.code; `items` keeps the rows
  // of each order together, in the order they were inserted.
  datatype Db = Db(users: set<UserId>,
                   products: Products,
                   promos: Promos,
                   codes: map<string, PromoId>,
                   orders: map<OrderId, Order>,
                   items: map<OrderId, seq<Item>>,
                   ops: seq<Operation>)

  // One requested line of a basket.
  datatype Line = Line(product: ProductId, quantity: int)

  function ItemsOf(items: map<OrderId, seq<Item>>, o: OrderId): seq<Item> {
    if o in items then items[o] else []
  }

  predicate IsActive(order: Order) {
    order.status == CREATED || order.status == PAYMENT_PENDING
  }

  predicate HasActive(orders: map<OrderId, Order>, user: UserId) {
    exists o :: o in orders && orders[o].user == user && IsActive(orders[o])
  }

  // Row constraints: the CHECK clauses and the ranges of INTEGER and NUMERIC(12, 2).
  predicate ProductRowOk(p: Product) {
    0 < p.price < NUMERIC_LIMIT && 0 <= p.stock <= MAX_INT
  }

  predicate PromoRowOk(r: Promo) {
    && 0 < r.amount < NUMERIC_LIMIT
    && 0 <= r.minAmount < NUMERIC_LIMIT
    && 0 < r.maxUses <= MAX_INT
    && 0 <= r.uses <= MAX_INT
    && r.validUntil > r.validFrom
  }

  predicate OrderRowOk(o: Order) {
    0 <= o.total < NUMERIC_LIMIT && 0 <= o.discount < NUMERIC_LIMIT
  }

  predicate ItemRowOk(i: Item) {
    0 < i.quantity <= MAX_INT && 0 < i.price < NUMERIC_LIMIT
  }

  ghost predicate ProductsOk(products: Products) {
    forall p :: p in products ==> ProductRowOk(products[p])
  }

  ghost predicate PromosOk(promos: Promos, codes: map<string, PromoId>) {
    && (forall r :: r in promos ==> PromoRowOk(promos[r]))
    && (forall r :: r in promos ==> promos[r].code in codes && codes[promos[r].code] == r)
    && (forall c :: c in codes ==> codes[c] in promos && promos[codes[c]].code == c)
  }

  ghost predicate OrdersOk(db: Db) {
    && (forall o :: o in db.orders ==> OrderRowOk(db.orders[o]) && db.orders[o].user in db.users)
    && (forall o :: o in db.orders && db.orders[o].promo.Some? ==> db.orders[o].promo.value in db.promos)
  }

  ghost predicate ItemRowsOk(products: Products, rows: seq<Item>) {
    forall i :: 0 <= i < |rows| ==> ItemRowOk(rows[i]) && rows[i].product in products
  }

  ghost predicate ItemsTableOk(db: Db) {
    && db.items.Keys == db.orders.Keys
    && forall o :: o in db.items ==> ItemRowsOk(db.products, db.items[o])
  }

  // Everything the table definitions guarantee of committed data.
  ghost predicate SchemaOk(db: Db) {
    ProductsOk(db.products) && PromosOk(db.promos, db.codes) && OrdersOk(db) && ItemsTableOk(db)
  }
}
