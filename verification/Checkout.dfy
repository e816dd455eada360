/**
 One checkout: as a function from a database to the database after its transaction, and as the service
 that runs it statement by statement.
 */
module Checkout {
  import opened Schema
  import opened CartRules
  import opened Validation
  import opened CouponRules
  import opened Idempotency
  import opened RedisStore
  import Locks

  /** A checkout request, with the clock reading and the default country its validation sees. */
  datatype Attempt = Attempt(
    tenant: TenantId,
    cart: CartId,
    address: AddressId,
    paymentMethod: MethodId,
    key: Key,
    hash: string,
    now: int,
    country: Option<string>)

  datatype CheckoutError =
    | CartNotFound
    | CartAlreadyCheckedOut
    | AddressNotFound
    | PaymentMethodInvalid
    | CartEmpty
    | CouponsRejected(reason: ApplyError)
    | ProductOutOfStock(product: ProductId)
    | CartStaleVersion
    /** The unique constraint on (tenant, key) of the idempotency records. */
    | DuplicateRecord
    | LockNotAcquired
    | IdempotencyConflict
    | IdempotencyInProgress
    /** The database aborted the transaction: a deadlock victim, a lost connection. */
    | DatabaseAborted
    /** The record of the key does not name an order. */
    | BrokenRecord
    /** A Redis command failed where the failure is raised. */
    | RedisUnavailable

  // ------------------------------------------------------------------ stock

  type Products = map<ProductId, Product>

  /** The conditional UPDATE of one product would match its row. */
  predicate InStock(products: Products, tenant: TenantId, item: Item)
  {
    item.product in products && products[item.product].tenant == tenant && products[item.product].stock >= item.quantity
  }

  function Decremented(products: Products, item: Item): Products
    requires item.product in products && products[item.product].stock >= item.quantity
  {
    products[item.product := products[item.product].(stock := products[item.product].stock - item.quantity)]
  }

  /** The stock of every item taken, or the first product that is short. */
  function TakeAll(products: Products, tenant: TenantId, items: seq<Item>): Result<Products, ProductId>
  {
    if items == [] then Ok(products)
    else if !InStock(products, tenant, items[0]) then Err(items[0].product)
    else TakeAll(Decremented(products, items[0]), tenant, items[1..])
  }

  // ------------------------------------------------------- the transaction

  function OrderOf(a: Attempt, cart: Cart): Order
  {
    Order(cart.tenant, cart.user, a.cart, a.address, a.paymentMethod, PendingPayment,
          cart.total, cart.discount, cart.payable, cart.buyer, a.key, cart.items, 0)
  }

  function PaymentOf(a: Attempt, cart: Cart, provider: string): Payment
  {
    Payment(cart.tenant, a.cart, provider, RequiresConfirmation, cart.payable, "", "", "", a.now)
  }

  function ResultFor(id: OrderId, order: Order): CheckoutResult
  {
    CheckoutResult(id, id, "pending", order.total, 202, order.buyer)
  }

  /** Why the rows a checkout refers to do not admit it. */
  function Refusal(db: Db, a: Attempt): Option<CheckoutError>
  {
    if !Owned(db.carts, a.tenant, a.cart) then Some(CartNotFound)
    else
      var cart := db.carts[a.cart];
      if cart.status != Active then Some(CartAlreadyCheckedOut)
      else if a.address !in db.addresses
              || db.addresses[a.address] != Address(a.tenant, cart.user, false) then Some(AddressNotFound)
      else if a.paymentMethod !in db.methods || db.methods[a.paymentMethod].tenant != a.tenant then Some(PaymentMethodInvalid)
      else if cart.items == [] then Some(CartEmpty)
      else None
  }

  /** The database with the rows of one checkout of the revalidated `cart`, `products` being what is left in stock. */
  function Written(db: Db, a: Attempt, id: OrderId, cart: Cart, provider: string, products: Products): Db
  {
    var order := OrderOf(a, cart);
    db.(products := products,
        orders := db.orders[id := order],
        carts := db.carts[a.cart := cart.(status := CheckedOut, version := cart.version + 1)],
        payments := db.payments[id := PaymentOf(a, cart, provider)],
        records := db.records[(a.tenant, a.key) := RecordOf(a.hash, ResultFor(id, order))])
  }

  /** What a checkout has in hand before it inserts its rows: the revalidated cart and what is left in stock. */
  datatype Prepared = Prepared(cart: Cart, products: Products)

  function Prepare(rules: Rules, db: Db, a: Attempt): Result<Prepared, CheckoutError>
  {
    match Refusal(db, a)
    case Some(e) => Err(e)
    case None =>
      match Revalidated(rules, db.coupons, db.carts[a.cart], a.now, a.country)
      case Err(e) => Err(CouponsRejected(e))
      case Ok(cart) =>
        match TakeAll(db.products, a.tenant, cart.items)
        case Err(p) => Err(ProductOutOfStock(p))
        case Ok(products) => Ok(Prepared(cart, products))
  }

  /**
   The whole checkout transaction at one instant.  `id` is the identifier drawn for the order and its
   payment.
   */
  function Atomic(rules: Rules, db: Db, a: Attempt, id: OrderId): Result<Db, CheckoutError>
  {
    match Prepare(rules, db, a)
    case Err(e) => Err(e)
    case Ok(p) =>
      if (a.tenant, a.key) in db.records then Err(DuplicateRecord)
      else Ok(Written(db, a, id, p.cart, db.methods[a.paymentMethod].gateway, p.products))
  }

  /** What a call returns when the durable record or the sentinel decides. */
  function DecidedResult(check: Check): Result<CheckoutResult, CheckoutError>
  {
    match check
    case Conflict => Err(IdempotencyConflict)
    case Replay(record) => if ResultOf(record).Some? then Ok(ResultOf(record).value) else Err(BrokenRecord)
    case _ => Err(IdempotencyInProgress)
  }

  /** The answer for a revalidated cart, field by field. */
  ghost predicate ReceiptFor(result: CheckoutResult, id: OrderId, cart: Cart)
  {
    && result.orderId == id && result.paymentId == id
    && result.paymentStatus == "pending" && result.httpStatus == 202
    && result.total == cart.payable
    && result.buyer.company == cart.buyer.company
    && result.buyer.taxNumber == cart.buyer.taxNumber
    && result.buyer.reference == cart.buyer.reference
  }

  /**
   What a successful checkout answers, from the cart before the call: its own order and payment, what the
   lines and snapshots leave to pay, the buyer; and the record of its key gives back that answer.
   */
  ghost predicate Receipt(before: Db, after: Db, a: Attempt, id: OrderId, result: CheckoutResult)
  {
    && a.cart in before.carts
    && var cart := before.carts[a.cart];
    && var total, discount := SumItems(cart.items), SumApplied(cart.applied);
    && result.orderId == id && result.paymentId == id
    && result.paymentStatus == "pending" && result.httpStatus == 202
    && result.total == (if discount <= total then total - discount else 0)
    && result.buyer.company == cart.buyer.company
    && result.buyer.taxNumber == cart.buyer.taxNumber
    && result.buyer.reference == cart.buyer.reference
    && (a.tenant, a.key) in after.records
    && var record := after.records[(a.tenant, a.key)];
    && record.hash == a.hash && record.status == RecordSucceeded && record.responseStatus == Some(202)
    && ResultOf(record) == Some(result)
  }

  lemma AtomicGivesReceipt(rules: Rules, before: Db, a: Attempt, id: OrderId)
    requires Atomic(rules, before, a, id).Ok?
    ensures var db := Atomic(rules, before, a, id).value;
            id in db.orders && Receipt(before, db, a, id, ResultFor(id, db.orders[id]))
  {
    var cart := Prepare(rules, before, a).value.cart;
    ResultRoundTrip(a.hash, ResultFor(id, OrderOf(a, cart)));
  }

  /** What the rows must be for a checkout to get as far as its coupons. */
  ghost predicate RowsAdmit(db: Db, a: Attempt)
  {
    && a.cart in db.carts && db.carts[a.cart].tenant == a.tenant && db.carts[a.cart].status == Active
    && db.carts[a.cart].items != []
    && a.address in db.addresses && db.addresses[a.address].tenant == a.tenant
    && db.addresses[a.address].user == db.carts[a.cart].user && !db.addresses[a.address].deleted
    && a.paymentMethod in db.methods && db.methods[a.paymentMethod].tenant == a.tenant
  }

  /** The checks of a checkout in their order, each with its error: cart, status, address, method, lines, coupons. */
  lemma CheckoutRefusals(rules: Rules, db: Db, a: Attempt, id: OrderId)
    ensures var r := Atomic(rules, db, a, id);
            if !(a.cart in db.carts && db.carts[a.cart].tenant == a.tenant) then r == Err(CartNotFound)
            else if db.carts[a.cart].status != Active then r == Err(CartAlreadyCheckedOut)
            else if !(a.address in db.addresses && db.addresses[a.address].tenant == a.tenant
                      && db.addresses[a.address].user == db.carts[a.cart].user && !db.addresses[a.address].deleted)
            then r == Err(AddressNotFound)
            else if !(a.paymentMethod in db.methods && db.methods[a.paymentMethod].tenant == a.tenant)
            then r == Err(PaymentMethodInvalid)
            else if |db.carts[a.cart].items| == 0 then r == Err(CartEmpty)
            else
              var coupons := Revalidated(rules, db.coupons, db.carts[a.cart], a.now, a.country);
              if coupons.Err? then r == Err(CouponsRejected(coupons.error))
              else
                var stock := TakeAll(db.products, a.tenant, db.carts[a.cart].items);
                if stock.Err? then r == Err(ProductOutOfStock(stock.error))
                else if (a.tenant, a.key) in db.records then r == Err(DuplicateRecord)
                else r.Ok?
  {
  }

  /** The answer when the durable record decides: its own result, or the error for another request or a torn record. */
  lemma DecidedAnswers(records: map<(TenantId, Key), Record>, a: Attempt)
    ensures var k := (a.tenant, a.key);
            var decided := RecordDecides(records, a.tenant, a.key, a.hash);
            && (decided.None? <==> k !in records || (records[k].hash == a.hash && records[k].status != RecordSucceeded))
            && (decided.Some? ==>
                  DecidedResult(decided.value)
                  == if records[k].hash != a.hash then Err(IdempotencyConflict)
                     else if ResultOf(records[k]).Some? then Ok(ResultOf(records[k]).value) else Err(BrokenRecord))
  {
  }

  // ------------------------------------------------ the service, step by step

  class CheckoutService {
    const redis: Redis
    const coupons: CouponService
    const manager: IdempotencyManager
    const lockTtl: int

    constructor (redis: Redis, coupons: CouponService, manager: IdempotencyManager, lockTtl: int)
      ensures this.redis == redis && this.coupons == coupons && this.manager == manager && this.lockTtl == lockTtl
    {
      this.redis, this.coupons, this.manager, this.lockTtl := redis, coupons, manager, lockTtl;
    }

    /**
     The whole service call at a quiet moment: `now` is the time of its first Redis command, `later`
     that of the lock release.  The durable record decides first; then the sentinel, then the lock can
     turn the call away; otherwise the transaction runs and both are released whatever its outcome.
     */
    method Run(d: Database, a: Attempt, id: OrderId, token: string, now: int, later: int)
      returns (r: Result<CheckoutResult, CheckoutError>)
      requires manager.redis == redis
      modifies redis, d`carts, d`coupons, d`products, d`orders, d`payments, d`records
      ensures var decided := RecordDecides(old(d.records), a.tenant, a.key, a.hash);
              var sentinel, lock := SentinelKey(a.tenant, a.key), LockKey(a.tenant, a.cart);
              if decided.Some? then
                && Same(old(d.Tables()), d.Tables()) && redis.store == old(redis.store)
                && r == DecidedResult(decided.value)
              else if Live(old(redis.store), sentinel, now).Some? then
                && Same(old(d.Tables()), d.Tables()) && redis.store == old(redis.store)
                && r == Err(IdempotencyInProgress)
              else if Live(old(redis.store), lock, now).Some? then
                && Same(old(d.Tables()), d.Tables()) && redis.store == old(redis.store) - {sentinel}
                && r == Err(LockNotAcquired)
              else
                && Live(redis.store, sentinel, later).None? && Live(redis.store, lock, later).None?
                && Elsewhere(old(redis.store), redis.store, {sentinel, lock})
                && Transacted(coupons.validator.rules, old(d.Tables()), d.Tables(), a, id, r)
    {
      var check := manager.CheckForReplay(d, a.tenant, a.key, a.hash, now);
      match check {
        case Conflict => return Err(IdempotencyConflict);
        case InProgress => return Err(IdempotencyInProgress);
        case Replay(record) =>
          var replayed := ResultOf(record);
          return if replayed.Some? then Ok(replayed.value) else Err(BrokenRecord);
        case Fresh =>
      }
      r := RunMarked(d, a, id, token, now, later);
    }

    /** Steps 2 to 16: the sentinel is set, and cleared whatever the outcome. */
    method RunMarked(d: Database, a: Attempt, id: OrderId, token: string, now: int, later: int)
      returns (r: Result<CheckoutResult, CheckoutError>)
      requires manager.redis == redis
      modifies redis, d`carts, d`coupons, d`products, d`orders, d`payments, d`records
      ensures var sentinel, lock := SentinelKey(a.tenant, a.key), LockKey(a.tenant, a.cart);
              if Live(old(redis.store), sentinel, now).Some? then
                && Same(old(d.Tables()), d.Tables()) && redis.store == old(redis.store)
                && r == Err(IdempotencyInProgress)
              else if Live(old(redis.store), lock, now).Some? then
                && Same(old(d.Tables()), d.Tables()) && redis.store == old(redis.store) - {sentinel}
                && r == Err(LockNotAcquired)
              else
                && Live(redis.store, sentinel, later).None? && Live(redis.store, lock, later).None?
                && Elsewhere(old(redis.store), redis.store, {sentinel, lock})
                && Transacted(coupons.validator.rules, old(d.Tables()), d.Tables(), a, id, r)
    {
      ghost var before := redis.store;
      var marked := manager.MarkInProgress(a.tenant, a.key, now);
      if !marked {
        return Err(IdempotencyInProgress);
      }
      ghost var mark := redis.store[SentinelKey(a.tenant, a.key)];
      r := RunUnderLock(d, a, id, token, now, later);
      ghost var after, held := d.Tables(), redis.store;
      manager.ClearInProgress(a.tenant, a.key);
      assert d.Tables() == after;
      SentinelCleared(before, held, mark, SentinelKey(a.tenant, a.key), LockKey(a.tenant, a.cart), now, later);
    }

    /** Setting and clearing the sentinel around the lock leaves the other keys as they were. */
    static lemma SentinelCleared(before: Store, held: Store, mark: Entry, sentinel: RedisKey, lock: RedisKey, now: int, later: int)
      requires sentinel != lock && Live(before, sentinel, now).None?
      ensures Live(before[sentinel := mark], lock, now) == Live(before, lock, now)
      ensures Live(held - {sentinel}, sentinel, later).None?
      ensures Live(held, lock, later).None? ==> Live(held - {sentinel}, lock, later).None?
      ensures held == before[sentinel := mark] ==> held - {sentinel} == before - {sentinel}
      ensures Elsewhere(before[sentinel := mark], held, {lock}) ==> Elsewhere(before, held - {sentinel}, {sentinel, lock})
    {
    }

    /** Redis is as it was but for some keys. */
    static ghost predicate Elsewhere(before: Store, after: Store, keys: set<RedisKey>)
    {
      forall k :: k !in keys ==> (k in after <==> k in before) && (k in before ==> after[k] == before[k])
    }

    /** The `with redis_lock` block around the transaction. */
    method RunUnderLock(d: Database, a: Attempt, id: OrderId, token: string, now: int, later: int)
      returns (r: Result<CheckoutResult, CheckoutError>)
      modifies redis, d`carts, d`coupons, d`products, d`orders, d`payments, d`records
      ensures var lock := LockKey(a.tenant, a.cart);
              if Live(old(redis.store), lock, now).Some? then
                && Same(old(d.Tables()), d.Tables()) && redis.store == old(redis.store)
                && r == Err(LockNotAcquired)
              else
                && Transacted(coupons.validator.rules, old(d.Tables()), d.Tables(), a, id, r)
                && Live(redis.store, lock, later).None? && Elsewhere(old(redis.store), redis.store, {lock})
    {
      var acquired := Locks.AcquireLock(redis, LockKey(a.tenant, a.cart), token, now, lockTtl);
      if !acquired {
        return Err(LockNotAcquired);
      }
      r := RunCheckoutTransaction(d, a, id);
      Locks.ReleaseLock(redis, LockKey(a.tenant, a.cart), token, later);
    }

    /** The transaction took effect at one instant, or returned its error and had no effect. */
    static ghost predicate Transacted(rules: Rules, before: Db, after: Db, a: Attempt, id: OrderId,
                                      r: Result<CheckoutResult, CheckoutError>)
    {
      match Atomic(rules, before, a, id)
      case Ok(db) =>
        && Same(db, after) && id in db.orders && r == Ok(ResultFor(id, db.orders[id]))
        && Receipt(before, after, a, id, r.value)
      case Err(e) => Same(before, after) && r == Err(e)
    }

    /** The tables a checkout may write are equal. */
    static ghost predicate Same(db: Db, db': Db)
    {
      && db'.carts == db.carts && db'.coupons == db.coupons && db'.products == db.products
      && db'.orders == db.orders && db'.payments == db.payments && db'.records == db.records
    }

    /** The database transaction: it commits all its rows, or an error leaves every table as it was. */
    method RunCheckoutTransaction(d: Database, a: Attempt, id: OrderId) returns (r: Result<CheckoutResult, CheckoutError>)
      modifies d`carts, d`coupons, d`products, d`orders, d`payments, d`records
      ensures Transacted(coupons.validator.rules, old(d.Tables()), d.Tables(), a, id, r)
    {
      var savepoint := d.Tables();
      r := WriteRows(d, a, id);
      if r.Ok? {
        AtomicGivesReceipt(coupons.validator.rules, savepoint, a, id);
      }
      if r.Err? {
        Rollback(d, savepoint);
      }
    }

    /** The statements of the transaction; after an error, their writes are left to the rollback. */
    method WriteRows(d: Database, a: Attempt, id: OrderId) returns (r: Result<CheckoutResult, CheckoutError>)
      modifies d`carts, d`coupons, d`products, d`orders, d`payments, d`records
      ensures match Atomic(coupons.validator.rules, old(d.Tables()), a, id)
              case Ok(db) =>
                && Same(db, d.Tables()) && id in db.orders && r == Ok(ResultFor(id, db.orders[id]))
                && Receipt(old(d.Tables()), d.Tables(), a, id, r.value)
              case Err(e) => r == Err(e)
    {
      var prepared := PrepareRows(d, a);
      if prepared.Err? {
        return Err(prepared.error);
      }
      var cart := prepared.value;
      r := InsertRows(d, a, id, cart);
      if r.Ok? {
        AtomicGivesReceipt(coupons.validator.rules, old(d.Tables()), a, id);
      }
      assert r.Ok? ==> d.carts == old(d.carts)[a.cart := cart.(status := CheckedOut, version := cart.version + 1)];
    }

    method Rollback(d: Database, savepoint: Db)
      modifies d`carts, d`coupons, d`products, d`orders, d`payments, d`records
      ensures Same(savepoint, d.Tables())
    {
      d.carts, d.coupons, d.products := savepoint.carts, savepoint.coupons, savepoint.products;
      d.orders, d.payments, d.records := savepoint.orders, savepoint.payments, savepoint.records;
    }

    /** The locks, checks, revalidation and stock decrements; after an error, its writes are left to the rollback. */
    method PrepareRows(d: Database, a: Attempt) returns (r: Result<Cart, CheckoutError>)
      modifies d`carts, d`coupons, d`products
      ensures d.coupons == old(d.coupons)
      ensures match Prepare(coupons.validator.rules, old(d.Tables()), a)
              case Ok(p) => d.carts == old(d.carts)[a.cart := p.cart] && d.products == p.products && r == Ok(p.cart)
              case Err(e) => r == Err(e)
    {
      if a.cart !in d.carts || d.carts[a.cart].tenant != a.tenant {
        return Err(CartNotFound);
      }
      var locked := d.carts[a.cart];
      if locked.status != Active {
        return Err(CartAlreadyCheckedOut);
      }
      if a.address !in d.addresses || d.addresses[a.address] != Address(a.tenant, locked.user, false) {
        return Err(AddressNotFound);
      }
      if a.paymentMethod !in d.methods || d.methods[a.paymentMethod].tenant != a.tenant {
        return Err(PaymentMethodInvalid);
      }
      if locked.items == [] {
        return Err(CartEmpty);
      }
      var revalidation := coupons.RevalidateCartCoupons(d, a.tenant, a.cart, a.now, a.country);
      if revalidation.Err? {
        return Err(CouponsRejected(revalidation.error));
      }
      var short := TakeStock(d, a.tenant, locked.items);
      if short.Some? {
        return Err(ProductOutOfStock(short.value));
      }
      r := Ok(d.carts[a.cart]);
    }

    /** The order, the checked-out cart, the payment and the record; after an error, left to the rollback. */
    method InsertRows(d: Database, a: Attempt, id: OrderId, cart: Cart) returns (r: Result<CheckoutResult, CheckoutError>)
      requires a.cart in d.carts && d.carts[a.cart] == cart && cart.status == Active
      requires a.paymentMethod in d.methods
      modifies d`carts, d`orders, d`payments, d`records
      ensures if (a.tenant, a.key) in old(d.records) then r == Err(DuplicateRecord) && d.records == old(d.records)
              else
                var order := OrderOf(a, cart);
                && d.orders == old(d.orders)[id := order]
                && d.carts == old(d.carts)[a.cart := cart.(status := CheckedOut, version := cart.version + 1)]
                && d.payments == old(d.payments)[id := PaymentOf(a, cart, d.methods[a.paymentMethod].gateway)]
                && d.records == old(d.records)[(a.tenant, a.key) := RecordOf(a.hash, ResultFor(id, order))]
                && r == Ok(ResultFor(id, order)) && ReceiptFor(r.value, id, cart)
    {
      var order := OrderOf(a, cart);
      d.orders := d.orders[id := order];
      var rows := MarkCheckedOut(d, a.cart, cart.version);
      if rows == 0 {
        assert false;
      }
      d.payments := d.payments[id := PaymentOf(a, cart, d.methods[a.paymentMethod].gateway)];
      if (a.tenant, a.key) in d.records {
        return Err(DuplicateRecord);
      }
      var result := ResultFor(id, order);
      d.records := d.records[(a.tenant, a.key) := RecordOf(a.hash, result)];
      r := Ok(result);
    }

    /** One conditional UPDATE per item; on a short product the earlier decrements are left to the rollback. */
    method TakeStock(d: Database, tenant: TenantId, items: seq<Item>) returns (short: Option<ProductId>)
      modifies d`products
      ensures match TakeAll(old(d.products), tenant, items)
              case Ok(products) => short.None? && d.products == products
              case Err(p) => short == Some(p)
    {
      for i := 0 to |items|
        invariant TakeAll(old(d.products), tenant, items) == TakeAll(d.products, tenant, items[i..])
      {
        assert items[i..][1..] == items[i + 1..];
        var rows := DecrementStock(d, tenant, items[i]);
        if rows == 0 {
          return Some(items[i].product);
        }
      }
      short := None;
    }

    /** UPDATE the product's stock WHERE it suffices; the number of rows matched. */
    method DecrementStock(d: Database, tenant: TenantId, item: Item) returns (rows: nat)
      modifies d`products
      ensures rows == if InStock(old(d.products), tenant, item) then 1 else 0
      ensures d.products == if InStock(old(d.products), tenant, item) then Decremented(old(d.products), item) else old(d.products)
    {
      rows := 0;
      if item.product in d.products && d.products[item.product].tenant == tenant
         && d.products[item.product].stock >= item.quantity {
        var product := d.products[item.product];
        d.products := d.products[item.product := product.(stock := product.stock - item.quantity)];
        rows := 1;
      }
    }

    /** UPDATE the cart's status WHERE its version and status are as read; the number of rows matched. */
    method MarkCheckedOut(d: Database, cart: CartId, version: nat) returns (rows: nat)
      requires cart in d.carts
      modifies d`carts
      ensures var row := old(d.carts[cart]);
              var current := row.version == version && row.status == Active;
              && rows == (if current then 1 else 0)
              && d.carts == if current then old(d.carts)[cart := row.(status := CheckedOut, version := row.version + 1)]
                            else old(d.carts)
    {
      var row := d.carts[cart];
      rows := 0;
      if row.version == version && row.status == Active {
        d.carts := d.carts[cart := row.(status := CheckedOut, version := row.version + 1)];
        rows := 1;
      }
    }
  }
}
