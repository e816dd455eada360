/**
 The tables of the shop.  Money is in integer cents of one currency.  A table is a map from primary
 key to row; the line items and the coupon applications of a cart are kept, in insertion order, with
 the cart they belong to.
 */
module Schema {

  datatype Option<+T> = None | Some(value: T)

  datatype Result<+R, +E> = Ok(value: R) | Err(error: E)

  lemma EmptyOrNot(s: set<int>)
    ensures s == {} || exists x :: x in s
  {
    if forall x :: x !in s {
      assert s == {};
    }
  }

  type TenantId = int
  type UserId = int
  type CartId = int
  type ProductId = int
  type CouponId = int
  type AddressId = int
  type MethodId = int
  type OrderId = int
  type PaymentId = int
  /** A client-supplied Idempotency-Key. */
  type Key = int

  /** Fourteen-digit money columns with two decimals hold amounts below this many cents. */
  const MONEY_BOUND: nat := 100_000_000_000_000

  // ---------------------------------------------------------------- carts

  datatype CartStatus = Active | CheckedOut

  datatype Item = Item(product: ProductId, quantity: nat, price: nat)

  datatype Application = Application(coupon: CouponId, discount: nat)

  datatype Buyer = Buyer(company: string, taxNumber: string, reference: string)

  datatype Cart = Cart(
    tenant: TenantId,
    user: UserId,
    status: CartStatus,
    items: seq<Item>,
    applied: seq<Application>,
    total: nat,
    discount: nat,
    payable: nat,
    version: nat,
    address: Option<AddressId>,
    paymentMethod: Option<MethodId>,
    buyer: Buyer)

  // -------------------------------------------------------------- coupons

  datatype DiscountType = Percentage | Fixed

  /** A JSON value of a coupon's constraint bag, seen through the coercions the rules apply to it. */
  datatype Value = Null | Json(decimal: Option<real>, integer: Option<int>, list: Option<seq<string>>)

  /** `value` counts hundredths: of a percentage point, or of a currency unit. */
  datatype Coupon = Coupon(
    tenant: TenantId,
    code: string,
    discountType: DiscountType,
    value: nat,
    usageLimit: Option<nat>,
    used: nat,
    active: bool,
    startsAt: Option<int>,
    endsAt: Option<int>,
    constraints: seq<(string, Value)>)

  datatype CouponError =
    | CouponNotFound
    | CouponInactive
    | CouponExpired
    | CouponLimitReached
    | CouponConstraintFailed(key: string)
    | CouponAlreadyApplied
    | CouponStackingViolation

  // -------------------------------------------------------------- catalog

  datatype Product = Product(tenant: TenantId, stock: nat)

  datatype Address = Address(tenant: TenantId, user: UserId, deleted: bool)

  datatype PaymentMethod = PaymentMethod(tenant: TenantId, gateway: string)

  // ------------------------------------------------------ orders, payments

  datatype OrderStatus = PendingPayment | Paid | OrderFailed | OrderCancelled

  datatype Order = Order(
    tenant: TenantId,
    user: UserId,
    cart: CartId,
    address: AddressId,
    paymentMethod: MethodId,
    status: OrderStatus,
    subtotal: nat,
    discount: nat,
    total: nat,
    buyer: Buyer,
    key: Key,
    lines: seq<Item>,
    version: nat)

  datatype PaymentStatus =
    RequiresConfirmation | Authorized | Captured | Succeeded | Failed | Cancelled | Refunded

  datatype Payment = Payment(
    tenant: TenantId,
    cart: CartId,
    provider: string,
    status: PaymentStatus,
    amount: nat,
    failureReason: string,
    authorizationId: string,
    captureId: string,
    created: int)

  /** A value of the JSON response body stored with an idempotency record. */
  datatype Field = Uuid(id: int) | Text(text: string) | Amount(cents: nat)

  datatype RecordStatus = RecordInProgress | RecordSucceeded | RecordFailed

  datatype Record = Record(
    hash: string,
    status: RecordStatus,
    responseStatus: Option<nat>,
    body: Option<map<string, Field>>)

  datatype Invoice = Invoice(tenant: TenantId, number: nat, total: nat, taxes: nat, pdfUrl: string)

  type Carts = map<CartId, Cart>

  type Coupons = map<CouponId, Coupon>

  /** The unique index of coupons on (tenant, code). */
  type Codes = map<(TenantId, string), CouponId>

  // ------------------------------------------------------------- database

  /** One committed state of the database. */
  datatype Db = Db(
    carts: Carts,
    coupons: Coupons,
    codes: Codes,
    products: map<ProductId, Product>,
    addresses: map<AddressId, Address>,
    methods: map<MethodId, PaymentMethod>,
    orders: map<OrderId, Order>,
    payments: map<PaymentId, Payment>,
    records: map<(TenantId, Key), Record>,
    /** One invoice per order: keyed by the order it belongs to. */
    invoices: map<OrderId, Invoice>,
    sequences: map<TenantId, nat>)

  /** The database as the services see it: tables that statements update in place. */
  class Database {
    var carts: Carts
    var coupons: Coupons
    var codes: Codes
    var products: map<ProductId, Product>
    var addresses: map<AddressId, Address>
    var methods: map<MethodId, PaymentMethod>
    var orders: map<OrderId, Order>
    var payments: map<PaymentId, Payment>
    var records: map<(TenantId, Key), Record>
    var invoices: map<OrderId, Invoice>
    var sequences: map<TenantId, nat>

    constructor (db: Db)
      ensures Tables() == db
    {
      carts, coupons, codes, products := db.carts, db.coupons, db.codes, db.products;
      addresses, methods, orders, payments := db.addresses, db.methods, db.orders, db.payments;
      records, invoices, sequences := db.records, db.invoices, db.sequences;
    }

    /** All tables as one value. */
    function Tables(): Db
      reads this
    {
      Db(carts, coupons, codes, products, addresses, methods, orders, payments, records, invoices, sequences)
    }
  }
}
