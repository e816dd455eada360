/**
 The transactions that customers run, each at one instant: edits of carts and checkouts; and what holds
 of carts, coupons, orders, payments and records between any two of them.
 */
module Sales {
  import opened Schema
  import opened CartRules
  import opened Validation
  import opened CouponRules
  import opened CouponLaws
  import opened Idempotency
  import opened Checkout

  /** What does not change while the shop runs: coupon rules, stacking policy, registered gateways. */
  datatype Config = Config(rules: Rules, policy: Policy, gateways: set<string>)

  /** A transaction on one cart. */
  datatype Edit =
    | OpenCart(tenant: TenantId, cart: CartId, user: UserId)
    | AddProduct(tenant: TenantId, cart: CartId, product: ProductId, price: nat, quantity: int)
    | RemoveProduct(tenant: TenantId, cart: CartId, product: ProductId)
    | ChangeDetail(tenant: TenantId, cart: CartId, detail: Detail)
    | ApplyCoupon(tenant: TenantId, cart: CartId, code: string, now: int, country: Option<string>)
    | RemoveCoupon(tenant: TenantId, cart: CartId, coupon: CouponId)
    | RevalidateCoupons(tenant: TenantId, cart: CartId, now: int, country: Option<string>)

  const EMPTY_BUYER := Buyer("", "", "")

  /** get_or_create of the active cart of a user: `cart` is the identifier drawn for a new one. */
  function Opened(carts: Carts, tenant: TenantId, cart: CartId, user: UserId): Carts
  {
    if cart in carts || exists k :: k in carts && carts[k].tenant == tenant && carts[k].user == user && carts[k].status == Active
    then carts
    else carts[cart := Cart(tenant, user, Active, [], [], 0, 0, 0, 0, None, None, EMPTY_BUYER)]
  }

  function CartsOr(r: Result<Carts, CartError>, l: Ledger): Ledger
  {
    if r.Ok? then l.(carts := r.value) else l
  }

  function LedgerOr(r: Result<Ledger, ApplyError>, l: Ledger): Ledger
  {
    if r.Ok? then r.value else l
  }

  /** The ledger after an edit; an edit that raises an error leaves it as it was. */
  function Edited(cfg: Config, codes: Codes, l: Ledger, e: Edit): Ledger
  {
    match e
    case OpenCart(t, c, u) => l.(carts := Opened(l.carts, t, c, u))
    case AddProduct(t, c, p, price, q) => CartsOr(Add(l.carts, t, c, p, price, q), l)
    case RemoveProduct(t, c, p) => CartsOr(Remove(l.carts, t, c, p), l)
    case ChangeDetail(t, c, d) => CartsOr(SetDetail(l.carts, t, c, d), l)
    case ApplyCoupon(t, c, code, now, country) => LedgerOr(Apply(cfg.rules, cfg.policy, codes, l, t, c, code, now, country), l)
    case RemoveCoupon(t, c, id) => LedgerOr(Unapply(l, t, c, id), l)
    case RevalidateCoupons(t, c, now, country) => LedgerOr(Revalidate(cfg.rules, l, t, c, now, country), l)
  }

  function LedgerOf(db: Db): Ledger
  {
    Ledger(db.carts, db.coupons)
  }

  function AfterEdit(cfg: Config, db: Db, e: Edit): Db
  {
    var l := Edited(cfg, db.codes, LedgerOf(db), e);
    db.(carts := l.carts, coupons := l.coupons)
  }

  /** The database after a checkout at one instant; a refused one leaves it as it was. */
  function AfterCheckout(cfg: Config, db: Db, a: Attempt, id: OrderId): Db
  {
    var r := Atomic(cfg.rules, db, a, id);
    if r.Ok? then r.value else db
  }

  /** An active cart of a user. */
  ghost predicate HasActive(carts: Carts, tenant: TenantId, user: UserId)
  {
    exists k :: k in carts && carts[k].tenant == tenant && carts[k].user == user && carts[k].status == Active
  }

  /** Opening a cart makes one exactly if the user has no active one in the tenant, empty, and touches no other. */
  lemma OpenedExactly(carts: Carts, tenant: TenantId, cart: CartId, user: UserId)
    requires cart !in carts
    ensures var carts' := Opened(carts, tenant, cart, user);
            if HasActive(carts, tenant, user) then carts' == carts
            else
              && cart in carts' && carts' == carts[cart := carts'[cart]]
              && var row := carts'[cart];
              && row.tenant == tenant && row.user == user && row.status == Active
              && row.items == [] && row.applied == [] && row.total == 0 && row.discount == 0 && row.payable == 0
              && row.version == 0 && row.address == None && row.paymentMethod == None
              && row.buyer.company == "" && row.buyer.taxNumber == "" && row.buyer.reference == ""
  {
  }

  /** The partial unique index: at most one active cart per user and tenant. */
  ghost predicate OneActive(carts: Carts)
  {
    forall x, y :: x in carts && y in carts && BothActive(carts[x], carts[y]) ==> x == y
  }

  predicate BothActive(cart: Cart, cart': Cart)
  {
    cart.status == Active && cart'.status == Active && cart.tenant == cart'.tenant && cart.user == cart'.user
  }

  lemma OpeningKeepsOneActive(carts: Carts, tenant: TenantId, cart: CartId, user: UserId)
    requires OneActive(carts)
    ensures OneActive(Opened(carts, tenant, cart, user))
  {
    var carts' := Opened(carts, tenant, cart, user);
    if carts' != carts {
      forall x | x in carts ensures !BothActive(carts'[cart], carts[x]) && !BothActive(carts[x], carts'[cart]) {
      }
    }
  }

  /** Which service an edit calls, with which arguments, and that an error leaves the ledger as it was. */
  lemma EditsCallTheirServices(cfg: Config, codes: Codes, l: Ledger, e: Edit)
    ensures var l' := Edited(cfg, codes, l, e);
            match e
            case OpenCart(t, c, u) => l' == Ledger(Opened(l.carts, t, c, u), l.coupons)
            case AddProduct(t, c, p, price, q) => CartsWere(l, l', Add(l.carts, t, c, p, price, q))
            case RemoveProduct(t, c, p) => CartsWere(l, l', Remove(l.carts, t, c, p))
            case ChangeDetail(t, c, d) => CartsWere(l, l', SetDetail(l.carts, t, c, d))
            case ApplyCoupon(t, c, code, now, country) =>
              LedgerWas(l, l', Apply(cfg.rules, cfg.policy, codes, l, t, c, code, now, country))
            case RemoveCoupon(t, c, id) => LedgerWas(l, l', Unapply(l, t, c, id))
            case RevalidateCoupons(t, c, now, country) => LedgerWas(l, l', Revalidate(cfg.rules, l, t, c, now, country))
  {
  }

  ghost predicate CartsWere(l: Ledger, l': Ledger, r: Result<Carts, CartError>)
  {
    l'.coupons == l.coupons && l'.carts == match r case Ok(carts) => carts case Err(_) => l.carts
  }

  ghost predicate LedgerWas(l: Ledger, l': Ledger, r: Result<Ledger, ApplyError>)
  {
    l' == match r case Ok(after) => after case Err(_) => l
  }

  // ------------------------------------------------------------ invariants

  ghost predicate HasOrder(orders: map<OrderId, Order>, cart: CartId)
  {
    exists o :: o in orders && orders[o].cart == cart
  }

  ghost predicate HasPayment(payments: map<PaymentId, Payment>, cart: CartId)
  {
    exists p :: p in payments && payments[p].cart == cart
  }

  /** An order's amounts agree with its own lines. */
  ghost predicate MoneyOk(order: Order)
  {
    && order.subtotal == SumItems(order.lines) < MONEY_BOUND
    && order.total == Payable(order.subtotal, order.discount)
  }

  /** A record stores the response of this order. */
  ghost predicate Answers(record: Record, o: OrderId)
  {
    && record.status.RecordSucceeded?
    && ResultOf(record).Some?
    && ResultOf(record).value.orderId == o
  }

  /** At most one order and at most one payment per cart. */
  ghost predicate OnePerCart(db: Db)
  {
    && (forall o, o' :: o in db.orders && o' in db.orders && db.orders[o].cart == db.orders[o'].cart ==> o == o')
    && (forall p, p' :: p in db.payments && p' in db.payments && db.payments[p].cart == db.payments[p'].cart ==> p == p')
  }

  /** An order comes with its checked-out cart and its payment, with agreeing amounts. */
  ghost predicate OrderOk(db: Db, o: OrderId)
    requires o in db.orders
  {
    var order := db.orders[o];
    && order.cart in db.carts
    && db.carts[order.cart].status == CheckedOut
    && db.carts[order.cart].tenant == order.tenant
    && HasPayment(db.payments, order.cart)
    && MoneyOk(order)
    && forall p :: p in db.payments && db.payments[p].cart == order.cart ==>
         db.payments[p].amount == order.total && db.payments[p].tenant == order.tenant
  }

  /** The order is recorded under its key: so at most one order per (tenant, key). */
  ghost predicate Recorded(db: Db, o: OrderId)
    requires o in db.orders
  {
    var key := (db.orders[o].tenant, db.orders[o].key);
    key in db.records && Answers(db.records[key], o)
  }

  /** Checked-out carts and payments come with an order. */
  ghost predicate NoOrphans(db: Db)
  {
    && (forall c :: c in db.carts && db.carts[c].status == CheckedOut ==> HasOrder(db.orders, c))
    && (forall p :: p in db.payments ==> HasOrder(db.orders, db.payments[p].cart))
  }

  ghost predicate SalesOk(db: Db)
  {
    && OnePerCart(db)
    && (forall o :: o in db.orders ==> OrderOk(db, o))
    && (forall o :: o in db.orders ==> Recorded(db, o))
    && NoOrphans(db)
  }

  ghost predicate SameKey(order: Order, order': Order)
  {
    order.tenant == order'.tenant && order.key == order'.key
  }

  /**
   Exactly once, as a client would put it: a cart has an order exactly when it is checked out, never
   two orders nor two payments, and a key never has two orders.
   */
  lemma ExactlyOnce(db: Db, c: CartId, o: OrderId, o': OrderId, p: PaymentId, p': PaymentId)
    requires SalesOk(db) && c in db.carts
    ensures db.carts[c].status == CheckedOut <==> HasOrder(db.orders, c)
    ensures HasOrder(db.orders, c) <==> HasPayment(db.payments, c)
    ensures o in db.orders && o' in db.orders && db.orders[o].cart == db.orders[o'].cart ==> o == o'
    ensures p in db.payments && p' in db.payments && db.payments[p].cart == db.payments[p'].cart ==> p == p'
    ensures o in db.orders && o' in db.orders && SameKey(db.orders[o], db.orders[o']) ==> o == o'
  {
    if o in db.orders && o' in db.orders {
      assert Recorded(db, o) && Recorded(db, o');
    }
    if HasOrder(db.orders, c) {
      var x :| x in db.orders && db.orders[x].cart == c;
      assert OrderOk(db, x);
    }
    if HasPayment(db.payments, c) {
      var x :| x in db.payments && db.payments[x].cart == c;
      assert HasOrder(db.orders, db.payments[x].cart);
    }
  }

  /** A succeeded record gives back the order and payment that were written with it. */
  ghost predicate Backed(db: Db, k: (TenantId, Key))
    requires k in db.records
  {
    db.records[k].status.RecordSucceeded? ==>
      var r := ResultOf(db.records[k]);
      && r.Some? && r.value.orderId in db.orders && r.value.paymentId in db.payments
      && var order := db.orders[r.value.orderId];
         && order.tenant == k.0 && order.key == k.1 && order.total == r.value.total
         && db.payments[r.value.paymentId].cart == order.cart
  }

  ghost predicate StoreOk(cfg: Config, db: Db)
  {
    && LedgerOk(cfg.policy, db.codes, LedgerOf(db))
    && SalesOk(db)
    && forall k :: k in db.records ==> Backed(db, k)
  }

  // ------------------------------------------------------------------ edits

  /** The coupon whose counter an edit may change. */
  function CouponTouched(codes: Codes, e: Edit): Option<CouponId>
  {
    match e
    case ApplyCoupon(t, _, code, _, _) => if (t, code) in codes then Some(codes[(t, code)]) else None
    case RemoveCoupon(_, _, id) => Some(id)
    case _ => None
  }

  /**
   An edit reaches its own cart, without changing owner or status, and the counter of its own coupon;
   an existing cart that it changes gets a larger version.
   */
  ghost predicate EditReach(codes: Codes, l: Ledger, l': Ledger, e: Edit)
  {
    && l.carts.Keys <= l'.carts.Keys <= l.carts.Keys + {e.cart}
    && (!e.OpenCart? ==> l'.carts.Keys == l.carts.Keys)
    && (forall k :: k in l.carts && k != e.cart ==> l'.carts[k] == l.carts[k])
    && (e.cart in l.carts ==>
          && SameOwner(l.carts[e.cart], l'.carts[e.cart])
          && (l'.carts[e.cart] == l.carts[e.cart] || l'.carts[e.cart].version > l.carts[e.cart].version))
    && (e.cart !in l.carts && e.cart in l'.carts ==> l'.carts[e.cart].status == Active)
    && SameTerms(l.coupons, l'.coupons)
    && (forall c :: c in l.coupons && CouponTouched(codes, e) != Some(c) ==> l'.coupons[c] == l.coupons[c])
  }

  /** Every edit keeps the ledger, whether it succeeds or raises an error. */
  lemma EditKeepsLedger(cfg: Config, codes: Codes, l: Ledger, e: Edit)
    requires LedgerOk(cfg.policy, codes, l)
    ensures LedgerOk(cfg.policy, codes, Edited(cfg, codes, l, e))
    ensures EditReach(codes, l, Edited(cfg, codes, l, e), e)
  {
    if e.OpenCart? {
      if Opened(l.carts, e.tenant, e.cart, e.user) != l.carts {
        NewRowKeepsLedger(cfg.policy, codes, l, e.cart, Opened(l.carts, e.tenant, e.cart, e.user)[e.cart]);
      }
    } else if e.ApplyCoupon? {
      ApplyEditKeepsLedger(cfg, codes, l, e);
    } else if e.RemoveCoupon? {
      RemoveEditKeepsLedger(cfg, codes, l, e);
    } else {
      CartEditKeepsLedger(cfg, codes, l, e);
    }
  }

  lemma ApplyEditKeepsLedger(cfg: Config, codes: Codes, l: Ledger, e: Edit)
    requires LedgerOk(cfg.policy, codes, l)
    requires e.ApplyCoupon?
    ensures LedgerOk(cfg.policy, codes, Edited(cfg, codes, l, e))
    ensures EditReach(codes, l, Edited(cfg, codes, l, e), e)
  {
    var r := Apply(cfg.rules, cfg.policy, codes, l, e.tenant, e.cart, e.code, e.now, e.country);
    NoReach(codes, l, e);
    if r.Ok? {
      ApplyKeepsLedger(cfg.rules, cfg.policy, codes, l, e.tenant, e.cart, e.code, e.now, e.country);
      OneCartReach(codes, l, r.value, e);
    }
  }

  /** An edit that changes nothing reaches nothing. */
  lemma NoReach(codes: Codes, l: Ledger, e: Edit)
    ensures EditReach(codes, l, l, e)
  {
  }

  lemma OneCartReach(codes: Codes, l: Ledger, l': Ledger, e: Edit)
    requires CouponTouched(codes, e).Some? && OneCartOneCoupon(l, l', e.cart, CouponTouched(codes, e).value)
    ensures EditReach(codes, l, l', e)
  {
  }

  lemma RemoveEditKeepsLedger(cfg: Config, codes: Codes, l: Ledger, e: Edit)
    requires LedgerOk(cfg.policy, codes, l)
    requires e.RemoveCoupon?
    ensures LedgerOk(cfg.policy, codes, Edited(cfg, codes, l, e))
    ensures EditReach(codes, l, Edited(cfg, codes, l, e), e)
  {
    var r := Unapply(l, e.tenant, e.cart, e.coupon);
    NoReach(codes, l, e);
    if r.Ok? {
      UnapplyKeepsLedger(cfg.policy, codes, l, e.tenant, e.cart, e.coupon);
      OneCartReach(codes, l, r.value, e);
    }
  }

  lemma CartEditKeepsLedger(cfg: Config, codes: Codes, l: Ledger, e: Edit)
    requires LedgerOk(cfg.policy, codes, l)
    requires e.AddProduct? || e.RemoveProduct? || e.ChangeDetail? || e.RevalidateCoupons?
    ensures LedgerOk(cfg.policy, codes, Edited(cfg, codes, l, e))
    ensures EditReach(codes, l, Edited(cfg, codes, l, e), e)
  {
    assert e.cart in l.carts ==> CartOk(cfg.policy, l.carts[e.cart], l.coupons);
    NoReach(codes, l, e);
    CartEditIsOneRow(cfg, codes, l, e);
    if Edited(cfg, codes, l, e) != l {
      OneRowKeepsLedger(cfg.policy, codes, l, Edited(cfg, codes, l, e), e);
    }
  }

  /** The coupons of the one cart that changed are as they were. */
  ghost predicate OneRow(l: Ledger, l': Ledger, cart: CartId)
  {
    && OnlyCart(l.carts, l'.carts, cart)
    && l'.carts[cart].applied == l.carts[cart].applied && l'.coupons == l.coupons
  }

  lemma CartEditIsOneRow(cfg: Config, codes: Codes, l: Ledger, e: Edit)
    requires e.AddProduct? || e.RemoveProduct? || e.ChangeDetail? || e.RevalidateCoupons?
    requires e.cart in l.carts ==> TotalsOk(l.carts[e.cart])
    ensures Edited(cfg, codes, l, e) == l || OneRow(l, Edited(cfg, codes, l, e), e.cart)
  {
    match e {
      case AddProduct(t, c, p, price, q) => AddKeepsTotals(l.carts, t, c, p, price, q);
      case RemoveProduct(t, c, p) => RemoveKeepsTotals(l.carts, t, c, p);
      case ChangeDetail(t, c, d) => SetDetailKeepsTotals(l.carts, t, c, d);
      case RevalidateCoupons(t, c, now, country) =>
    }
  }

  lemma OneRowKeepsLedger(policy: Policy, codes: Codes, l: Ledger, l': Ledger, e: Edit)
    requires LedgerOk(policy, codes, l) && OneRow(l, l', e.cart)
    ensures LedgerOk(policy, codes, l') && EditReach(codes, l, l', e)
  {
    RowKeepsLedger(policy, codes, l, e.cart, l'.carts[e.cart]);
    assert l' == Ledger(l.carts[e.cart := l'.carts[e.cart]], l.coupons);
  }

  ghost predicate CartLater(cart: Cart, cart': Cart)
  {
    && cart'.tenant == cart.tenant && cart'.user == cart.user
    && (cart.status == CheckedOut ==> cart'.status == CheckedOut)
    && (cart' == cart || cart'.version > cart.version)
  }

  /** A change that another reader could miss always shows in the version. */
  ghost predicate CartsLater(carts: Carts, carts': Carts)
  {
    forall c :: c in carts ==> c in carts' && CartLater(carts[c], carts'[c])
  }

  lemma EditMovesVersions(cfg: Config, db: Db, e: Edit)
    requires LedgerOk(cfg.policy, db.codes, LedgerOf(db))
    ensures CartsLater(db.carts, AfterEdit(cfg, db, e).carts)
  {
    EditKeepsLedger(cfg, db.codes, LedgerOf(db), e);
    ReachMovesVersions(db.codes, LedgerOf(db), Edited(cfg, db.codes, LedgerOf(db), e), e);
  }

  lemma ReachMovesVersions(codes: Codes, l: Ledger, l': Ledger, e: Edit)
    requires EditReach(codes, l, l', e)
    ensures CartsLater(l.carts, l'.carts)
  {
  }

  /** Only opening a cart can make an active one. */
  lemma EditKeepsOneActive(cfg: Config, db: Db, e: Edit)
    requires LedgerOk(cfg.policy, db.codes, LedgerOf(db)) && OneActive(db.carts)
    ensures OneActive(AfterEdit(cfg, db, e).carts)
  {
    EditKeepsLedger(cfg, db.codes, LedgerOf(db), e);
    if e.OpenCart? {
      OpeningKeepsOneActive(db.carts, e.tenant, e.cart, e.user);
    } else {
      ReachKeepsOneActive(db.codes, LedgerOf(db), Edited(cfg, db.codes, LedgerOf(db), e), e);
    }
  }

  lemma ReachKeepsOneActive(codes: Codes, l: Ledger, l': Ledger, e: Edit)
    requires EditReach(codes, l, l', e) && !e.OpenCart? && OneActive(l.carts)
    ensures OneActive(l'.carts)
  {
    forall x, y | x in l'.carts && y in l'.carts && BothActive(l'.carts[x], l'.carts[y]) ensures x == y {
      assert x in l'.carts.Keys && y in l'.carts.Keys;
      assert BothActive(l.carts[x], l.carts[y]);
    }
  }

  lemma CheckoutKeepsOneActive(cfg: Config, db: Db, a: Attempt, id: OrderId)
    requires OneActive(db.carts)
    ensures OneActive(AfterCheckout(cfg, db, a, id).carts)
  {
    var carts' := AfterCheckout(cfg, db, a, id).carts;
    forall x, y | x in carts' && y in carts' && BothActive(carts'[x], carts'[y]) ensures x == y {
      assert BothActive(db.carts[x], db.carts[y]);
    }
  }

  lemma CheckoutMovesVersions(cfg: Config, db: Db, a: Attempt, id: OrderId)
    ensures CartsLater(db.carts, AfterCheckout(cfg, db, a, id).carts)
  {
  }

  function WithStatus(l: Ledger, c: CartId, status: CartStatus): Ledger
    requires c in l.carts
  {
    l.(carts := l.carts[c := l.carts[c].(status := status)])
  }

  /** The two carts may differ in status, and the two ledgers in nothing else. */
  ghost predicate AlikeButStatus(open: Ledger, closed: Ledger, c: CartId)
  {
    c in open.carts && closed == WithStatus(open, c, CheckedOut)
  }

  lemma RowsAlike(l: Ledger, c: CartId, row: Cart, coupons: Coupons)
    requires c in l.carts
    ensures AlikeButStatus(Ledger(WithStatus(l, c, Active).carts[c := row], coupons),
                           Ledger(WithStatus(l, c, CheckedOut).carts[c := row.(status := CheckedOut)], coupons), c)
  {
  }

  lemma CartEditsIgnoreStatus(cfg: Config, codes: Codes, l: Ledger, c: CartId, e: Edit)
    requires c in l.carts && (e.AddProduct? || e.RemoveProduct? || e.ChangeDetail?) && e.cart == c
    ensures AlikeButStatus(Edited(cfg, codes, WithStatus(l, c, Active), e), Edited(cfg, codes, WithStatus(l, c, CheckedOut), e), c)
  {
    var open' := Edited(cfg, codes, WithStatus(l, c, Active), e);
    RowsAlike(l, c, l.carts[c].(status := Active), l.coupons);
    RowsAlike(l, c, open'.carts[c], l.coupons);
  }

  lemma ApplyIgnoresStatus(cfg: Config, codes: Codes, l: Ledger, c: CartId, e: Edit)
    requires c in l.carts && e.ApplyCoupon? && e.cart == c
    ensures AlikeButStatus(Edited(cfg, codes, WithStatus(l, c, Active), e), Edited(cfg, codes, WithStatus(l, c, CheckedOut), e), c)
  {
    var open' := Edited(cfg, codes, WithStatus(l, c, Active), e);
    RowsAlike(l, c, l.carts[c].(status := Active), l.coupons);
    RowsAlike(l, c, open'.carts[c], open'.coupons);
  }

  lemma RemoveIgnoresStatus(cfg: Config, codes: Codes, l: Ledger, c: CartId, e: Edit)
    requires c in l.carts && (e.RemoveCoupon? || e.RevalidateCoupons?) && e.cart == c
    ensures AlikeButStatus(Edited(cfg, codes, WithStatus(l, c, Active), e), Edited(cfg, codes, WithStatus(l, c, CheckedOut), e), c)
  {
    var open' := Edited(cfg, codes, WithStatus(l, c, Active), e);
    RowsAlike(l, c, l.carts[c].(status := Active), l.coupons);
    RowsAlike(l, c, open'.carts[c], open'.coupons);
  }

  /**
   No mutator asks whether the cart is checked out: each succeeds on a checked-out cart exactly when it
   would on the same cart still active, and changes it alike.
   */
  lemma CheckedOutCartsAreNotFrozen(cfg: Config, codes: Codes, l: Ledger, c: CartId, e: Edit)
    requires c in l.carts && !e.OpenCart? && e.cart == c
    ensures AlikeButStatus(Edited(cfg, codes, WithStatus(l, c, Active), e), Edited(cfg, codes, WithStatus(l, c, CheckedOut), e), c)
  {
    if e.ApplyCoupon? {
      ApplyIgnoresStatus(cfg, codes, l, c, e);
    } else if e.RemoveCoupon? || e.RevalidateCoupons? {
      RemoveIgnoresStatus(cfg, codes, l, c, e);
    } else {
      CartEditsIgnoreStatus(cfg, codes, l, c, e);
    }
  }

  lemma EditKeepsStore(cfg: Config, db: Db, e: Edit)
    requires StoreOk(cfg, db)
    ensures StoreOk(cfg, AfterEdit(cfg, db, e))
  {
    var l := LedgerOf(db);
    EditKeepsLedger(cfg, db.codes, l, e);
    EditKeepsSales(db, Edited(cfg, db.codes, l, e), db.codes, e);
    var db' := AfterEdit(cfg, db, e);
    forall k | k in db'.records ensures Backed(db', k) {
      assert Backed(db, k);
    }
  }

  lemma EditKeepsSales(db: Db, l': Ledger, codes: Codes, e: Edit)
    requires SalesOk(db) && EditReach(codes, LedgerOf(db), l', e)
    ensures SalesOk(db.(carts := l'.carts, coupons := l'.coupons))
  {
    var db' := db.(carts := l'.carts, coupons := l'.coupons);
    forall o | o in db'.orders ensures OrderOk(db', o) && Recorded(db', o) {
      assert OrderOk(db, o) && Recorded(db, o);
    }
  }

  // -------------------------------------------------------------- checkouts

  /** The cart a checkout revalidates differs from the stored one in version only: its totals were right. */
  lemma RevalidationOnlyCounts(cfg: Config, coupons: Coupons, cart: Cart, now: int, country: Option<string>)
    requires TotalsOk(cart)
    ensures var r := Revalidated(cfg.rules, coupons, cart, now, country);
            r.Ok? ==> r.value == cart.(version := cart.version + 1)
  {
  }

  /** A checkout never oversells, whatever the lines: every product it takes had enough. */
  lemma {:induction false} TakeAllEffect(products: Products, tenant: TenantId, items: seq<Item>)
    requires TakeAll(products, tenant, items).Ok?
    ensures var products' := TakeAll(products, tenant, items).value;
            && products'.Keys == products.Keys
            && forall p :: p in products ==>
                 && products'[p].stock + QuantityOf(items, p) == products[p].stock
                 && products'[p].tenant == products[p].tenant
  {
    if items != [] {
      TakeAllEffect(Decremented(products, items[0]), tenant, items[1..]);
    }
  }

  /** Every line's product is the tenant's and has enough for all its lines together. */
  ghost predicate Sufficient(products: Products, tenant: TenantId, items: seq<Item>)
  {
    forall i :: 0 <= i < |items| ==>
      && items[i].product in products && products[items[i].product].tenant == tenant
      && QuantityOf(items, items[i].product) <= products[items[i].product].stock
  }

  lemma {:induction false} NoLineNoQuantity(items: seq<Item>, product: ProductId)
    requires forall i :: 0 <= i < |items| ==> items[i].product != product
    ensures QuantityOf(items, product) == 0
  {
    if items != [] {
      NoLineNoQuantity(items[1..], product);
    }
  }

  /** Taking line by line succeeds exactly when the stock suffices for all lines, repeated products included. */
  lemma {:induction false} TakeAllMeaning(products: Products, tenant: TenantId, items: seq<Item>)
    ensures TakeAll(products, tenant, items).Ok? <==> Sufficient(products, tenant, items)
  {
    if items != [] {
      var first, rest := items[0], items[1..];
      if InStock(products, tenant, first) {
        TakeAllMeaning(Decremented(products, first), tenant, rest);
        SufficientStep(products, tenant, items);
      } else if first.product in products {
        assert QuantityOf(items, first.product) >= first.quantity;
      }
    }
  }

  lemma SufficientStep(products: Products, tenant: TenantId, items: seq<Item>)
    requires items != [] && InStock(products, tenant, items[0])
    ensures Sufficient(products, tenant, items) <==> Sufficient(Decremented(products, items[0]), tenant, items[1..])
  {
    var first, rest := items[0], items[1..];
    var taken := Decremented(products, first);
    if Sufficient(products, tenant, items) {
      forall i | 0 <= i < |rest|
        ensures rest[i].product in taken && taken[rest[i].product].tenant == tenant
        ensures QuantityOf(rest, rest[i].product) <= taken[rest[i].product].stock
      {
        assert rest[i] == items[i + 1];
      }
    }
    if Sufficient(taken, tenant, rest) {
      if forall i :: 0 <= i < |rest| ==> rest[i].product != first.product {
        NoLineNoQuantity(rest, first.product);
      }
      forall i | 0 <= i < |items|
        ensures items[i].product in products && products[items[i].product].tenant == tenant
        ensures QuantityOf(items, items[i].product) <= products[items[i].product].stock
      {
        assert i > 0 ==> items[i] == rest[i - 1];
      }
    }
  }

  /** What the rows a checkout refers to must be. */
  ghost predicate Admissible(db: Db, a: Attempt)
  {
    && Owned(db.carts, a.tenant, a.cart)
    && db.carts[a.cart].status == Active
    && db.carts[a.cart].items != []
    && a.address in db.addresses && db.addresses[a.address] == Address(a.tenant, db.carts[a.cart].user, false)
    && a.paymentMethod in db.methods && db.methods[a.paymentMethod].tenant == a.tenant
  }

  /**
   A checkout takes effect exactly when its rows admit it, every applied coupon passes, the stock of
   every product suffices for all its lines, and its key is unused.
   */
  lemma CheckoutSucceedsExactlyWhen(cfg: Config, db: Db, a: Attempt, id: OrderId)
    requires StoreOk(cfg, db)
    ensures Atomic(cfg.rules, db, a, id).Ok? <==>
              && Admissible(db, a)
              && (forall i :: 0 <= i < |db.carts[a.cart].applied| ==>
                    var c := db.carts[a.cart].applied[i].coupon;
                    c in db.coupons && Verdict(cfg.rules, db.coupons[c], ContextOf(db.carts[a.cart], a.now, a.country)).None?)
              && Sufficient(db.products, a.tenant, db.carts[a.cart].items)
              && (a.tenant, a.key) !in db.records
  {
    if Admissible(db, a) {
      var cart := db.carts[a.cart];
      assert CartOk(cfg.policy, cart, db.coupons);
      CouponsPass(cfg.rules, db.coupons, cart, ContextOf(cart, a.now, a.country));
      TakeAllMeaning(db.products, a.tenant, cart.items);
      PreparedWhen(cfg, db, a);
    }
  }

  lemma CouponsPass(rules: Rules, coupons: Coupons, cart: Cart, ctx: Context)
    requires KnownCoupons(cart, coupons)
    ensures FirstRefusal(rules, coupons, cart.applied, ctx).None? <==>
              forall i :: 0 <= i < |cart.applied| ==> Verdict(rules, coupons[cart.applied[i].coupon], ctx).None?
  {
    FirstRefusalMeaning(rules, coupons, cart.applied, ctx);
  }

  lemma PreparedWhen(cfg: Config, db: Db, a: Attempt)
    requires Admissible(db, a) && TotalsOk(db.carts[a.cart])
    ensures var cart := db.carts[a.cart];
            Prepare(cfg.rules, db, a).Ok? <==>
              && FirstRefusal(cfg.rules, db.coupons, cart.applied, ContextOf(cart, a.now, a.country)).None?
              && TakeAll(db.products, a.tenant, cart.items).Ok?
  {
    RevalidationOnlyCounts(cfg, db.coupons, db.carts[a.cart], a.now, a.country);
  }

  /** What a checkout writes, field by field, from the cart the customer saw and the request. */
  lemma CheckoutSnapshotsTheCart(cfg: Config, db: Db, a: Attempt, id: OrderId)
    requires StoreOk(cfg, db) && Atomic(cfg.rules, db, a, id).Ok?
    ensures var db' := Atomic(cfg.rules, db, a, id).value;
            var cart := db.carts[a.cart];
            && id in db'.orders && id in db'.payments && a.cart in db'.carts && (a.tenant, a.key) in db'.records
            && var order, payment := db'.orders[id], db'.payments[id];
            && order.lines == cart.items && order.buyer == cart.buyer && order.user == cart.user
            && order.subtotal == cart.total && order.discount == cart.discount && order.total == cart.payable
            && order.tenant == a.tenant && order.cart == a.cart && order.key == a.key
            && order.address == a.address && order.paymentMethod == a.paymentMethod && order.status == PendingPayment
            && order.version == 0
            && payment.cart == a.cart && payment.amount == cart.payable && payment.status == RequiresConfirmation
            && payment.provider == db.methods[a.paymentMethod].gateway && payment.tenant == a.tenant
            && payment.failureReason == "" && payment.authorizationId == "" && payment.captureId == "" && payment.created == a.now
            && db' == db.(orders := db.orders[id := order], payments := db.payments[id := payment],
                          carts := db.carts[a.cart := db'.carts[a.cart]], products := db'.products,
                          records := db.records[(a.tenant, a.key) := db'.records[(a.tenant, a.key)]])
            && db'.carts[a.cart] == cart.(status := CheckedOut, version := cart.version + 2)
            && db'.coupons == db.coupons
            && (forall x :: x in db.products ==>
                  x in db'.products && db'.products[x].stock == db.products[x].stock - QuantityOf(cart.items, x))
  {
    var cart := db.carts[a.cart];
    assert CartOk(cfg.policy, cart, db.coupons);
    RevalidationOnlyCounts(cfg, db.coupons, cart, a.now, a.country);
    TakeAllEffect(db.products, a.tenant, cart.items);
  }

  /** What a successful checkout answers and records: its own order and payment, the payable amount and the buyer of the cart. */
  lemma CheckoutAnswersForTheCart(cfg: Config, db: Db, a: Attempt, id: OrderId)
    requires StoreOk(cfg, db) && Atomic(cfg.rules, db, a, id).Ok?
    ensures var db' := Atomic(cfg.rules, db, a, id).value;
            && id in db'.orders && (a.tenant, a.key) in db'.records
            && ReceiptFor(ResultFor(id, db'.orders[id]), id, db.carts[a.cart])
            && ResultOf(db'.records[(a.tenant, a.key)]) == Some(ResultFor(id, db'.orders[id]))
  {
    assert CartOk(cfg.policy, db.carts[a.cart], db.coupons);
    AtomicGivesReceipt(cfg.rules, db, a, id);
  }

  /** The product a refusal names is that of the first line that cannot be taken after those before it. */
  lemma {:induction false} FirstShortProduct(products: Products, tenant: TenantId, items: seq<Item>) returns (n: nat)
    requires TakeAll(products, tenant, items).Err?
    ensures n < |items| && TakeAll(products, tenant, items) == Err(items[n].product)
    ensures Sufficient(products, tenant, items[..n]) && !Sufficient(products, tenant, items[..n + 1])
  {
    if !InStock(products, tenant, items[0]) {
      n := 0;
      assert items[..1] == [items[0]];
      TakeAllMeaning(products, tenant, items[..1]);
    } else {
      var k := FirstShortProduct(Decremented(products, items[0]), tenant, items[1..]);
      n := k + 1;
      assert items[..n][1..] == items[1..][..k] && items[..n + 1][1..] == items[1..][..k + 1];
      SufficientStep(products, tenant, items[..n]);
      SufficientStep(products, tenant, items[..n + 1]);
    }
  }

  lemma CheckoutKeepsStore(cfg: Config, db: Db, a: Attempt, id: OrderId)
    requires StoreOk(cfg, db)
    requires id !in db.orders && id !in db.payments
    ensures StoreOk(cfg, AfterCheckout(cfg, db, a, id))
  {
    if Atomic(cfg.rules, db, a, id).Ok? {
      var cart := db.carts[a.cart];
      assert CartOk(cfg.policy, cart, db.coupons);
      RevalidationOnlyCounts(cfg, db.coupons, cart, a.now, a.country);
      var valid := cart.(version := cart.version + 1);
      var products := Prepare(cfg.rules, db, a).value.products;
      RowKeepsLedger(cfg.policy, db.codes, LedgerOf(db), a.cart, cart.(status := CheckedOut, version := cart.version + 2));
      WrittenKeepsSales(db, a, id, valid, db.methods[a.paymentMethod].gateway, products);
      WrittenKeepsRecords(db, a, id, valid, db.methods[a.paymentMethod].gateway, products);
    }
  }

  lemma WrittenKeepsRecords(db: Db, a: Attempt, id: OrderId, cart: Cart, provider: string, products: Products)
    requires forall k :: k in db.records ==> Backed(db, k)
    requires id !in db.orders && id !in db.payments && (a.tenant, a.key) !in db.records && cart.tenant == a.tenant
    ensures var db' := Written(db, a, id, cart, provider, products);
            forall k :: k in db'.records ==> Backed(db', k)
  {
    var db' := Written(db, a, id, cart, provider, products);
    ResultRoundTrip(a.hash, ResultFor(id, OrderOf(a, cart)));
    forall k | k in db'.records ensures Backed(db', k) {
      if k != (a.tenant, a.key) {
        assert Backed(db, k);
      }
    }
  }

  lemma WrittenKeepsSales(db: Db, a: Attempt, id: OrderId, cart: Cart, provider: string, products: Products)
    requires SalesOk(db)
    requires id !in db.orders && id !in db.payments && (a.tenant, a.key) !in db.records
    requires a.cart in db.carts && db.carts[a.cart].status == Active
    requires cart.tenant == db.carts[a.cart].tenant == a.tenant && TotalsOk(cart)
    ensures SalesOk(Written(db, a, id, cart, provider, products))
  {
    var db' := Written(db, a, id, cart, provider, products);
    NewCartHasNoRows(db, a.cart);
    WrittenKeepsRows(db, a, id, cart, provider, products);
    forall o | o in db'.orders ensures OrderOk(db', o) && Recorded(db', o) {
      if o == id {
        NewOrderIsOk(db, a, id, cart, provider, products);
      } else {
        assert OrderOk(db, o) && Recorded(db, o);
        OldOrderStays(db, a, id, cart, provider, products, o);
      }
    }
  }

  lemma NewOrderIsOk(db: Db, a: Attempt, id: OrderId, cart: Cart, provider: string, products: Products)
    requires a.cart in db.carts && cart.tenant == a.tenant && TotalsOk(cart)
    requires forall p :: p in db.payments ==> db.payments[p].cart != a.cart
    ensures var db' := Written(db, a, id, cart, provider, products); OrderOk(db', id) && Recorded(db', id)
  {
    var db' := Written(db, a, id, cart, provider, products);
    ResultRoundTrip(a.hash, ResultFor(id, OrderOf(a, cart)));
    assert db'.payments[id].cart == a.cart;
  }

  lemma WrittenKeepsRows(db: Db, a: Attempt, id: OrderId, cart: Cart, provider: string, products: Products)
    requires OnePerCart(db) && NoOrphans(db)
    requires id !in db.orders && id !in db.payments
    requires forall o :: o in db.orders ==> db.orders[o].cart != a.cart
    requires forall p :: p in db.payments ==> db.payments[p].cart != a.cart
    ensures OnePerCart(Written(db, a, id, cart, provider, products)) && NoOrphans(Written(db, a, id, cart, provider, products))
  {
    var db' := Written(db, a, id, cart, provider, products);
    forall c | HasOrder(db.orders, c) || c == a.cart ensures HasOrder(db'.orders, c) {
      if c == a.cart {
        assert db'.orders[id].cart == c;
      } else {
        var o :| o in db.orders && db.orders[o].cart == c;
        assert db'.orders[o] == db.orders[o];
      }
    }
  }

  /** A cart that is still active has neither an order nor a payment. */
  lemma NewCartHasNoRows(db: Db, cart: CartId)
    requires SalesOk(db)
    requires cart in db.carts && db.carts[cart].status == Active
    ensures forall o :: o in db.orders ==> db.orders[o].cart != cart
    ensures forall p :: p in db.payments ==> db.payments[p].cart != cart
  {
    forall o | o in db.orders ensures db.orders[o].cart != cart {
      assert OrderOk(db, o);
    }
    forall p | p in db.payments ensures db.payments[p].cart != cart {
      assert HasOrder(db.orders, db.payments[p].cart);
    }
  }

  lemma OldOrderStays(db: Db, a: Attempt, id: OrderId, cart: Cart, provider: string, products: Products, o: OrderId)
    requires o in db.orders && OrderOk(db, o) && Recorded(db, o)
    requires id !in db.orders && id !in db.payments && (a.tenant, a.key) !in db.records
    requires db.orders[o].cart != a.cart
    ensures var db' := Written(db, a, id, cart, provider, products);
            o in db'.orders && OrderOk(db', o) && Recorded(db', o)
  {
    var db' := Written(db, a, id, cart, provider, products);
    var p :| p in db.payments && db.payments[p].cart == db.orders[o].cart;
    assert db'.payments[p] == db.payments[p];
  }
}
