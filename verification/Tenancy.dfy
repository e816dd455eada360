/**
 Tenants do not interfere: what one tenant sees of a shared shop is what it would see alone.
 */
module Tenancy {
  import opened Schema
  import opened CartRules
  import opened Validation
  import opened CouponRules
  import opened CouponLaws
  import Idempotency
  import ShopLaws
  import opened Checkout
  import opened Sales
  import opened Shop
  import P = Payments
  import I = Invoices

  // ------------------------------------------------- the rows of one tenant

  function CartsOf(carts: Carts, t: TenantId): Carts
  {
    map k | k in carts && carts[k].tenant == t :: carts[k]
  }

  function CouponsOf(coupons: Coupons, t: TenantId): Coupons
  {
    map k | k in coupons && coupons[k].tenant == t :: coupons[k]
  }

  function CodesOf(codes: Codes, t: TenantId): Codes
  {
    map k | k in codes && k.0 == t :: codes[k]
  }

  function ProductsOf(products: Products, t: TenantId): Products
  {
    map k | k in products && products[k].tenant == t :: products[k]
  }

  function OrdersOf(orders: map<OrderId, Order>, t: TenantId): map<OrderId, Order>
  {
    map k | k in orders && orders[k].tenant == t :: orders[k]
  }

  function PaymentsOf(payments: map<PaymentId, Payment>, t: TenantId): map<PaymentId, Payment>
  {
    map k | k in payments && payments[k].tenant == t :: payments[k]
  }

  function InvoicesOf(invoices: map<OrderId, Invoice>, t: TenantId): map<OrderId, Invoice>
  {
    map k | k in invoices && invoices[k].tenant == t :: invoices[k]
  }

  function RecordsOf(records: map<(TenantId, Key), Record>, t: TenantId): map<(TenantId, Key), Record>
  {
    map k | k in records && k.0 == t :: records[k]
  }

  function SequencesOf(sequences: map<TenantId, nat>, t: TenantId): map<TenantId, nat>
  {
    map k | k in sequences && k == t :: sequences[k]
  }

  function LedgerFor(l: Ledger, t: TenantId): Ledger
  {
    Ledger(CartsOf(l.carts, t), CouponsOf(l.coupons, t))
  }

  /** A database with only the rows of one tenant. */
  function View(db: Db, t: TenantId): Db
  {
    Db(CartsOf(db.carts, t),
       CouponsOf(db.coupons, t),
       CodesOf(db.codes, t),
       ProductsOf(db.products, t),
       map k | k in db.addresses && db.addresses[k].tenant == t :: db.addresses[k],
       map k | k in db.methods && db.methods[k].tenant == t :: db.methods[k],
       OrdersOf(db.orders, t),
       PaymentsOf(db.payments, t),
       RecordsOf(db.records, t),
       InvoicesOf(db.invoices, t),
       SequencesOf(db.sequences, t))
  }

  // ------------------------------------------------------------------ edits

  /** The carts after a change of one row of tenant t. */
  lemma CartUpdated(carts: Carts, c: CartId, row: Cart, t: TenantId)
    requires c in carts ==> carts[c].tenant == row.tenant
    ensures CartsOf(carts[c := row], t) == if row.tenant == t then CartsOf(carts, t)[c := row] else CartsOf(carts, t)
  {
  }

  lemma CouponUpdated(coupons: Coupons, id: CouponId, coupon: Coupon, t: TenantId)
    requires id in coupons && coupons[id].tenant == coupon.tenant
    ensures CouponsOf(coupons[id := coupon], t)
         == if coupon.tenant == t then CouponsOf(coupons, t)[id := coupon] else CouponsOf(coupons, t)
  {
  }

  lemma OpenedSees(carts: Carts, tenant: TenantId, c: CartId, user: UserId, t: TenantId)
    requires c in carts ==> carts[c].tenant == tenant
    ensures CartsOf(Opened(carts, tenant, c, user), t)
         == if tenant == t then Opened(CartsOf(carts, t), tenant, c, user) else CartsOf(carts, t)
  {
    var mine := CartsOf(carts, tenant);
    if exists k :: k in carts && carts[k].tenant == tenant && carts[k].user == user && carts[k].status == Active {
      var k :| k in carts && carts[k].tenant == tenant && carts[k].user == user && carts[k].status == Active;
      assert mine[k] == carts[k];
    } else {
      assert forall k :: k in mine ==> k in carts && mine[k] == carts[k];
      if c !in carts {
        CartUpdated(carts, c, Opened(carts, tenant, c, user)[c], t);
      }
    }
  }

  /** What an edit makes of the rows of tenant t: as if they were all there is, or nothing. */
  ghost predicate EditSeen(cfg: Config, codes: Codes, l: Ledger, e: Edit, t: TenantId)
  {
    LedgerFor(Edited(cfg, codes, l, e), t)
    == if e.tenant == t then Edited(cfg, CodesOf(codes, t), LedgerFor(l, t), e) else LedgerFor(l, t)
  }

  lemma CartEditSees(cfg: Config, codes: Codes, l: Ledger, e: Edit, t: TenantId)
    requires e.AddProduct? || e.RemoveProduct? || e.ChangeDetail?
    ensures EditSeen(cfg, codes, l, e, t)
  {
    var l' := Edited(cfg, codes, l, e);
    if Owned(l.carts, e.tenant, e.cart) {
      CartUpdated(l.carts, e.cart, l'.carts[e.cart], t);
      if l' != l {
        assert l'.carts == l.carts[e.cart := l'.carts[e.cart]];
      }
    }
  }

  /** The coupons applied to a cart are its tenant's: another tenant's view has the same rows of them. */
  lemma KnownInView(cart: Cart, coupons: Coupons)
    requires KnownCoupons(cart, coupons)
    ensures forall i :: 0 <= i < |cart.applied| ==>
              && cart.applied[i].coupon in CouponsOf(coupons, cart.tenant)
              && CouponsOf(coupons, cart.tenant)[cart.applied[i].coupon] == coupons[cart.applied[i].coupon]
  {
  }

  lemma RevalidatedInView(rules: Rules, coupons: Coupons, cart: Cart, now: int, country: Option<string>)
    requires KnownCoupons(cart, coupons)
    ensures Revalidated(rules, CouponsOf(coupons, cart.tenant), cart, now, country) == Revalidated(rules, coupons, cart, now, country)
  {
    KnownInView(cart, coupons);
    FirstRefusalFrame(rules, coupons, CouponsOf(coupons, cart.tenant), cart.applied, ContextOf(cart, now, country));
  }

  lemma RevalidateSees(cfg: Config, codes: Codes, l: Ledger, e: Edit, t: TenantId)
    requires e.RevalidateCoupons?
    requires e.cart in l.carts ==> KnownCoupons(l.carts[e.cart], l.coupons)
    ensures EditSeen(cfg, codes, l, e, t)
  {
    var l' := Edited(cfg, codes, l, e);
    if Owned(l.carts, e.tenant, e.cart) {
      RevalidatedInView(cfg.rules, l.coupons, l.carts[e.cart], e.now, e.country);
      CartUpdated(l.carts, e.cart, l'.carts[e.cart], t);
      if l' != l {
        assert l'.carts == l.carts[e.cart := l'.carts[e.cart]];
      }
    }
  }

  lemma ConflictInView(policy: Policy, coupons: Coupons, cart: Cart, candidate: Coupon)
    requires KnownCoupons(cart, coupons)
    ensures Conflict(policy, CouponsOf(coupons, cart.tenant), cart.applied, candidate) <==> Conflict(policy, coupons, cart.applied, candidate)
  {
    KnownInView(cart, coupons);
  }

  lemma ApplySees(cfg: Config, codes: Codes, l: Ledger, e: Edit, t: TenantId)
    requires e.ApplyCoupon?
    requires e.cart in l.carts ==> KnownCoupons(l.carts[e.cart], l.coupons)
    requires CodesOk(codes, l.coupons)
    ensures EditSeen(cfg, codes, l, e, t)
  {
    var l' := Edited(cfg, codes, l, e);
    if Owned(l.carts, e.tenant, e.cart) && (e.tenant, e.code) in codes && codes[(e.tenant, e.code)] in l.coupons {
      var id := codes[(e.tenant, e.code)];
      ConflictInView(cfg.policy, l.coupons, l.carts[e.cart], l.coupons[id]);
      CartUpdated(l.carts, e.cart, l'.carts[e.cart], t);
      CouponUpdated(l.coupons, id, l'.coupons[id], t);
      if l' != l {
        assert l'.carts == l.carts[e.cart := l'.carts[e.cart]] && l'.coupons == l.coupons[id := l'.coupons[id]];
      }
    }
  }

  lemma RemoveSees(cfg: Config, codes: Codes, l: Ledger, e: Edit, t: TenantId)
    requires e.RemoveCoupon?
    ensures EditSeen(cfg, codes, l, e, t)
  {
    var l' := Edited(cfg, codes, l, e);
    if Owned(l.carts, e.tenant, e.cart) {
      CartUpdated(l.carts, e.cart, l'.carts[e.cart], t);
      if l'.coupons != l.coupons {
        CouponUpdated(l.coupons, e.coupon, l'.coupons[e.coupon], t);
      }
    }
  }

  lemma EditSees(cfg: Config, codes: Codes, l: Ledger, e: Edit, t: TenantId)
    requires LedgerOk(cfg.policy, codes, l)
    requires e.OpenCart? && e.cart in l.carts ==> l.carts[e.cart].tenant == e.tenant
    ensures EditSeen(cfg, codes, l, e, t)
  {
    assert e.cart in l.carts ==> CartOk(cfg.policy, l.carts[e.cart], l.coupons);
    match e {
      case OpenCart(tenant, c, user) => OpenedSees(l.carts, tenant, c, user, t);
      case ApplyCoupon(_, _, _, _, _) => ApplySees(cfg, codes, l, e, t);
      case RemoveCoupon(_, _, _) => RemoveSees(cfg, codes, l, e, t);
      case RevalidateCoupons(_, _, _, _) => RevalidateSees(cfg, codes, l, e, t);
      case _ => CartEditSees(cfg, codes, l, e, t);
    }
  }

  // -------------------------------------------------------------- checkouts

  lemma {:induction false} TakeAllInView(products: Products, tenant: TenantId, items: seq<Item>)
    ensures var r, r' := TakeAll(products, tenant, items), TakeAll(ProductsOf(products, tenant), tenant, items);
            if r.Ok? then r' == Ok(ProductsOf(r.value, tenant)) else r' == r
  {
    if items != [] && InStock(products, tenant, items[0]) {
      var taken := Decremented(products, items[0]);
      assert ProductsOf(taken, tenant) == Decremented(ProductsOf(products, tenant), items[0]);
      TakeAllInView(taken, tenant, items[1..]);
    }
  }

  lemma {:induction false} TakeAllOutOfView(products: Products, tenant: TenantId, items: seq<Item>, t: TenantId)
    requires t != tenant && TakeAll(products, tenant, items).Ok?
    ensures ProductsOf(TakeAll(products, tenant, items).value, t) == ProductsOf(products, t)
  {
    if items != [] {
      var taken := Decremented(products, items[0]);
      assert ProductsOf(taken, t) == ProductsOf(products, t);
      TakeAllOutOfView(taken, tenant, items[1..], t);
    }
  }

  lemma PrepareInView(rules: Rules, db: Db, a: Attempt)
    requires a.cart in db.carts ==> KnownCoupons(db.carts[a.cart], db.coupons)
    ensures var r, r' := Prepare(rules, db, a), Prepare(rules, View(db, a.tenant), a);
            if r.Ok? then r' == Ok(Prepared(r.value.cart, ProductsOf(r.value.products, a.tenant))) else r' == r
  {
    assert Refusal(View(db, a.tenant), a) == Refusal(db, a);
    if Refusal(db, a).None? {
      RevalidatedInView(rules, db.coupons, db.carts[a.cart], a.now, a.country);
      var cart := Revalidated(rules, db.coupons, db.carts[a.cart], a.now, a.country);
      if cart.Ok? {
        TakeAllInView(db.products, a.tenant, cart.value.items);
      }
    }
  }

  /** The rows of a checkout are rows of its tenant. */
  lemma WrittenSees(db: Db, a: Attempt, id: OrderId, cart: Cart, provider: string, products: Products, t: TenantId)
    requires cart.tenant == a.tenant && a.cart in db.carts && db.carts[a.cart].tenant == a.tenant
    requires id !in db.orders && id !in db.payments
    requires t != a.tenant ==> ProductsOf(products, t) == ProductsOf(db.products, t)
    ensures View(Written(db, a, id, cart, provider, products), t)
         == if a.tenant == t then Written(View(db, t), a, id, cart, provider, ProductsOf(products, t)) else View(db, t)
  {
    var db' := Written(db, a, id, cart, provider, products);
    CartUpdated(db.carts, a.cart, db'.carts[a.cart], t);
    OrderInserted(db.orders, id, OrderOf(a, cart), t);
    PaymentInserted(db.payments, id, PaymentOf(a, cart, provider), t);
    RecordInserted(db.records, (a.tenant, a.key), Idempotency.RecordOf(a.hash, ResultFor(id, OrderOf(a, cart))), t);
  }

  lemma OrderInserted(orders: map<OrderId, Order>, id: OrderId, order: Order, t: TenantId)
    requires id in orders ==> orders[id].tenant == order.tenant
    ensures OrdersOf(orders[id := order], t)
         == if order.tenant == t then OrdersOf(orders, t)[id := order] else OrdersOf(orders, t)
  {
  }

  lemma PaymentInserted(payments: map<PaymentId, Payment>, id: PaymentId, payment: Payment, t: TenantId)
    requires id in payments ==> payments[id].tenant == payment.tenant
    ensures PaymentsOf(payments[id := payment], t)
         == if payment.tenant == t then PaymentsOf(payments, t)[id := payment] else PaymentsOf(payments, t)
  {
  }

  lemma RecordInserted(records: map<(TenantId, Key), Record>, k: (TenantId, Key), record: Record, t: TenantId)
    ensures RecordsOf(records[k := record], t) == if k.0 == t then RecordsOf(records, t)[k := record] else RecordsOf(records, t)
  {
  }

  /** A checkout is seen by its own tenant as if it ran on that tenant's rows alone. */
  lemma CheckoutSeenByItsTenant(cfg: Config, db: Db, a: Attempt, id: OrderId)
    requires a.cart in db.carts ==> KnownCoupons(db.carts[a.cart], db.coupons)
    requires id !in db.orders && id !in db.payments
    ensures View(AfterCheckout(cfg, db, a, id), a.tenant) == AfterCheckout(cfg, View(db, a.tenant), a, id)
  {
    PrepareInView(cfg.rules, db, a);
    if Atomic(cfg.rules, db, a, id).Ok? {
      var p := Prepare(cfg.rules, db, a).value;
      WrittenSees(db, a, id, p.cart, db.methods[a.paymentMethod].gateway, p.products, a.tenant);
    }
  }

  lemma CheckoutUnseenByOthers(cfg: Config, db: Db, a: Attempt, id: OrderId, t: TenantId)
    requires t != a.tenant && id !in db.orders && id !in db.payments
    ensures View(AfterCheckout(cfg, db, a, id), t) == View(db, t)
  {
    if Atomic(cfg.rules, db, a, id).Ok? {
      var p := Prepare(cfg.rules, db, a).value;
      TakeAllOutOfView(db.products, a.tenant, p.cart.items, t);
      WrittenSees(db, a, id, p.cart, db.methods[a.paymentMethod].gateway, p.products, t);
    }
  }

  lemma CheckoutSees(cfg: Config, db: Db, a: Attempt, id: OrderId, t: TenantId)
    requires StoreOk(cfg, db) && id !in db.orders && id !in db.payments
    ensures View(AfterCheckout(cfg, db, a, id), t)
         == if a.tenant == t then AfterCheckout(cfg, View(db, t), a, id) else View(db, t)
  {
    if a.tenant == t {
      assert a.cart in db.carts ==> CartOk(cfg.policy, db.carts[a.cart], db.coupons);
      CheckoutSeenByItsTenant(cfg, db, a, id);
    } else {
      CheckoutUnseenByOthers(cfg, db, a, id, t);
    }
  }

  // ---------------------------------------------------------------- workers

  /** A worker's order and payment are of one tenant. */
  ghost predicate OneTenant(db: Db, job: P.Job)
  {
    && job.payment in db.payments
    && (job.Acting? && job.order.Some? ==>
          && job.order.value in db.orders
          && db.orders[job.order.value].tenant == db.payments[job.payment].tenant)
  }

  lemma SettledSees(db: Db, job: P.Job, answer: P.Answer, t: TenantId)
    requires OneTenant(db, job)
    ensures View(SettledDb(db, job, answer), t)
         == if db.payments[job.payment].tenant == t then SettledDb(View(db, t), job, answer) else View(db, t)
  {
    var db' := SettledDb(db, job, answer);
    PaymentInserted(db.payments, job.payment, db'.payments[job.payment], t);
    if job.Acting? && job.order.Some? {
      OrderInserted(db.orders, job.order.value, db'.orders[job.order.value], t);
    }
  }

  lemma FirstOrderInView(orders: map<OrderId, Order>, t: TenantId, cart: CartId)
    ensures P.FirstOrder(OrdersOf(orders, t), t, cart) == P.FirstOrder(orders, t, cart)
  {
    var mine := OrdersOf(orders, t);
    forall o ensures P.IsFirst(mine, t, cart, o) <==> P.IsFirst(orders, t, cart, o) {
      if P.IsFirst(mine, t, cart, o) {
        forall o' | o' in orders && orders[o'].tenant == t && orders[o'].cart == cart ensures o <= o' {
          assert o' in mine && mine[o'] == orders[o'];
        }
      }
    }
  }

  lemma JobInView(cfg: Config, db: Db, action: P.Action, id: PaymentId, t: TenantId)
    requires id in db.payments ==> db.payments[id].tenant == t
    ensures JobFor(cfg, View(db, t), action, id) == JobFor(cfg, db, action, id)
  {
    if id in db.payments {
      FirstOrderInView(db.orders, t, db.payments[id].cart);
    }
  }

  lemma ClashInView(invoices: map<OrderId, Invoice>, sequences: map<TenantId, nat>, o: OrderId, t: TenantId)
    requires o in invoices ==> invoices[o].tenant == t
    ensures I.Clash(InvoicesOf(invoices, t), SequencesOf(sequences, t), o, t) <==> I.Clash(invoices, sequences, o, t)
    ensures I.LastNumber(SequencesOf(sequences, t), t) == I.LastNumber(sequences, t)
  {
    var n := I.LastNumber(sequences, t) + 1;
    if I.NumberTaken(invoices, t, n) {
      var x :| x in invoices && invoices[x].tenant == t && invoices[x].number == n;
      assert InvoicesOf(invoices, t)[x] == invoices[x];
    }
  }

  lemma InvoiceInserted(invoices: map<OrderId, Invoice>, o: OrderId, invoice: Invoice, t: TenantId)
    requires o in invoices ==> invoices[o].tenant == invoice.tenant
    ensures InvoicesOf(invoices[o := invoice], t)
         == if invoice.tenant == t then InvoicesOf(invoices, t)[o := invoice] else InvoicesOf(invoices, t)
  {
  }

  lemma RowsAfterSee(db: Db, o: OrderId, read: Order, t: TenantId)
    requires o in db.invoices ==> db.invoices[o].tenant == read.tenant
    ensures var rows := I.RowsAfter(db.invoices, db.sequences, o, read);
            InvoicesOf(rows, t)
            == if read.tenant == t then I.RowsAfter(InvoicesOf(db.invoices, t), SequencesOf(db.sequences, t), o, read)
               else InvoicesOf(db.invoices, t)
  {
    ClashInView(db.invoices, db.sequences, o, read.tenant);
    InvoiceInserted(db.invoices, o, I.InvoiceFor(read, I.LastNumber(db.sequences, read.tenant) + 1), t);
  }

  lemma SequencesAfterSee(db: Db, o: OrderId, read: Order, t: TenantId)
    requires o in db.invoices ==> db.invoices[o].tenant == read.tenant
    ensures var sequences := I.SequencesAfter(db.invoices, db.sequences, o, read);
            SequencesOf(sequences, t)
            == if read.tenant == t then I.SequencesAfter(InvoicesOf(db.invoices, t), SequencesOf(db.sequences, t), o, read)
               else SequencesOf(db.sequences, t)
  {
    ClashInView(db.invoices, db.sequences, o, read.tenant);
    var number := I.LastNumber(db.sequences, read.tenant) + 1;
    assert SequencesOf(db.sequences[read.tenant := number], t)
        == if read.tenant == t then SequencesOf(db.sequences, t)[read.tenant := number] else SequencesOf(db.sequences, t);
  }

  lemma RowSees(db: Db, o: OrderId, read: Order, t: TenantId)
    requires o in db.invoices ==> db.invoices[o].tenant == read.tenant
    ensures View(RowDb(db, o, read), t) == if read.tenant == t then RowDb(View(db, t), o, read) else View(db, t)
  {
    RowsAfterSee(db, o, read, t);
    SequencesAfterSee(db, o, read, t);
  }

  lemma UrlSees(invoices: map<OrderId, Invoice>, o: OrderId, url: string, t: TenantId)
    requires o in invoices
    ensures InvoicesOf(I.UrlWritten(invoices, o, url), t)
         == if invoices[o].tenant == t then I.UrlWritten(InvoicesOf(invoices, t), o, url) else InvoicesOf(invoices, t)
  {
    InvoiceInserted(invoices, o, invoices[o].(pdfUrl := url), t);
  }

  // ------------------------------------------------------------- whole runs

  /** Whose each drawn identifier is, and for which tenant each worker's task runs. */
  datatype Owners = Owners(cart: CartId -> TenantId, order: OrderId -> TenantId, worker: Worker -> TenantId)

  /** Identifiers are drawn for the tenant that uses them, and a task runs in the tenant of its payment or order. */
  predicate Drawn(owners: Owners, e: Event)
  {
    match e
    case Change(edit) => edit.OpenCart? ==> owners.cart(edit.cart) == edit.tenant
    case Place(a, id) => owners.order(id) == a.tenant
    case ReadPayment(w, _, id) => owners.order(id) == owners.worker(w)
    case ReadInvoice(w, o) => owners.order(o) == owners.worker(w)
    case _ => true
  }

  function TenantOf(owners: Owners, e: Event): TenantId
  {
    match e
    case Change(edit) => edit.tenant
    case Place(a, _) => a.tenant
    case _ => owners.worker(e.w)
  }

  ghost predicate DbBelongs(owners: Owners, db: Db)
  {
    && (forall c :: c in db.carts ==> db.carts[c].tenant == owners.cart(c))
    && (forall o :: o in db.orders ==> db.orders[o].tenant == owners.order(o))
    && (forall p :: p in db.payments ==> db.payments[p].tenant == owners.order(p))
    && (forall o :: o in db.invoices ==> db.invoices[o].tenant == owners.order(o))
  }

  ghost predicate Belongs(owners: Owners, s: State)
  {
    && DbBelongs(owners, s.db)
    && (forall w :: w in s.jobs ==> owners.order(s.jobs[w].payment) == owners.worker(w))
    && (forall w :: w in s.drafts ==> owners.order(s.drafts[w].order) == owners.worker(w))
  }

  function JobsOf(owners: Owners, jobs: map<Worker, P.Job>, t: TenantId): map<Worker, P.Job>
  {
    map w | w in jobs && owners.worker(w) == t :: jobs[w]
  }

  function DraftsOf(owners: Owners, drafts: map<Worker, Draft>, t: TenantId): map<Worker, Draft>
  {
    map w | w in drafts && owners.worker(w) == t :: drafts[w]
  }

  /** The shop with only the rows and the workers of one tenant. */
  function Part(owners: Owners, s: State, t: TenantId): State
  {
    State(View(s.db, t), JobsOf(owners, s.jobs, t), DraftsOf(owners, s.drafts, t))
  }

  /** The events of one tenant, in their order. */
  function Only(owners: Owners, es: seq<Event>, t: TenantId): seq<Event>
  {
    if es == [] then []
    else
      var init := Only(owners, es[..|es| - 1], t);
      if TenantOf(owners, es[|es| - 1]) == t then init + [es[|es| - 1]] else init
  }

  /** One step, as tenant t sees it. */
  ghost predicate StepSeen(cfg: Config, owners: Owners, s: State, e: Event, t: TenantId)
  {
    Part(owners, Step(cfg, s, e), t)
    == if TenantOf(owners, e) == t then Step(cfg, Part(owners, s, t), e) else Part(owners, s, t)
  }

  lemma ChangeSeen(cfg: Config, owners: Owners, s: State, e: Edit, t: TenantId)
    requires StoreOk(cfg, s.db) && Belongs(owners, s) && Drawn(owners, Change(e))
    ensures StepSeen(cfg, owners, s, Change(e), t)
  {
    EditSees(cfg, s.db.codes, LedgerOf(s.db), e, t);
  }

  lemma PlaceStep(cfg: Config, s: State, a: Attempt, id: OrderId)
    ensures Step(cfg, s, Place(a, id))
         == if id in s.db.orders || id in s.db.payments then s else s.(db := AfterCheckout(cfg, s.db, a, id))
  {
  }

  lemma PlaceSeen(cfg: Config, owners: Owners, s: State, a: Attempt, id: OrderId, t: TenantId)
    requires StoreOk(cfg, s.db) && Belongs(owners, s) && Drawn(owners, Place(a, id))
    ensures StepSeen(cfg, owners, s, Place(a, id), t)
  {
    PlaceStep(cfg, s, a, id);
    PlaceStep(cfg, Part(owners, s, t), a, id);
    NameInView(owners, s.db, id, t);
    if id !in s.db.orders && id !in s.db.payments {
      CheckoutSees(cfg, s.db, a, id, t);
    }
  }

  /** A name drawn for a tenant is taken in its view exactly if it is taken at all. */
  lemma NameInView(owners: Owners, db: Db, id: OrderId, t: TenantId)
    requires DbBelongs(owners, db)
    ensures id in View(db, t).orders <==> id in db.orders && owners.order(id) == t
    ensures id in View(db, t).payments <==> id in db.payments && owners.order(id) == t
  {
  }

  lemma JobsUpdated(owners: Owners, jobs: map<Worker, P.Job>, w: Worker, job: P.Job, t: TenantId)
    ensures JobsOf(owners, jobs - {w}, t) == JobsOf(owners, jobs, t) - {w}
    ensures JobsOf(owners, jobs[w := job], t)
         == if owners.worker(w) == t then JobsOf(owners, jobs, t)[w := job] else JobsOf(owners, jobs, t)
    ensures owners.worker(w) != t ==> JobsOf(owners, jobs, t) - {w} == JobsOf(owners, jobs, t)
  {
  }

  lemma DraftsUpdated(owners: Owners, drafts: map<Worker, Draft>, w: Worker, draft: Draft, t: TenantId)
    ensures DraftsOf(owners, drafts - {w}, t) == DraftsOf(owners, drafts, t) - {w}
    ensures DraftsOf(owners, drafts[w := draft], t)
         == if owners.worker(w) == t then DraftsOf(owners, drafts, t)[w := draft] else DraftsOf(owners, drafts, t)
    ensures owners.worker(w) != t ==> DraftsOf(owners, drafts, t) - {w} == DraftsOf(owners, drafts, t)
  {
  }

  lemma ReadPaymentSeen(cfg: Config, owners: Owners, s: State, w: Worker, action: P.Action, id: PaymentId, t: TenantId)
    requires DbBelongs(owners, s.db) && Drawn(owners, ReadPayment(w, action, id))
    ensures StepSeen(cfg, owners, s, ReadPayment(w, action, id), t)
  {
    var job := JobFor(cfg, s.db, action, id);
    JobInView(cfg, s.db, action, id, owners.worker(w));
    if job.Some? {
      JobsUpdated(owners, s.jobs, w, job.value, t);
    }
  }

  lemma SettleSeen(cfg: Config, owners: Owners, s: State, w: Worker, answer: P.Answer, t: TenantId)
    requires w in s.jobs && OneTenant(s.db, s.jobs[w]) && s.db.payments[s.jobs[w].payment].tenant == owners.worker(w)
    ensures StepSeen(cfg, owners, s, Settle(w, answer), t)
  {
    SettledSees(s.db, s.jobs[w], answer, t);
    JobsUpdated(owners, s.jobs, w, s.jobs[w], t);
  }

  lemma DraftInView(db: Db, o: OrderId, t: TenantId)
    requires o in db.invoices ==> db.invoices[o].tenant == t
    requires o in db.orders ==> db.orders[o].tenant == t
    ensures DraftFor(View(db, t), o) == DraftFor(db, o)
  {
  }

  lemma ReadInvoiceSeen(cfg: Config, owners: Owners, s: State, w: Worker, o: OrderId, t: TenantId)
    requires DbBelongs(owners, s.db) && Drawn(owners, ReadInvoice(w, o))
    ensures StepSeen(cfg, owners, s, ReadInvoice(w, o), t)
  {
    var draft := DraftFor(s.db, o);
    DraftInView(s.db, o, owners.worker(w));
    if draft.Some? {
      DraftsUpdated(owners, s.drafts, w, draft.value, t);
    }
  }

  lemma CreateRowSeen(cfg: Config, owners: Owners, s: State, w: Worker, t: TenantId)
    requires w in s.drafts && s.drafts[w].Creating? && s.drafts[w].read.tenant == owners.worker(w)
    requires s.drafts[w].order in s.db.invoices ==> s.db.invoices[s.drafts[w].order].tenant == owners.worker(w)
    ensures StepSeen(cfg, owners, s, CreateRow(w), t)
  {
    var o, read := s.drafts[w].order, s.drafts[w].read;
    RowSees(s.db, o, read, t);
    RowStaysIn(s.db, o, read);
    AfterRowSeen(owners, s, w, RowDb(s.db, o, read), o, t);
  }

  /** A row in the table after the transaction is of the tenant of the order. */
  lemma RowStaysIn(db: Db, o: OrderId, read: Order)
    requires o in db.invoices ==> db.invoices[o].tenant == read.tenant
    ensures o in RowDb(db, o, read).invoices ==> RowDb(db, o, read).invoices[o].tenant == read.tenant
  {
  }

  lemma AfterRowSeen(owners: Owners, s: State, w: Worker, db: Db, o: OrderId, t: TenantId)
    requires o in db.invoices ==> db.invoices[o].tenant == owners.worker(w)
    ensures Part(owners, AfterRow(s, w, db, o), t)
         == if owners.worker(w) == t then AfterRow(Part(owners, s, t), w, View(db, t), o)
            else Part(owners, s, t).(db := View(db, t))
  {
    DraftsUpdated(owners, s.drafts, w, Rendering(o), t);
  }

  lemma WriteUrlSeen(cfg: Config, owners: Owners, s: State, w: Worker, t: TenantId)
    requires w in s.drafts && s.drafts[w].Writing?
    requires s.drafts[w].order in s.db.invoices && s.db.invoices[s.drafts[w].order].tenant == owners.worker(w)
    ensures StepSeen(cfg, owners, s, WriteUrl(w), t)
  {
    UrlSees(s.db.invoices, s.drafts[w].order, s.drafts[w].url, t);
    DraftsUpdated(owners, s.drafts, w, s.drafts[w], t);
  }

  lemma RenderedInView(owners: Owners, drafts: map<Worker, Draft>, w: Worker, url: Option<string>, t: TenantId)
    requires w in drafts
    ensures DraftsOf(owners, Rendered(drafts, w, url), t)
         == if owners.worker(w) == t then Rendered(DraftsOf(owners, drafts, t), w, url) else DraftsOf(owners, drafts, t)
  {
    DraftsUpdated(owners, drafts, w, Writing(drafts[w].order, if url.Some? then url.value else ""), t);
  }

  lemma RenderSeen(cfg: Config, owners: Owners, s: State, w: Worker, url: Option<string>, t: TenantId)
    requires w in s.drafts && s.drafts[w].Rendering?
    ensures StepSeen(cfg, owners, s, Render(w, url), t)
  {
    RenderedInView(owners, s.drafts, w, url, t);
  }

  lemma KillSeen(cfg: Config, owners: Owners, s: State, w: Worker, t: TenantId)
    ensures StepSeen(cfg, owners, s, Kill(w), t)
  {
    assert DraftsOf(owners, s.drafts - {w}, t) == DraftsOf(owners, s.drafts, t) - {w};
    assert JobsOf(owners, s.jobs - {w}, t) == JobsOf(owners, s.jobs, t) - {w};
  }

  /** A step for which its worker has nothing to do is none, seen by anyone. */
  predicate Idle(s: State, e: Event)
  {
    match e
    case Settle(w, _) => w !in s.jobs
    case CreateRow(w) => w !in s.drafts || !s.drafts[w].Creating?
    case Render(w, _) => w !in s.drafts || !s.drafts[w].Rendering?
    case WriteUrl(w) => w !in s.drafts || !s.drafts[w].Writing?
    case _ => false
  }

  lemma IdleSeen(cfg: Config, owners: Owners, s: State, e: Event, t: TenantId)
    requires Idle(s, e)
    ensures StepSeen(cfg, owners, s, e, t)
  {
    assert Step(cfg, s, e) == s;
    assert TenantOf(owners, e) == t ==> Idle(Part(owners, s, t), e);
  }

  lemma JobTenant(cfg: Config, s: State, w: Worker)
    requires ShopOk(cfg, s) && w in s.jobs
    ensures OneTenant(s.db, s.jobs[w])
  {
    var job := s.jobs[w];
    assert JobOk(cfg.gateways, s.db, job);
    if job.Acting? && job.order.Some? {
      assert OrderOk(s.db, job.order.value);
    }
  }

  lemma WorkSeen(cfg: Config, owners: Owners, s: State, e: Event, t: TenantId)
    requires ShopOk(cfg, s) && Belongs(owners, s) && Drawn(owners, e) && !e.Change? && !e.Place?
    ensures StepSeen(cfg, owners, s, e, t)
  {
    if Idle(s, e) {
      IdleSeen(cfg, owners, s, e, t);
    } else {
      match e {
        case ReadPayment(w, action, id) => ReadPaymentSeen(cfg, owners, s, w, action, id, t);
        case Settle(w, answer) =>
          JobTenant(cfg, s, w);
          SettleSeen(cfg, owners, s, w, answer, t);
        case ReadInvoice(w, o) => ReadInvoiceSeen(cfg, owners, s, w, o, t);
        case CreateRow(w) =>
          assert DraftOk(s.db, s.drafts[w]);
          CreateRowSeen(cfg, owners, s, w, t);
        case Render(w, url) => RenderSeen(cfg, owners, s, w, url, t);
        case WriteUrl(w) =>
          assert DraftOk(s.db, s.drafts[w]);
          WriteUrlSeen(cfg, owners, s, w, t);
        case Kill(w) => KillSeen(cfg, owners, s, w, t);
      }
    }
  }

  lemma StepIsSeen(cfg: Config, owners: Owners, s: State, e: Event, t: TenantId)
    requires ShopOk(cfg, s) && Belongs(owners, s) && Drawn(owners, e)
    ensures StepSeen(cfg, owners, s, e, t)
  {
    match e {
      case Change(edit) => ChangeSeen(cfg, owners, s, edit, t);
      case Place(a, id) => PlaceSeen(cfg, owners, s, a, id, t);
      case _ => WorkSeen(cfg, owners, s, e, t);
    }
  }

  // -------------------------------------------- ownership, kept by every step

  ghost predicate CartsBelong(owners: Owners, carts: Carts)
  {
    forall c :: c in carts ==> carts[c].tenant == owners.cart(c)
  }

  lemma EditBelongs(cfg: Config, owners: Owners, codes: Codes, l: Ledger, e: Edit)
    requires LedgerOk(cfg.policy, codes, l) && CartsBelong(owners, l.carts) && Drawn(owners, Change(e))
    ensures CartsBelong(owners, Edited(cfg, codes, l, e).carts)
  {
    if e.OpenCart? {
    } else {
      EditKeepsLedger(cfg, codes, l, e);
      if e.cart !in l.carts {
        NoCartNoEdit(cfg, codes, l, e);
      } else {
        ReachBelongs(owners, codes, l, Edited(cfg, codes, l, e), e);
      }
    }
  }

  lemma ReachBelongs(owners: Owners, codes: Codes, l: Ledger, l': Ledger, e: Edit)
    requires CartsBelong(owners, l.carts) && EditReach(codes, l, l', e) && e.cart in l.carts
    ensures CartsBelong(owners, l'.carts)
  {
  }

  lemma NoCartNoEdit(cfg: Config, codes: Codes, l: Ledger, e: Edit)
    requires e.cart !in l.carts && !e.OpenCart?
    ensures Edited(cfg, codes, l, e) == l
  {
  }

  lemma PlaceBelongs(cfg: Config, owners: Owners, db: Db, a: Attempt, id: OrderId)
    requires DbBelongs(owners, db) && Drawn(owners, Place(a, id))
    ensures DbBelongs(owners, AfterCheckout(cfg, db, a, id))
  {
    if Atomic(cfg.rules, db, a, id).Ok? {
      var p := Prepare(cfg.rules, db, a).value;
      assert p.cart.tenant == a.tenant;
      WrittenBelongs(owners, db, a, id, p.cart, db.methods[a.paymentMethod].gateway, p.products);
    }
  }

  lemma WrittenBelongs(owners: Owners, db: Db, a: Attempt, id: OrderId, cart: Cart, provider: string, products: Products)
    requires DbBelongs(owners, db) && owners.order(id) == a.tenant == cart.tenant
    requires a.cart in db.carts && db.carts[a.cart].tenant == cart.tenant
    ensures DbBelongs(owners, Written(db, a, id, cart, provider, products))
  {
  }

  lemma SettleBelongs(owners: Owners, db: Db, job: P.Job, answer: P.Answer)
    requires DbBelongs(owners, db)
    ensures DbBelongs(owners, SettledDb(db, job, answer))
  {
  }

  lemma RowBelongs(owners: Owners, db: Db, o: OrderId, read: Order)
    requires DbBelongs(owners, db) && owners.order(o) == read.tenant
    ensures DbBelongs(owners, RowDb(db, o, read))
  {
  }

  lemma StepBelongs(cfg: Config, owners: Owners, s: State, e: Event)
    requires ShopOk(cfg, s) && Belongs(owners, s) && Drawn(owners, e)
    ensures Belongs(owners, Step(cfg, s, e))
  {
    match e {
      case Change(edit) => EditBelongs(cfg, owners, s.db.codes, LedgerOf(s.db), edit);
      case Place(a, id) => PlaceBelongs(cfg, owners, s.db, a, id);
      case CreateRow(w) =>
        if w in s.drafts && s.drafts[w].Creating? {
          assert DraftOk(s.db, s.drafts[w]);
          CreateBelongs(owners, s, w);
        }
      case _ => WorkBelongs(cfg, owners, s, e);
    }
  }

  lemma CreateBelongs(owners: Owners, s: State, w: Worker)
    requires Belongs(owners, s) && w in s.drafts && DraftOk(s.db, s.drafts[w]) && s.drafts[w].Creating?
    ensures Belongs(owners, AfterRow(s, w, RowDb(s.db, s.drafts[w].order, s.drafts[w].read), s.drafts[w].order))
  {
    RowBelongs(owners, s.db, s.drafts[w].order, s.drafts[w].read);
  }

  lemma WorkBelongs(cfg: Config, owners: Owners, s: State, e: Event)
    requires Belongs(owners, s) && Drawn(owners, e) && !e.Change? && !e.Place? && !e.CreateRow?
    ensures Belongs(owners, Step(cfg, s, e))
  {
    match e {
      case Settle(w, answer) => if w in s.jobs { SettleBelongs(owners, s.db, s.jobs[w], answer); }
      case ReadPayment(w, action, id) => JobNamesPayment(cfg, s.db, action, id);
      case ReadInvoice(w, o) =>
      case Render(w, url) =>
      case WriteUrl(w) =>
      case Kill(w) =>
    }
  }

  lemma JobNamesPayment(cfg: Config, db: Db, action: P.Action, id: PaymentId)
    ensures JobFor(cfg, db, action, id).Some? ==> JobFor(cfg, db, action, id).value.payment == id
  {
  }

  /**
   Non-interference: keeping only one tenant's rows and workers after any interleaved run, stock,
   coupon counters, idempotency records and invoice numbers included, gives what running that tenant's
   events alone gives.
   */
  lemma {:induction false} TenantsDoNotInterfere(cfg: Config, owners: Owners, s: State, es: seq<Event>, t: TenantId)
    requires ShopOk(cfg, s) && Belongs(owners, s)
    requires forall i :: 0 <= i < |es| ==> Drawn(owners, es[i])
    ensures Part(owners, Run(cfg, s, es), t) == Run(cfg, Part(owners, s, t), Only(owners, es, t))
    ensures Belongs(owners, Run(cfg, s, es))
  {
    if es != [] {
      var init, e := es[..|es| - 1], es[|es| - 1];
      TenantsDoNotInterfere(cfg, owners, s, init, t);
      ShopLaws.RunKeeps(cfg, s, init);
      StepIsSeen(cfg, owners, Run(cfg, s, init), e, t);
      StepBelongs(cfg, owners, Run(cfg, s, init), e);
      if TenantOf(owners, e) == t {
        ShopLaws.RunSnoc(cfg, Part(owners, s, t), Only(owners, init, t), e);
      }
    }
  }
}
