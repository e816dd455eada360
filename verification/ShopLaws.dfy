/**
 What every run of the shop keeps: money agrees across order, payment and invoice, payments follow
 their state machine, orders move with them, invoice numbers have no gaps.
 */
module ShopLaws {
  import opened Schema
  import opened CartRules
  import opened CouponRules
  import opened CouponLaws
  import opened Idempotency
  import opened Checkout
  import opened Sales
  import opened Shop
  import Money
  import Runs
  import P = Payments
  import I = Invoices

  // --------------------------------------------------------- one settlement

  /** Every settlement is along the edges of the two state machines. */
  lemma SettledMoves(db: Db, job: P.Job, answer: P.Answer)
    ensures var db' := SettledDb(db, job, answer);
            && db'.orders.Keys == db.orders.Keys && OrdersStep(db.orders, db'.orders)
            && db'.payments.Keys == db.payments.Keys && PaymentsStep(db.payments, db'.payments)
  {
  }

  /** On an order and its payment, both guards match or neither does: that is what the pairing is for. */
  lemma PairSettles(gateways: set<string>, order: Order, payment: Payment, answer: P.Answer)
    requires Pair(gateways, order, payment) && payment.provider in gateways
    ensures var order', payment' := P.Flipped(order, answer), P.Settled(payment, P.Authorizing, answer);
            && Pair(gateways, order', payment')
            && ((!order.status.Paid? && order'.status.Paid?)
                <==> (!payment.status.Authorized? && payment'.status.Authorized?))
  {
  }

  lemma PaymentMovesAlone(gateways: set<string>, order: Order, payment: Payment, job: P.Job, answer: P.Answer)
    requires Pair(gateways, order, payment)
    requires match job
             case Acting(action, _, _) => !action.Authorizing? && payment.provider in gateways
             case Failing(_, slug) => payment.provider == slug && slug !in gateways
    ensures var payment' := if job.Acting? then P.Settled(payment, job.action, answer) else P.Unsupported(payment, job.slug);
            Pair(gateways, order, payment') && (payment'.status.Authorized? ==> payment.status.Authorized?)
  {
  }

  /** What one settlement makes of one order and one payment. */
  lemma SettledRows(db: Db, job: P.Job, answer: P.Answer, o: OrderId, p: PaymentId)
    requires o in db.orders && p in db.payments
    ensures var db' := SettledDb(db, job, answer);
            && o in db'.orders && p in db'.payments
            && db'.orders[o] == (if job.Acting? && job.order == Some(o) then P.Flipped(db.orders[o], answer) else db.orders[o])
            && db'.payments[p] == (if p != job.payment then db.payments[p]
                                   else if job.Acting? then P.Settled(db.payments[p], job.action, answer)
                                   else P.Unsupported(db.payments[p], job.slug))
  {
  }

  lemma SettledPairs(gateways: set<string>, db: Db, job: P.Job, answer: P.Answer, o: OrderId, p: PaymentId)
    requires OnePerCart(db) && JobOk(gateways, db, job)
    requires o in db.orders && p in db.payments && db.orders[o].cart == db.payments[p].cart
    requires Pair(gateways, db.orders[o], db.payments[p])
    ensures var db' := SettledDb(db, job, answer);
            && o in db'.orders && p in db'.payments
            && Pair(gateways, db'.orders[o], db'.payments[p])
            && ((!db.orders[o].status.Paid? && db'.orders[o].status.Paid?)
                <==> (!db.payments[p].status.Authorized? && db'.payments[p].status.Authorized?))
  {
    SettledRows(db, job, answer, o, p);
    SameJobSameCart(gateways, db, job, o, p);
    if p == job.payment {
      if job.Acting? && job.action.Authorizing? {
        PairSettles(gateways, db.orders[o], db.payments[p], answer);
      } else {
        PaymentMovesAlone(gateways, db.orders[o], db.payments[p], job, answer);
      }
    }
  }

  /** The order a worker found is the order of its payment, as a cart has one order and one payment. */
  lemma SameJobSameCart(gateways: set<string>, db: Db, job: P.Job, o: OrderId, p: PaymentId)
    requires OnePerCart(db) && JobOk(gateways, db, job)
    requires o in db.orders && p in db.payments && db.orders[o].cart == db.payments[p].cart
    ensures job.Acting? && job.action.Authorizing? ==> job.order.Some? && (o == job.order.value <==> p == job.payment)
    ensures !(job.Acting? && job.action.Authorizing?) ==> !(job.Acting? && job.order == Some(o))
  {
  }

  lemma SettleKeepsPairs(gateways: set<string>, db: Db, job: P.Job, answer: P.Answer)
    requires OnePerCart(db) && JobOk(gateways, db, job) && Coupled(gateways, db)
    ensures Coupled(gateways, SettledDb(db, job, answer)) && Together(db, SettledDb(db, job, answer))
  {
    var db' := SettledDb(db, job, answer);
    SettledMoves(db, job, answer);
    forall o, p | o in db.orders && p in db.payments && db.orders[o].cart == db.payments[p].cart
      ensures Pair(gateways, db'.orders[o], db'.payments[p])
      ensures (!db.orders[o].status.Paid? && db'.orders[o].status.Paid?)
              <==> (!db.payments[p].status.Authorized? && db'.payments[p].status.Authorized?)
    {
      SettledPairs(gateways, db, job, answer, o, p);
    }
  }

  // --------------------------------------------- the store across settling

  /** Statuses are not part of what the store's invariant says of an order. */
  lemma StatusesKeepOrder(db: Db, db': Db, o: OrderId)
    requires o in db.orders && OrderOk(db, o) && Recorded(db, o)
    requires db'.carts == db.carts && db'.records == db.records
    requires o in db'.orders && OrderStep(db.orders[o], db'.orders[o])
    requires db'.payments.Keys == db.payments.Keys && PaymentsStep(db.payments, db'.payments)
    ensures OrderOk(db', o) && Recorded(db', o)
  {
    var p :| p in db.payments && db.payments[p].cart == db.orders[o].cart;
    assert db'.payments[p].cart == db.orders[o].cart;
  }

  lemma StatusesKeepSales(db: Db, db': Db)
    requires SalesOk(db)
    requires db'.carts == db.carts && db'.records == db.records
    requires db'.orders.Keys == db.orders.Keys && OrdersStep(db.orders, db'.orders)
    requires db'.payments.Keys == db.payments.Keys && PaymentsStep(db.payments, db'.payments)
    ensures SalesOk(db')
  {
    forall o | o in db'.orders ensures OrderOk(db', o) && Recorded(db', o) {
      assert OrderOk(db, o) && Recorded(db, o);
      StatusesKeepOrder(db, db', o);
    }
    StatusesKeepRows(db, db');
  }

  lemma StatusesKeepRows(db: Db, db': Db)
    requires OnePerCart(db) && NoOrphans(db) && db'.carts == db.carts
    requires db'.orders.Keys == db.orders.Keys && OrdersStep(db.orders, db'.orders)
    requires db'.payments.Keys == db.payments.Keys && PaymentsStep(db.payments, db'.payments)
    ensures OnePerCart(db') && NoOrphans(db')
  {
    assert forall o :: o in db.orders ==> db'.orders[o].cart == db.orders[o].cart;
    assert forall p :: p in db.payments ==> db'.payments[p].cart == db.payments[p].cart;
    forall c | HasOrder(db.orders, c) ensures HasOrder(db'.orders, c) {
      var o :| o in db.orders && db.orders[o].cart == c;
      assert db'.orders[o].cart == c;
    }
  }

  lemma StatusesKeepRecords(db: Db, db': Db)
    requires forall k :: k in db.records ==> Backed(db, k)
    requires db'.records == db.records && OrdersStep(db.orders, db'.orders) && PaymentsStep(db.payments, db'.payments)
    ensures forall k :: k in db'.records ==> Backed(db', k)
  {
    forall k | k in db'.records ensures Backed(db', k) {
      assert Backed(db, k);
    }
  }

  /** Orders and payments have moved, all that carts and coupons are about is as it was. */
  ghost predicate OnlyStatuses(db: Db, db': Db)
  {
    && db'.carts == db.carts && db'.records == db.records && db'.coupons == db.coupons && db'.codes == db.codes
    && db'.orders.Keys == db.orders.Keys && OrdersStep(db.orders, db'.orders)
    && db'.payments.Keys == db.payments.Keys && PaymentsStep(db.payments, db'.payments)
  }

  lemma StatusesKeepStore(cfg: Config, db: Db, db': Db)
    requires StoreOk(cfg, db) && OnlyStatuses(db, db')
    ensures StoreOk(cfg, db')
  {
    StatusesKeepSales(db, db');
    StatusesKeepRecords(db, db');
    assert LedgerOf(db') == LedgerOf(db);
  }

  // ------------------------------------------------- memories and invoices

  lemma MovesKeepMemories(gateways: set<string>, s: State, s': State)
    requires MemoriesOk(gateways, s)
    requires OrdersStep(s.db.orders, s'.db.orders) && PaymentsStep(s.db.payments, s'.db.payments)
    requires InvoicesStep(s.db.invoices, s'.db.invoices)
    requires s'.jobs.Keys <= s.jobs.Keys && forall w :: w in s'.jobs ==> s'.jobs[w] == s.jobs[w]
    requires s'.drafts.Keys <= s.drafts.Keys
    requires forall w :: w in s'.drafts ==> s'.drafts[w] == s.drafts[w] || DraftOk(s'.db, s'.drafts[w])
    ensures MemoriesOk(gateways, s')
  {
    forall w | w in s'.jobs ensures JobOk(gateways, s'.db, s'.jobs[w]) {
      JobStays(gateways, s.db, s'.db, s.jobs[w]);
    }
    forall w | w in s'.drafts ensures DraftOk(s'.db, s'.drafts[w]) {
      assert DraftOk(s.db, s.drafts[w]);
    }
  }

  lemma JobStays(gateways: set<string>, db: Db, db': Db, job: P.Job)
    requires JobOk(gateways, db, job)
    requires OrdersStep(db.orders, db'.orders) && PaymentsStep(db.payments, db'.payments)
    ensures JobOk(gateways, db', job)
  {
    var p := job.payment;
    assert p in db.payments && PaymentStep(db.payments[p], db'.payments[p]);
    match job {
      case Acting(action, id, order) =>
        if order.Some? {
          var o := order.value;
          assert o in db.orders && OrderStep(db.orders[o], db'.orders[o]);
        }
      case Failing(_, _) =>
    }
  }

  lemma MovesKeepInvoices(db: Db, db': Db)
    requires InvoicesOk(db) && OrdersStep(db.orders, db'.orders)
    requires db'.invoices == db.invoices && db'.sequences == db.sequences
    ensures InvoicesOk(db')
  {
    forall o | o in db'.invoices ensures Invoiced(db', o) {
      assert Invoiced(db, o);
    }
  }

  /** A database whose orders, payments and invoices are the same has made no move. */
  lemma Still(db: Db, db': Db)
    requires db'.orders == db.orders && db'.payments == db.payments
    requires InvoicesStep(db.invoices, db'.invoices)
    ensures Moves(db, db')
  {
  }

  // ------------------------------------------------------------- one step

  /** The step keeps the invariant, and its moves are along the edges. */
  ghost predicate Good(cfg: Config, s: State, s': State)
  {
    ShopOk(cfg, s') && Moves(s.db, s'.db)
  }

  lemma StutterIsGood(cfg: Config, s: State)
    requires ShopOk(cfg, s)
    ensures Good(cfg, s, s)
  {
    Still(s.db, s.db);
  }

  lemma SettleKeepsStore(cfg: Config, db: Db, job: P.Job, answer: P.Answer)
    requires StoreOk(cfg, db)
    ensures StoreOk(cfg, SettledDb(db, job, answer))
  {
    SettledMoves(db, job, answer);
    StatusesKeepStore(cfg, db, SettledDb(db, job, answer));
  }

  function AfterSettling(s: State, w: Worker, answer: P.Answer): State
    requires w in s.jobs
  {
    s.(db := SettledDb(s.db, s.jobs[w], answer), jobs := s.jobs - {w})
  }

  lemma SettleKeepsMemories(gateways: set<string>, s: State, w: Worker, answer: P.Answer)
    requires w in s.jobs && MemoriesOk(gateways, s) && InvoicesOk(s.db)
    ensures MemoriesOk(gateways, AfterSettling(s, w, answer)) && InvoicesOk(AfterSettling(s, w, answer).db)
  {
    SettledMoves(s.db, s.jobs[w], answer);
    MovesKeepMemories(gateways, s, AfterSettling(s, w, answer));
    MovesKeepInvoices(s.db, AfterSettling(s, w, answer).db);
  }

  lemma SettleMoves(gateways: set<string>, s: State, w: Worker, answer: P.Answer)
    requires w in s.jobs && MemoriesOk(gateways, s) && OnePerCart(s.db) && Coupled(gateways, s.db)
    ensures Coupled(gateways, AfterSettling(s, w, answer).db) && Moves(s.db, AfterSettling(s, w, answer).db)
  {
    SettledMoves(s.db, s.jobs[w], answer);
    SettleKeepsPairs(gateways, s.db, s.jobs[w], answer);
  }

  lemma SettleKeeps(cfg: Config, s: State, w: Worker, answer: P.Answer)
    requires ShopOk(cfg, s) && w in s.jobs
    ensures Good(cfg, s, AfterSettling(s, w, answer))
  {
    SettleKeepsStore(cfg, s.db, s.jobs[w], answer);
    SettleKeepsMemories(cfg.gateways, s, w, answer);
    SettleMoves(cfg.gateways, s, w, answer);
  }

  lemma ChangeKeeps(cfg: Config, s: State, e: Edit)
    requires ShopOk(cfg, s)
    ensures Good(cfg, s, Step(cfg, s, Change(e)))
  {
    var s' := Step(cfg, s, Change(e));
    EditKeepsStore(cfg, s.db, e);
    Still(s.db, s'.db);
    MovesKeepMemories(cfg.gateways, s, s');
    MovesKeepInvoices(s.db, s'.db);
  }

  /** A pending order and its payment, for a cart that had neither. */
  ghost predicate Placed(db: Db, db': Db, a: Attempt, id: OrderId)
  {
    && id in db'.orders && db'.orders == db.orders[id := db'.orders[id]] && db'.orders[id].status.PendingPayment?
    && id in db'.payments && db'.payments == db.payments[id := db'.payments[id]]
    && db'.payments[id].status.RequiresConfirmation?
    && db'.orders[id].cart == db'.payments[id].cart == a.cart
    && (forall o :: o in db.orders ==> db.orders[o].cart != a.cart)
    && (forall p :: p in db.payments ==> db.payments[p].cart != a.cart)
  }

  lemma CheckoutPlaces(cfg: Config, db: Db, a: Attempt, id: OrderId)
    requires SalesOk(db)
    requires Atomic(cfg.rules, db, a, id).Ok?
    ensures Placed(db, AfterCheckout(cfg, db, a, id), a, id)
  {
    NewCartHasNoRows(db, a.cart);
  }

  lemma PlacedKeepsPairs(gateways: set<string>, db: Db, db': Db, a: Attempt, id: OrderId)
    requires Coupled(gateways, db) && Placed(db, db', a, id)
    requires id !in db.orders && id !in db.payments && db'.invoices == db.invoices
    ensures Coupled(gateways, db') && Moves(db, db')
  {
    forall o, p | o in db'.orders && p in db'.payments && db'.orders[o].cart == db'.payments[p].cart
      ensures Pair(gateways, db'.orders[o], db'.payments[p])
    {
      if o != id && p != id {
        assert Pair(gateways, db.orders[o], db.payments[p]);
      }
    }
  }

  lemma PlaceKeeps(cfg: Config, s: State, a: Attempt, id: OrderId)
    requires ShopOk(cfg, s)
    requires id !in s.db.orders && id !in s.db.payments && Atomic(cfg.rules, s.db, a, id).Ok?
    ensures Good(cfg, s, s.(db := AfterCheckout(cfg, s.db, a, id)))
  {
    var s' := s.(db := AfterCheckout(cfg, s.db, a, id));
    CheckoutKeepsStore(cfg, s.db, a, id);
    CheckoutPlaces(cfg, s.db, a, id);
    CheckoutLeavesInvoices(cfg, s.db, a, id);
    PlacedKeepsPairs(cfg.gateways, s.db, s'.db, a, id);
    MovesKeepMemories(cfg.gateways, s, s');
    MovesKeepInvoices(s.db, s'.db);
  }

  lemma CheckoutLeavesInvoices(cfg: Config, db: Db, a: Attempt, id: OrderId)
    ensures AfterCheckout(cfg, db, a, id).invoices == db.invoices
    ensures AfterCheckout(cfg, db, a, id).sequences == db.sequences
  {
  }

  lemma JobForOk(cfg: Config, db: Db, action: P.Action, id: PaymentId)
    requires JobFor(cfg, db, action, id).Some?
    ensures JobOk(cfg.gateways, db, JobFor(cfg, db, action, id).value)
  {
  }

  /** A step that changes only what workers remember. */
  lemma MemoryStepIsGood(cfg: Config, s: State, s': State)
    requires ShopOk(cfg, s) && s'.db == s.db && MemoriesOk(cfg.gateways, s')
    ensures Good(cfg, s, s')
  {
    Still(s.db, s.db);
  }

  lemma ReadPaymentRemembers(cfg: Config, s: State, w: Worker, action: P.Action, id: PaymentId)
    requires MemoriesOk(cfg.gateways, s)
    ensures MemoriesOk(cfg.gateways, Step(cfg, s, ReadPayment(w, action, id)))
    ensures Step(cfg, s, ReadPayment(w, action, id)).db == s.db
  {
    if JobFor(cfg, s.db, action, id).Some? {
      JobForOk(cfg, s.db, action, id);
    }
  }

  /** Invoices are no concern of the store's invariant. */
  lemma InvoicesKeepStore(cfg: Config, db: Db, db': Db)
    requires StoreOk(cfg, db)
    requires db' == db.(invoices := db'.invoices, sequences := db'.sequences)
    ensures StoreOk(cfg, db')
  {
    StatusesKeepStore(cfg, db, db');
  }

  lemma RowKeepsInvoices(db: Db, o: OrderId, read: Order)
    requires InvoicesOk(db) && DraftOk(db, Creating(o, read))
    ensures InvoicesOk(RowDb(db, o, read)) && InvoicesStep(db.invoices, RowDb(db, o, read).invoices)
    ensures o in RowDb(db, o, read).invoices
  {
    var db' := RowDb(db, o, read);
    I.RowKeepsNumbers(db.invoices, db.sequences, o, read);
    forall x | x in db'.invoices ensures Invoiced(db', x) {
      if x in db.invoices {
        assert Invoiced(db, x);
      }
    }
  }

  lemma RowKeepsStore(cfg: Config, db: Db, o: OrderId, read: Order)
    requires StoreOk(cfg, db)
    ensures StoreOk(cfg, RowDb(db, o, read))
  {
    InvoicesKeepStore(cfg, db, RowDb(db, o, read));
  }

  lemma CreateRowKeeps(cfg: Config, s: State, w: Worker)
    requires ShopOk(cfg, s) && w in s.drafts && s.drafts[w].Creating?
    ensures var s' := AfterRow(s, w, RowDb(s.db, s.drafts[w].order, s.drafts[w].read), s.drafts[w].order);
            Good(cfg, s, s')
  {
    var o, read := s.drafts[w].order, s.drafts[w].read;
    var db' := RowDb(s.db, o, read);
    assert DraftOk(s.db, s.drafts[w]);
    RowKeepsInvoices(s.db, o, read);
    RowKeepsStore(cfg, s.db, o, read);
    Still(s.db, db');
    CreateRowKeepsMemories(cfg.gateways, s, w, db', o);
  }

  lemma CreateRowKeepsMemories(gateways: set<string>, s: State, w: Worker, db': Db, o: OrderId)
    requires MemoriesOk(gateways, s) && o in db'.invoices && w in s.drafts
    requires db'.orders == s.db.orders && db'.payments == s.db.payments && InvoicesStep(s.db.invoices, db'.invoices)
    ensures MemoriesOk(gateways, AfterRow(s, w, db', o))
  {
    MovesKeepMemories(gateways, s, AfterRow(s, w, db', o));
  }

  lemma UrlKeepsInvoices(db: Db, o: OrderId, url: string)
    requires InvoicesOk(db) && url != ""
    ensures var db' := db.(invoices := I.UrlWritten(db.invoices, o, url));
            InvoicesOk(db') && InvoicesStep(db.invoices, db'.invoices)
  {
    var db' := db.(invoices := I.UrlWritten(db.invoices, o, url));
    I.UrlKeepsNumbers(db.invoices, db.sequences, o, url);
    forall x | x in db'.invoices ensures Invoiced(db', x) {
      assert Invoiced(db, x);
    }
  }

  function AfterWriting(s: State, w: Worker): State
    requires w in s.drafts && s.drafts[w].Writing?
  {
    s.(db := s.db.(invoices := I.UrlWritten(s.db.invoices, s.drafts[w].order, s.drafts[w].url)), drafts := s.drafts - {w})
  }

  lemma WriteUrlKeeps(cfg: Config, s: State, w: Worker)
    requires ShopOk(cfg, s) && w in s.drafts && s.drafts[w].Writing?
    ensures Good(cfg, s, AfterWriting(s, w))
  {
    var s' := AfterWriting(s, w);
    assert DraftOk(s.db, s.drafts[w]);
    UrlKeepsInvoices(s.db, s.drafts[w].order, s.drafts[w].url);
    InvoicesKeepStore(cfg, s.db, s'.db);
    Still(s.db, s'.db);
    MovesKeepMemories(cfg.gateways, s, s');
  }

  lemma ReadInvoiceRemembers(cfg: Config, s: State, w: Worker, o: OrderId)
    requires MemoriesOk(cfg.gateways, s) && InvoicesOk(s.db)
    ensures MemoriesOk(cfg.gateways, Step(cfg, s, ReadInvoice(w, o)))
    ensures Step(cfg, s, ReadInvoice(w, o)).db == s.db
  {
    if DraftFor(s.db, o).Some? {
      DraftForOk(s.db, o);
    }
  }

  lemma RenderRemembers(cfg: Config, s: State, w: Worker, url: Option<string>)
    requires MemoriesOk(cfg.gateways, s)
    ensures MemoriesOk(cfg.gateways, Step(cfg, s, Render(w, url)))
    ensures Step(cfg, s, Render(w, url)).db == s.db
  {
    assert w in s.drafts ==> DraftOk(s.db, s.drafts[w]);
  }

  lemma KillForgets(cfg: Config, s: State, w: Worker)
    requires MemoriesOk(cfg.gateways, s)
    ensures MemoriesOk(cfg.gateways, Step(cfg, s, Kill(w)))
    ensures Step(cfg, s, Kill(w)).db == s.db
  {
  }

  lemma DraftForOk(db: Db, o: OrderId)
    requires InvoicesOk(db) && DraftFor(db, o).Some?
    ensures DraftOk(db, DraftFor(db, o).value)
  {
  }

  lemma MemoryStepKeeps(cfg: Config, s: State, e: Event)
    requires ShopOk(cfg, s) && (e.ReadPayment? || e.ReadInvoice? || e.Render? || e.Kill?)
    ensures Good(cfg, s, Step(cfg, s, e))
  {
    match e {
      case ReadPayment(w, action, id) => ReadPaymentRemembers(cfg, s, w, action, id);
      case ReadInvoice(w, o) => ReadInvoiceRemembers(cfg, s, w, o);
      case Render(w, url) => RenderRemembers(cfg, s, w, url);
      case Kill(w) => KillForgets(cfg, s, w);
    }
    MemoryStepIsGood(cfg, s, Step(cfg, s, e));
  }

  lemma PlaceStepKeeps(cfg: Config, s: State, a: Attempt, id: OrderId)
    requires ShopOk(cfg, s)
    ensures Good(cfg, s, Step(cfg, s, Place(a, id)))
  {
    StutterIsGood(cfg, s);
    if id !in s.db.orders && id !in s.db.payments && Atomic(cfg.rules, s.db, a, id).Ok? {
      PlaceKeeps(cfg, s, a, id);
    }
  }

  lemma SettleStep(cfg: Config, s: State, w: Worker, answer: P.Answer)
    ensures Step(cfg, s, Settle(w, answer)) == if w in s.jobs then AfterSettling(s, w, answer) else s
  {
  }

  lemma SettleStepKeeps(cfg: Config, s: State, w: Worker, answer: P.Answer)
    requires ShopOk(cfg, s)
    ensures Good(cfg, s, Step(cfg, s, Settle(w, answer)))
  {
    SettleStep(cfg, s, w, answer);
    StutterIsGood(cfg, s);
    if w in s.jobs {
      SettleKeeps(cfg, s, w, answer);
    }
  }

  lemma CreateRowStep(cfg: Config, s: State, w: Worker)
    ensures Step(cfg, s, CreateRow(w))
         == if w in s.drafts && s.drafts[w].Creating?
            then AfterRow(s, w, RowDb(s.db, s.drafts[w].order, s.drafts[w].read), s.drafts[w].order) else s
  {
  }

  lemma CreateRowStepKeeps(cfg: Config, s: State, w: Worker)
    requires ShopOk(cfg, s)
    ensures Good(cfg, s, Step(cfg, s, CreateRow(w)))
  {
    CreateRowStep(cfg, s, w);
    StutterIsGood(cfg, s);
    if w in s.drafts && s.drafts[w].Creating? {
      CreateRowKeeps(cfg, s, w);
    }
  }

  lemma WriteUrlStep(cfg: Config, s: State, w: Worker)
    ensures Step(cfg, s, WriteUrl(w)) == if w in s.drafts && s.drafts[w].Writing? then AfterWriting(s, w) else s
  {
  }

  lemma WriteUrlStepKeeps(cfg: Config, s: State, w: Worker)
    requires ShopOk(cfg, s)
    ensures Good(cfg, s, Step(cfg, s, WriteUrl(w)))
  {
    WriteUrlStep(cfg, s, w);
    StutterIsGood(cfg, s);
    if w in s.drafts && s.drafts[w].Writing? {
      WriteUrlKeeps(cfg, s, w);
    }
  }

  lemma StepKeeps(cfg: Config, s: State, e: Event)
    requires ShopOk(cfg, s)
    ensures Good(cfg, s, Step(cfg, s, e))
  {
    match e {
      case Change(edit) => ChangeKeeps(cfg, s, edit);
      case Place(a, id) => PlaceStepKeeps(cfg, s, a, id);
      case Settle(w, answer) => SettleStepKeeps(cfg, s, w, answer);
      case CreateRow(w) => CreateRowStepKeeps(cfg, s, w);
      case WriteUrl(w) => WriteUrlStepKeeps(cfg, s, w);
      case _ => MemoryStepKeeps(cfg, s, e);
    }
  }

  // ------------------------------------------------------------- all runs

  /** A shop that has sold nothing yet, with any catalogue and any unused coupons, satisfies the invariant. */
  lemma NewShopIsConsistent(cfg: Config, db: Db)
    requires db.carts == map[] && db.orders == map[] && db.payments == map[] && db.records == map[]
    requires db.invoices == map[] && db.sequences == map[]
    requires CodesOk(db.codes, db.coupons) && forall c :: c in db.coupons ==> db.coupons[c].used == 0
    ensures ShopOk(cfg, State(db, map[], map[]))
  {
    forall c | c in db.coupons ensures Holders(db.carts, c) == {} {
    }
  }

  lemma {:induction false} RunKeeps(cfg: Config, s: State, es: seq<Event>)
    requires ShopOk(cfg, s)
    ensures ShopOk(cfg, Run(cfg, s, es))
  {
    if es != [] {
      RunKeeps(cfg, s, es[..|es| - 1]);
      StepKeeps(cfg, Run(cfg, s, es[..|es| - 1]), es[|es| - 1]);
    }
  }

  /**
   Every step of every run follows the edges of the payment state machine, and an order becomes paid
   in exactly the step in which its payment becomes authorised.
   */
  lemma EveryStepFollowsTheEdges(cfg: Config, s: State, es: seq<Event>, e: Event)
    requires ShopOk(cfg, s)
    ensures var s1 := Run(cfg, s, es); Moves(s1.db, Step(cfg, s1, e).db)
  {
    RunKeeps(cfg, s, es);
    StepKeeps(cfg, Run(cfg, s, es), e);
  }

  /**
   Money agrees in every reachable state: an order with its lines and discount, its payment and its
   invoice with the order; and an invoice is that of a paid order, whatever tasks were started.
   */
  lemma MoneyAgrees(cfg: Config, s: State, es: seq<Event>, o: OrderId)
    requires ShopOk(cfg, s)
    requires o in Run(cfg, s, es).db.orders
    ensures var db := Run(cfg, s, es).db;
            var order := db.orders[o];
            && order.subtotal == SumItems(order.lines)
            && order.total == (if order.discount <= order.subtotal then order.subtotal - order.discount else 0)
            && (exists p :: p in db.payments && db.payments[p].cart == order.cart && db.payments[p].amount == order.total)
            && (o in db.invoices ==>
                  && order.status.Paid?
                  && db.invoices[o].total == order.total
                  && db.invoices[o].taxes == Money.HalfUp(15 * order.total, 100))
  {
    RunKeeps(cfg, s, es);
    var db := Run(cfg, s, es).db;
    assert OrderOk(db, o);
    var p :| p in db.payments && db.payments[p].cart == db.orders[o].cart;
    assert db.payments[p].amount == db.orders[o].total;
    if o in db.invoices {
      assert Invoiced(db, o) && I.Issued(db.invoices[o], db.sequences);
      Money.TaxRoundsOnce(db.orders[o].total);
    }
  }

  // ----------------------------------------------------------- histories

  /** How far a payment has come; every edge leads further. */
  function Rank(status: PaymentStatus): nat
  {
    match status
    case RequiresConfirmation => 0
    case Authorized => 1
    case Captured => 2
    case Succeeded => 2
    case _ => 3
  }

  /** What remains of a payment row after any number of steps. */
  ghost predicate PaymentLater(p: Payment, p': Payment)
  {
    && p'.tenant == p.tenant && p'.cart == p.cart && p'.provider == p.provider && p'.amount == p.amount
    && Rank(p.status) <= Rank(p'.status)
    && (!p.status.RequiresConfirmation? ==> p'.authorizationId == p.authorizationId)
    && (Rank(p.status) >= 2 ==> p'.captureId == p.captureId)
    && (Rank(p.status) == 3 ==> p' == p)
  }

  ghost predicate OrderLater(order: Order, order': Order)
  {
    && order' == order.(status := order'.status, version := order'.version)
    && (!order.status.PendingPayment? ==> order' == order)
  }

  ghost predicate InvoiceLater(i: Invoice, i': Invoice)
  {
    && i' == i.(pdfUrl := i'.pdfUrl)
    && (i.pdfUrl != "" ==> i' == i)
  }

  /** No row is lost, and each is what its beginnings allow. */
  ghost predicate Later(db: Db, db': Db)
  {
    && (forall p :: p in db.payments ==> p in db'.payments && PaymentLater(db.payments[p], db'.payments[p]))
    && (forall o :: o in db.orders ==> o in db'.orders && OrderLater(db.orders[o], db'.orders[o]))
    && (forall o :: o in db.invoices ==> o in db'.invoices && InvoiceLater(db.invoices[o], db'.invoices[o]))
  }

  lemma LaterStep(db: Db, db1: Db, db2: Db)
    requires Later(db, db1) && Moves(db1, db2)
    ensures Later(db, db2)
  {
    forall p | p in db.payments ensures p in db2.payments && PaymentLater(db.payments[p], db2.payments[p]) {
      assert PaymentStep(db1.payments[p], db2.payments[p]);
    }
    forall o | o in db.orders ensures o in db2.orders && OrderLater(db.orders[o], db2.orders[o]) {
      assert OrderStep(db1.orders[o], db2.orders[o]);
    }
    forall o | o in db.invoices ensures o in db2.invoices && InvoiceLater(db.invoices[o], db2.invoices[o]) {
      assert InvoiceStep(db1.invoices[o], db2.invoices[o]);
    }
  }

  /**
   Over any run an order's snapshot never changes and its status at most once, a gateway reference is
   written once, a settled payment stays as it is, an invoice keeps its number and, once it has one,
   its url.
   */
  lemma {:induction false} NothingIsRewritten(cfg: Config, s: State, es: seq<Event>)
    requires ShopOk(cfg, s)
    ensures Later(s.db, Run(cfg, s, es).db)
  {
    if es != [] {
      var s1 := Run(cfg, s, es[..|es| - 1]);
      NothingIsRewritten(cfg, s, es[..|es| - 1]);
      EveryStepFollowsTheEdges(cfg, s, es[..|es| - 1], es[|es| - 1]);
      LaterStep(s.db, s1.db, Step(cfg, s1, es[|es| - 1]).db);
    }
  }

  predicate Changed(db: Db, db': Db, p: PaymentId)
  {
    p in db.payments && p in db'.payments && db'.payments[p] != db.payments[p]
  }

  /** The number of steps of a run that change a payment. */
  ghost function Changes(cfg: Config, s: State, es: seq<Event>, p: PaymentId): nat
  {
    if es == [] then 0
    else
      var s1 := Run(cfg, s, es[..|es| - 1]);
      Changes(cfg, s, es[..|es| - 1], p) + if Changed(s1.db, Step(cfg, s1, es[|es| - 1]).db, p) then 1 else 0
  }

  lemma MoveRaisesRank(db: Db, db': Db, p: PaymentId)
    requires p in db.payments && PaymentsStep(db.payments, db'.payments)
    ensures p in db'.payments
    ensures Rank(db.payments[p].status) + (if Changed(db, db', p) then 1 else 0) <= Rank(db'.payments[p].status)
  {
    assert PaymentStep(db.payments[p], db'.payments[p]);
  }

  lemma {:induction false} ChangesAreRanked(cfg: Config, s: State, es: seq<Event>, p: PaymentId)
    requires ShopOk(cfg, s) && p in s.db.payments
    ensures var db := Run(cfg, s, es).db;
            p in db.payments && Rank(s.db.payments[p].status) + Changes(cfg, s, es, p) <= Rank(db.payments[p].status)
  {
    if es != [] {
      var s1 := Run(cfg, s, es[..|es| - 1]);
      ChangesAreRanked(cfg, s, es[..|es| - 1], p);
      EveryStepFollowsTheEdges(cfg, s, es[..|es| - 1], es[|es| - 1]);
      MoveRaisesRank(s1.db, Step(cfg, s1, es[|es| - 1]).db, p);
    }
  }

  /** However many workers act on it, and however stale their reads, a payment changes at most three times. */
  lemma AtMostThreeChanges(cfg: Config, s: State, es: seq<Event>, p: PaymentId)
    requires ShopOk(cfg, s) && p in s.db.payments
    ensures Changes(cfg, s, es, p) <= 3
  {
    ChangesAreRanked(cfg, s, es, p);
  }

  // ------------------------------------------------ what gateways answered

  /** What one settlement does to the two tables: only its payment and its order move, and both as the gateway answered. */
  lemma SettlingFollowsTheAnswer(cfg: Config, s: State, w: Worker, answer: P.Answer)
    requires w in s.jobs && s.jobs[w].Acting? && s.jobs[w].payment in s.db.payments
    ensures var job, s' := s.jobs[w], Step(cfg, s, Settle(w, answer));
            && w !in s'.jobs && s'.db.payments.Keys == s.db.payments.Keys
            && P.FollowsAnswer(s.db.payments[job.payment], s'.db.payments[job.payment], job.action, answer)
            && (forall p :: p in s.db.payments && p != job.payment ==> s'.db.payments[p] == s.db.payments[p])
            && (job.order.Some? && job.order.value in s.db.orders ==>
                  job.order.value in s'.db.orders
                  && P.OrderFollowsAnswer(s.db.orders[job.order.value], s'.db.orders[job.order.value], answer))
  {
    SettleStep(cfg, s, w, answer);
    P.SettlementFollowsTheAnswer(s.db.payments, s.db.orders, s.jobs[w], answer);
  }

  /** A worker that finds its payment ready remembers to act on it, and for an authorisation with the first order of the cart. */
  lemma WorkersRemember(cfg: Config, s: State, w: Worker, action: P.Action, id: PaymentId, first: OrderId)
    requires Ready(cfg, s.db, action, id, first)
    ensures var s' := Step(cfg, s, ReadPayment(w, action, id));
            && s'.db == s.db && w in s'.jobs
            && s'.jobs[w] == P.Acting(action, id, if action == P.Authorizing then Some(first) else None)
  {
    P.DecisionsInOrder(cfg.gateways, s.db.payments, s.db.orders, action, id, first);
  }

  /** The payment may be acted on, its provider is registered, and `first` is the first order of its cart. */
  ghost predicate Ready(cfg: Config, db: Db, action: P.Action, id: PaymentId, first: OrderId)
  {
    && id in db.payments && P.MayGoAhead(action, db.payments[id].status) && db.payments[id].provider in cfg.gateways
    && (action == P.Authorizing ==>
          && first in db.orders && db.orders[first].tenant == db.payments[id].tenant
          && db.orders[first].cart == db.payments[id].cart
          && forall o :: o in db.orders && o < first ==>
               !(db.orders[o].tenant == db.payments[id].tenant && db.orders[o].cart == db.payments[id].cart))
  }

  /** One uninterrupted call of a worker does to payment and order what the gateway answered. */
  lemma OneCallSettlesThePayment(cfg: Config, s: State, w: Worker, action: P.Action, id: PaymentId, first: OrderId, answer: P.Answer)
    requires Ready(cfg, s.db, action, id, first)
    ensures var db := Step(cfg, Step(cfg, s, ReadPayment(w, action, id)), Settle(w, answer)).db;
            && id in db.payments && P.FollowsAnswer(s.db.payments[id], db.payments[id], action, answer)
            && (action == P.Authorizing ==>
                  first in db.orders && P.OrderFollowsAnswer(s.db.orders[first], db.orders[first], answer))
  {
    WorkersRemember(cfg, s, w, action, id, first);
    SettlingFollowsTheAnswer(cfg, Step(cfg, s, ReadPayment(w, action, id)), w, answer);
  }

  /** The answer that alone can bring a payment into a status, and the reference or reason it leaves. */
  ghost predicate BroughtBy(p': Payment, answer: P.Answer)
  {
    match p'.status
    case Authorized => answer == P.Approved(p'.authorizationId)
    case Captured => answer == P.Approved(p'.captureId)
    case Cancelled => answer.Approved?
    case Refunded => answer.Approved?
    case Failed => answer.Declined? && P.CutAt255(answer.code + ": " + answer.message, p'.failureReason)
    case _ => false
  }

  /**
   Whatever step changes a payment, it is the settlement of a worker on it: with an answer that brings about
   exactly that change, or because its provider is not registered.
   */
  lemma OnlyAnswersMovePayments(cfg: Config, s: State, e: Event, p: PaymentId)
    requires p in s.db.payments && p in Step(cfg, s, e).db.payments
    requires Step(cfg, s, e).db.payments[p] != s.db.payments[p]
    ensures e.Settle? && e.w in s.jobs && s.jobs[e.w].payment == p
    ensures var p' := Step(cfg, s, e).db.payments[p];
            if s.jobs[e.w].Acting? then BroughtBy(p', e.answer) else p'.status == Failed
  {
    OnlySettlementsMovePayments(cfg, s, e);
    if e.Place? {
      PlacingLeavesPayments(cfg, s, e.attempt, e.id, p);
    }
    SettleStep(cfg, s, e.w, e.answer);
    P.SettlementFollowsTheAnswer(s.db.payments, s.db.orders, s.jobs[e.w], e.answer);
  }

  lemma OnlySettlementsMovePayments(cfg: Config, s: State, e: Event)
    ensures !e.Place? && !(e.Settle? && e.w in s.jobs) ==> Step(cfg, s, e).db.payments == s.db.payments
  {
  }

  lemma PlacingLeavesPayments(cfg: Config, s: State, a: Attempt, id: OrderId, p: PaymentId)
    requires p in s.db.payments
    ensures var payments := Step(cfg, s, Place(a, id)).db.payments; p in payments && payments[p] == s.db.payments[p]
  {
  }

  // ------------------------------------------- orders and their payments

  /** In every reachable state: an order awaits payment exactly when its payment does, or failed for want of a gateway. */
  lemma PendingOrders(cfg: Config, s: State, es: seq<Event>, o: OrderId, p: PaymentId)
    requires ShopOk(cfg, s)
    requires var db := Run(cfg, s, es).db; o in db.orders && p in db.payments && db.orders[o].cart == db.payments[p].cart
    ensures var db := Run(cfg, s, es).db;
            db.orders[o].status.PendingPayment?
            <==> || db.payments[p].status.RequiresConfirmation?
                 || (db.payments[p].status.Failed? && db.payments[p].provider !in cfg.gateways)
  {
    RunKeeps(cfg, s, es);
    var db := Run(cfg, s, es).db;
    assert Pair(cfg.gateways, db.orders[o], db.payments[p]);
  }

  /** The two steps of a worker whose payment names an unregistered provider. */
  lemma UnregisteredProviderFails(cfg: Config, s: State, w: Worker, p: PaymentId)
    requires p in s.db.payments && s.db.payments[p].status.RequiresConfirmation? && s.db.payments[p].provider !in cfg.gateways
    ensures var db := Step(cfg, Step(cfg, s, ReadPayment(w, P.Authorizing, p)), Settle(w, P.Unreachable)).db;
            p in db.payments && db.payments[p].status.Failed? && db.orders == s.db.orders
  {
    assert JobFor(cfg, s.db, P.Authorizing, p) == Some(P.Failing(p, s.db.payments[p].provider));
  }

  /** The second case happens: one worker is enough to fail the payment and leave its order waiting for ever. */
  lemma UnregisteredProviderStrandsTheOrder(cfg: Config, s: State, w: Worker, o: OrderId, p: PaymentId, es: seq<Event>)
    requires ShopOk(cfg, s)
    requires o in s.db.orders && p in s.db.payments && s.db.orders[o].cart == s.db.payments[p].cart
    requires s.db.payments[p].status.RequiresConfirmation? && s.db.payments[p].provider !in cfg.gateways
    ensures var s1 := Step(cfg, Step(cfg, s, ReadPayment(w, P.Authorizing, p)), Settle(w, P.Unreachable));
            var db := Run(cfg, s1, es).db;
            && p in db.payments && db.payments[p].status.Failed?
            && o in db.orders && db.orders[o].status.PendingPayment?
  {
    TwoStepsKeep(cfg, s, w, p);
    UnregisteredProviderFails(cfg, s, w, p);
    FailedStays(cfg, s, Step(cfg, Step(cfg, s, ReadPayment(w, P.Authorizing, p)), Settle(w, P.Unreachable)), es, o, p);
  }

  lemma TwoStepsKeep(cfg: Config, s: State, w: Worker, p: PaymentId)
    requires ShopOk(cfg, s)
    ensures var s1 := Step(cfg, Step(cfg, s, ReadPayment(w, P.Authorizing, p)), Settle(w, P.Unreachable));
            ShopOk(cfg, s1) && PaymentsStep(s.db.payments, s1.db.payments)
  {
    var s0 := Step(cfg, s, ReadPayment(w, P.Authorizing, p));
    StepKeeps(cfg, s, ReadPayment(w, P.Authorizing, p));
    ReadPaymentRemembers(cfg, s, w, P.Authorizing, p);
    StepKeeps(cfg, s0, Settle(w, P.Unreachable));
  }

  lemma FailedStays(cfg: Config, s: State, s1: State, es: seq<Event>, o: OrderId, p: PaymentId)
    requires ShopOk(cfg, s1) && PaymentsStep(s.db.payments, s1.db.payments)
    requires o in s1.db.orders && p in s.db.payments && s1.db.orders[o].cart == s.db.payments[p].cart
    requires p in s1.db.payments && s1.db.payments[p].status.Failed? && s.db.payments[p].provider !in cfg.gateways
    ensures var db := Run(cfg, s1, es).db;
            && p in db.payments && db.payments[p].status.Failed?
            && o in db.orders && db.orders[o].status.PendingPayment?
  {
    assert PaymentStep(s.db.payments[p], s1.db.payments[p]);
    NothingIsRewritten(cfg, s1, es);
    var db := Run(cfg, s1, es).db;
    assert p in db.payments && PaymentLater(s1.db.payments[p], db.payments[p]);
    assert o in db.orders && OrderLater(s1.db.orders[o], db.orders[o]);
    PendingOrders(cfg, s1, es, o, p);
  }

  // -------------------------------------------------------------- invoices

  /** In every reachable state the numbers of a tenant are 1 to its last number, one per invoiced order. */
  lemma NumbersHaveNoGaps(cfg: Config, s: State, es: seq<Event>, tenant: TenantId)
    requires ShopOk(cfg, s)
    ensures var db := Run(cfg, s, es).db;
            var last := I.LastNumber(db.sequences, tenant);
            && I.NumbersOf(db.invoices, tenant) == I.UpTo(last)
            && |I.OrdersOf(db.invoices, tenant)| == last
  {
    RunKeeps(cfg, s, es);
    var db := Run(cfg, s, es).db;
    I.NumbersAreCounted(db.invoices, db.sequences, tenant);
  }

  /** The steps of one call that nobody interrupts. */
  function OneCall(w: Worker, o: OrderId, url: string): seq<Event>
  {
    [ReadInvoice(w, o), CreateRow(w), Render(w, Some(url)), WriteUrl(w)]
  }

  /**
   Wherever earlier workers died, one uninterrupted call completes the invoice of a paid order; it
   takes a new number only if the order has none.
   */
  lemma OneCallCompletesTheInvoice(cfg: Config, s: State, w: Worker, o: OrderId, url: string)
    requires ShopOk(cfg, s) && w !in s.drafts && url != ""
    requires o in s.db.orders && s.db.orders[o].status.Paid?
    ensures Completed(s.db, Run(cfg, s, OneCall(w, o, url)).db, o, url)
  {
    RunOneCall(cfg, s, w, o, url);
    CallCompletes(cfg, s, w, o, url);
  }

  lemma CallCompletes(cfg: Config, s: State, w: Worker, o: OrderId, url: string)
    requires I.GapFree(s.db.invoices, s.db.sequences) && w !in s.drafts && url != ""
    requires o in s.db.orders && s.db.orders[o].status.Paid?
    ensures Completed(s.db, Four(cfg, s, ReadInvoice(w, o), CreateRow(w), Render(w, Some(url)), WriteUrl(w)).db, o, url)
  {
    if o !in s.db.invoices {
      CallForTheRow(cfg, s, w, o, url);
      RowCompletes(s.db, o, url);
    } else if s.db.invoices[o].pdfUrl == "" {
      CallForThePdf(cfg, s, w, o, url);
    } else {
      CallWithNothingToDo(cfg, s, w, o, url);
    }
  }

  lemma RowCompletes(db: Db, o: OrderId, url: string)
    requires o in db.orders && o !in db.invoices && url != ""
    requires !I.Clash(db.invoices, db.sequences, o, db.orders[o].tenant)
    ensures var row := RowDb(db, o, db.orders[o]);
            Completed(db, row.(invoices := I.UrlWritten(row.invoices, o, url)), o, url)
  {
  }

  ghost function Four(cfg: Config, s: State, a: Event, b: Event, c: Event, d: Event): State
  {
    Step(cfg, Step(cfg, Step(cfg, Step(cfg, s, a), b), c), d)
  }

  ghost predicate Completed(db: Db, db': Db, o: OrderId, url: string)
    requires o in db.orders
  {
    && o in db'.invoices
    && db'.invoices[o].pdfUrl == (if o in db.invoices && db.invoices[o].pdfUrl != "" then db.invoices[o].pdfUrl else url)
    && (if o in db.invoices then
          db'.sequences == db.sequences && db'.invoices[o] == db.invoices[o].(pdfUrl := db'.invoices[o].pdfUrl)
        else db'.invoices[o].number == I.LastNumber(db.sequences, db.orders[o].tenant) + 1)
  }

  lemma CallWithNothingToDo(cfg: Config, s: State, w: Worker, o: OrderId, url: string)
    requires w !in s.drafts && DraftFor(s.db, o).None?
    ensures Four(cfg, s, ReadInvoice(w, o), CreateRow(w), Render(w, Some(url)), WriteUrl(w)) == s
  {
  }

  lemma CallForThePdf(cfg: Config, s: State, w: Worker, o: OrderId, url: string)
    requires DraftFor(s.db, o) == Some(Rendering(o)) && url != ""
    ensures Four(cfg, s, ReadInvoice(w, o), CreateRow(w), Render(w, Some(url)), WriteUrl(w)).db
         == s.db.(invoices := I.UrlWritten(s.db.invoices, o, url))
  {
    var s1 := Step(cfg, s, ReadInvoice(w, o));
    assert Step(cfg, s1, CreateRow(w)) == s1;
    RenderingThenUrl(cfg, s1, w, o, url);
  }

  lemma CallForTheRow(cfg: Config, s: State, w: Worker, o: OrderId, url: string)
    requires I.GapFree(s.db.invoices, s.db.sequences) && url != ""
    requires o in s.db.orders && o !in s.db.invoices && s.db.orders[o].status.Paid?
    ensures Four(cfg, s, ReadInvoice(w, o), CreateRow(w), Render(w, Some(url)), WriteUrl(w)).db
         == RowDb(s.db, o, s.db.orders[o]).(invoices := I.UrlWritten(RowDb(s.db, o, s.db.orders[o]).invoices, o, url))
    ensures o in RowDb(s.db, o, s.db.orders[o]).invoices && !I.Clash(s.db.invoices, s.db.sequences, o, s.db.orders[o].tenant)
  {
    var s1 := Step(cfg, s, ReadInvoice(w, o));
    I.RowKeepsNumbers(s.db.invoices, s.db.sequences, o, s.db.orders[o]);
    RowThenRendering(cfg, s1, w, o);
    RenderingThenUrl(cfg, Step(cfg, s1, CreateRow(w)), w, o, url);
  }

  lemma RowThenRendering(cfg: Config, s: State, w: Worker, o: OrderId)
    requires w in s.drafts && s.drafts[w].Creating? && s.drafts[w].order == o && o !in s.db.invoices
    requires !I.Clash(s.db.invoices, s.db.sequences, o, s.drafts[w].read.tenant)
    ensures var s' := Step(cfg, s, CreateRow(w));
            && s'.db == RowDb(s.db, o, s.drafts[w].read)
            && w in s'.drafts && s'.drafts[w] == Rendering(o)
  {
  }

  lemma RenderingThenUrl(cfg: Config, s: State, w: Worker, o: OrderId, url: string)
    requires w in s.drafts && s.drafts[w] == Rendering(o) && url != ""
    ensures Step(cfg, Step(cfg, s, Render(w, Some(url))), WriteUrl(w)).db
         == s.db.(invoices := I.UrlWritten(s.db.invoices, o, url))
  {
  }

  lemma RunSnoc(cfg: Config, s: State, es: seq<Event>, e: Event)
    ensures Run(cfg, s, es + [e]) == Step(cfg, Run(cfg, s, es), e)
  {
    assert (es + [e])[..|es|] == es;
  }

  ghost function Stepper(cfg: Config): (State, Event) -> State
  {
    (s, e) => Step(cfg, s, e)
  }

  lemma {:induction false} RunIsFold(cfg: Config, s: State, es: seq<Event>)
    ensures Run(cfg, s, es) == Runs.Fold(Stepper(cfg), s, es)
  {
    if es != [] {
      RunIsFold(cfg, s, es[..|es| - 1]);
    }
  }

  lemma RunOneCall(cfg: Config, s: State, w: Worker, o: OrderId, url: string)
    ensures Run(cfg, s, OneCall(w, o, url)) == Four(cfg, s, ReadInvoice(w, o), CreateRow(w), Render(w, Some(url)), WriteUrl(w))
  {
    RunIsFold(cfg, s, OneCall(w, o, url));
    Runs.FoldFour(Stepper(cfg), s, ReadInvoice(w, o), CreateRow(w), Render(w, Some(url)), WriteUrl(w));
  }

  // ----------------------------------------------------- carts and coupons

  lemma StepMovesVersions(cfg: Config, s: State, e: Event)
    requires ShopOk(cfg, s)
    ensures CartsLater(s.db.carts, Step(cfg, s, e).db.carts)
  {
    match e {
      case Change(edit) => EditMovesVersions(cfg, s.db, edit);
      case Place(a, id) => CheckoutMovesVersions(cfg, s.db, a, id);
      case _ => WorkersLeaveCarts(cfg, s, e);
    }
  }

  lemma WorkersLeaveCarts(cfg: Config, s: State, e: Event)
    requires !e.Change? && !e.Place?
    ensures Step(cfg, s, e).db.carts == s.db.carts
  {
  }

  /** Over any run a cart keeps its owner, never reopens, and whatever changes in it raises its version. */
  lemma {:induction false} VersionsGrow(cfg: Config, s: State, es: seq<Event>)
    requires ShopOk(cfg, s)
    ensures CartsLater(s.db.carts, Run(cfg, s, es).db.carts)
  {
    if es != [] {
      VersionsGrow(cfg, s, es[..|es| - 1]);
      RunKeeps(cfg, s, es[..|es| - 1]);
      StepMovesVersions(cfg, Run(cfg, s, es[..|es| - 1]), es[|es| - 1]);
    }
  }

  lemma StepKeepsOneActive(cfg: Config, s: State, e: Event)
    requires ShopOk(cfg, s) && OneActive(s.db.carts)
    ensures OneActive(Step(cfg, s, e).db.carts)
  {
    match e {
      case Change(edit) => EditKeepsOneActive(cfg, s.db, edit);
      case Place(a, id) => CheckoutKeepsOneActive(cfg, s.db, a, id);
      case _ => WorkersLeaveCarts(cfg, s, e);
    }
  }

  /** A user never has two active carts in a tenant: one is opened only when the last has been checked out. */
  lemma {:induction false} OneActiveCartPerUser(cfg: Config, s: State, es: seq<Event>)
    requires ShopOk(cfg, s) && OneActive(s.db.carts)
    ensures OneActive(Run(cfg, s, es).db.carts)
    decreases |es|
  {
    if es != [] {
      OneActiveCartPerUser(cfg, s, es[..|es| - 1]);
      RunKeeps(cfg, s, es[..|es| - 1]);
      StepKeepsOneActive(cfg, Run(cfg, s, es[..|es| - 1]), es[|es| - 1]);
    }
  }

  /** In every reachable state a cart's three amounts agree with its lines and coupons, one line per product. */
  lemma CartTotalsAgree(cfg: Config, s: State, es: seq<Event>, c: CartId)
    requires ShopOk(cfg, s) && c in Run(cfg, s, es).db.carts
    ensures var cart := Run(cfg, s, es).db.carts[c];
            && cart.total == SumItems(cart.items) && cart.discount == SumApplied(cart.applied)
            && cart.payable == (if cart.discount <= cart.total then cart.total - cart.discount else 0)
            && (forall i, j :: 0 <= i < j < |cart.items| ==> cart.items[i].product != cart.items[j].product)
  {
    RunKeeps(cfg, s, es);
    assert CartOk(cfg.policy, Run(cfg, s, es).db.carts[c], Run(cfg, s, es).db.coupons);
  }

  /**
   In every reachable state a coupon's counter is the number of carts that hold it, within the cap of
   its column or, without one, of its JSON constraint; and every cart respects the stacking policy.
   */
  lemma CouponsAreCounted(cfg: Config, s: State, es: seq<Event>, id: CouponId, c: CartId)
    requires ShopOk(cfg, s)
    ensures var db := Run(cfg, s, es).db;
            && (id in db.coupons ==>
                  && db.coupons[id].used == |Holders(db.carts, id)|
                  && (db.coupons[id].usageLimit.Some? ==> db.coupons[id].used <= db.coupons[id].usageLimit.value)
                  && WithinCap(db.coupons[id]))
            && (c in db.carts ==> Stacked(cfg.policy, db.carts[c].applied, db.coupons))
  {
    RunKeeps(cfg, s, es);
    var db := Run(cfg, s, es).db;
    assert UsesOk(LedgerOf(db));
    assert c in db.carts ==> CartOk(cfg.policy, db.carts[c], db.coupons);
  }
}
