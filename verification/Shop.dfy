/**
 The whole shop: transactions of customers interleaved with any number of payment and invoice workers,
 which act on what they read earlier, may be started twice for the same work, and may die at any step.

 Checkouts and edits take effect at one instant, which modules ProtocolLaws and Composition show is no restriction.
 */
module Shop {
  import opened Schema
  import opened CouponRules
  import opened CouponLaws
  import opened Idempotency
  import opened Checkout
  import opened Sales
  import P = Payments
  import I = Invoices

  type Worker = int

  /** Where an invoice worker is: before its transaction, before rendering, before writing the url. */
  datatype Draft = Creating(order: OrderId, read: Order) | Rendering(order: OrderId) | Writing(order: OrderId, url: string)

  /** Workers that have begun and have not committed, with all that they remember. */
  datatype State = State(db: Db, jobs: map<Worker, P.Job>, drafts: map<Worker, Draft>)

  datatype Event =
    | Change(edit: Edit)
    | Place(attempt: Attempt, id: OrderId)
    | ReadPayment(w: Worker, action: P.Action, payment: PaymentId)
    /** The gateway has answered: the worker commits its guarded updates. */
    | Settle(w: Worker, answer: P.Answer)
    | ReadInvoice(w: Worker, order: OrderId)
    | CreateRow(w: Worker)
    | Render(w: Worker, url: Option<string>)
    | WriteUrl(w: Worker)
    | Kill(w: Worker)

  /** An authorisation with an unregistered provider is caught by the Celery task, which then fails the payment. */
  ghost function JobFor(cfg: Config, db: Db, action: P.Action, id: PaymentId): Option<P.Job>
  {
    match P.Begin(cfg.gateways, db.payments, db.orders, action, id)
    case Calling(job) => Some(job)
    case Refused(UnsupportedGateway(slug)) => if action.Authorizing? then Some(P.Failing(id, slug)) else None
    case _ => None
  }

  function SettledDb(db: Db, job: P.Job, answer: P.Answer): Db
  {
    db.(payments := P.PaymentsAfter(db.payments, job, answer), orders := P.OrdersAfter(db.orders, job, answer))
  }

  function RowDb(db: Db, o: OrderId, read: Order): Db
  {
    db.(invoices := I.RowsAfter(db.invoices, db.sequences, o, read),
        sequences := I.SequencesAfter(db.invoices, db.sequences, o, read))
  }

  /** After the transaction of an invoice worker: done if another one has finished the PDF, or if it may not insert. */
  function AfterRow(s: State, w: Worker, db: Db, o: OrderId): State
  {
    if o in db.invoices && db.invoices[o].pdfUrl == "" then s.(db := db, drafts := s.drafts[w := Rendering(o)])
    else s.(db := db, drafts := s.drafts - {w})
  }

  function DraftFor(db: Db, o: OrderId): Option<Draft>
  {
    match I.Begin(db.orders, db.invoices, o)
    case NeedsRow(order) => Some(Creating(o, order))
    case NeedsPdf => Some(Rendering(o))
    case _ => None
  }

  /** The renderer returned a url, or raised an error that ends the task. */
  function Rendered(drafts: map<Worker, Draft>, w: Worker, url: Option<string>): map<Worker, Draft>
    requires w in drafts
  {
    if url.None? || url.value == "" then drafts - {w} else drafts[w := Writing(drafts[w].order, url.value)]
  }

  ghost function Step(cfg: Config, s: State, e: Event): State
  {
    match e
    case Change(edit) => s.(db := AfterEdit(cfg, s.db, edit))
    case Place(a, id) =>
      if id in s.db.orders || id in s.db.payments then s else s.(db := AfterCheckout(cfg, s.db, a, id))
    case ReadPayment(w, action, id) =>
      var job := JobFor(cfg, s.db, action, id);
      if job.Some? then s.(jobs := s.jobs[w := job.value]) else s
    case Settle(w, answer) =>
      if w !in s.jobs then s else s.(db := SettledDb(s.db, s.jobs[w], answer), jobs := s.jobs - {w})
    case ReadInvoice(w, o) =>
      var draft := DraftFor(s.db, o);
      if draft.Some? then s.(drafts := s.drafts[w := draft.value]) else s
    case CreateRow(w) =>
      if w !in s.drafts || !s.drafts[w].Creating? then s
      else AfterRow(s, w, RowDb(s.db, s.drafts[w].order, s.drafts[w].read), s.drafts[w].order)
    case Render(w, url) =>
      if w !in s.drafts || !s.drafts[w].Rendering? then s else s.(drafts := Rendered(s.drafts, w, url))
    case WriteUrl(w) =>
      if w !in s.drafts || !s.drafts[w].Writing? then s
      else
        var draft := s.drafts[w];
        s.(db := s.db.(invoices := I.UrlWritten(s.db.invoices, draft.order, draft.url)), drafts := s.drafts - {w})
    case Kill(w) => s.(jobs := s.jobs - {w}, drafts := s.drafts - {w})
  }

  ghost function Run(cfg: Config, s: State, es: seq<Event>): State
  {
    if es == [] then s else Step(cfg, Run(cfg, s, es[..|es| - 1]), es[|es| - 1])
  }

  // ------------------------------------------------------------- invariant

  /** What an order and the payment of its cart may say at the same time. */
  ghost predicate Pair(gateways: set<string>, order: Order, payment: Payment)
  {
    && (payment.status.RequiresConfirmation? ==> order.status.PendingPayment?)
    && (order.status.PendingPayment? ==>
          payment.status.RequiresConfirmation? || (payment.status.Failed? && payment.provider !in gateways))
    && (payment.status.Failed? && payment.provider !in gateways ==> order.status.PendingPayment?)
  }

  ghost predicate Coupled(gateways: set<string>, db: Db)
  {
    forall o, p :: o in db.orders && p in db.payments && db.orders[o].cart == db.payments[p].cart ==>
      Pair(gateways, db.orders[o], db.payments[p])
  }

  /** An invoice is that of a paid order, with its amounts. */
  ghost predicate Invoiced(db: Db, o: OrderId)
    requires o in db.invoices
  {
    && o in db.orders && db.orders[o].status.Paid?
    && db.invoices[o].tenant == db.orders[o].tenant
    && db.invoices[o].total == db.orders[o].total
  }

  ghost predicate InvoicesOk(db: Db)
  {
    I.GapFree(db.invoices, db.sequences) && forall o :: o in db.invoices ==> Invoiced(db, o)
  }

  /** What a payment worker remembers is still true, though the statuses may have moved on. */
  ghost predicate JobOk(gateways: set<string>, db: Db, job: P.Job)
  {
    && job.payment in db.payments
    && match job
       case Acting(action, id, order) =>
         && db.payments[id].provider in gateways
         && (action.Authorizing? <==> order.Some?)
         && (order.Some? ==> order.value in db.orders && db.orders[order.value].cart == db.payments[id].cart)
       case Failing(id, slug) => db.payments[id].provider == slug && slug !in gateways
  }

  ghost predicate DraftOk(db: Db, draft: Draft)
  {
    match draft
    case Creating(o, order) => o in db.orders && db.orders[o] == order && order.status.Paid?
    case Rendering(o) => o in db.invoices
    case Writing(o, url) => o in db.invoices && url != ""
  }

  ghost predicate MemoriesOk(gateways: set<string>, s: State)
  {
    && (forall w :: w in s.jobs ==> JobOk(gateways, s.db, s.jobs[w]))
    && (forall w :: w in s.drafts ==> DraftOk(s.db, s.drafts[w]))
  }

  ghost predicate ShopOk(cfg: Config, s: State)
  {
    && StoreOk(cfg, s.db)
    && Coupled(cfg.gateways, s.db)
    && InvoicesOk(s.db)
    && MemoriesOk(cfg.gateways, s)
  }

  // ------------------------------------------------- how rows may change

  /** An order leaves PendingPayment once; nothing else of it ever changes. */
  ghost predicate OrderStep(order: Order, order': Order)
  {
    || order' == order
    || (order.status.PendingPayment? && (order'.status.Paid? || order'.status.OrderFailed?)
        && order' == order.(status := order'.status, version := order.version + 1))
  }

  /** The edges of the payment state machine. */
  predicate Edge(from: PaymentStatus, to: PaymentStatus)
  {
    match from
    case RequiresConfirmation => to.Authorized? || to.Failed?
    case Authorized => to.Captured? || to.Failed? || to.Cancelled?
    case Captured => to.Refunded?
    case Succeeded => to.Refunded?
    case _ => false
  }

  /** A payment moves along an edge; each target writes its own column and no other. */
  ghost predicate PaymentStep(p: Payment, p': Payment)
  {
    || p' == p
    || (Edge(p.status, p'.status)
        && p' == p.(status := p'.status,
                    authorizationId := if p'.status.Authorized? then p'.authorizationId else p.authorizationId,
                    captureId := if p'.status.Captured? then p'.captureId else p.captureId,
                    failureReason := if p'.status.Failed? then p'.failureReason else p.failureReason))
  }

  /** An invoice gets its url once; nothing else of it ever changes. */
  ghost predicate InvoiceStep(i: Invoice, i': Invoice)
  {
    i' == i || (i.pdfUrl == "" && i'.pdfUrl != "" && i' == i.(pdfUrl := i'.pdfUrl))
  }

  ghost predicate OrdersStep(orders: map<OrderId, Order>, orders': map<OrderId, Order>)
  {
    forall o :: o in orders ==> o in orders' && OrderStep(orders[o], orders'[o])
  }

  ghost predicate PaymentsStep(payments: map<PaymentId, Payment>, payments': map<PaymentId, Payment>)
  {
    forall p :: p in payments ==> p in payments' && PaymentStep(payments[p], payments'[p])
  }

  ghost predicate InvoicesStep(invoices: map<OrderId, Invoice>, invoices': map<OrderId, Invoice>)
  {
    forall o :: o in invoices ==> o in invoices' && InvoiceStep(invoices[o], invoices'[o])
  }

  /** An order becomes paid in the step in which its payment becomes authorised, and the other way round. */
  ghost predicate Together(db: Db, db': Db)
  {
    forall o, p :: o in db.orders && o in db'.orders && p in db.payments && p in db'.payments
                   && db.orders[o].cart == db.payments[p].cart ==>
      ((!db.orders[o].status.Paid? && db'.orders[o].status.Paid?)
       <==> (!db.payments[p].status.Authorized? && db'.payments[p].status.Authorized?))
  }

  ghost predicate Moves(db: Db, db': Db)
  {
    && OrdersStep(db.orders, db'.orders)
    && PaymentsStep(db.payments, db'.payments)
    && InvoicesStep(db.invoices, db'.invoices)
    && Together(db, db')
  }
}
