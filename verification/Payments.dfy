/**
 Payment transitions: what a worker reads before it calls the gateway, and the guarded updates it
 commits after the answer.  Anything may have happened to the rows in between.
 */
module Payments {
  import opened Schema

  type Payments = map<PaymentId, Payment>

  type Orders = map<OrderId, Order>

  datatype Action = Authorizing | Capturing | Voiding | Refunding

  /** What a gateway does: approve with a reference, decline, or raise a timeout or an outage. */
  datatype Answer = Approved(reference: string) | Declined(code: string, message: string) | Unreachable

  datatype PaymentError =
    | PaymentNotFound
    | OrderMissing
    | WrongStatus(status: PaymentStatus)
    | UnsupportedGateway(slug: string)
    | GatewayDeclined(code: string, message: string)
    | GatewayUnreachable

  /** A gateway call that a worker has decided to make, with the order it found; Failing makes no call. */
  datatype Job = Acting(action: Action, payment: PaymentId, order: Option<OrderId>) | Failing(payment: PaymentId, slug: string)

  // -------------------------------------------------------- before the call

  /** The first order of a cart in the order of primary keys. */
  predicate IsFirst(orders: Orders, tenant: TenantId, cart: CartId, o: OrderId)
  {
    && o in orders && orders[o].tenant == tenant && orders[o].cart == cart
    && forall o' :: o' in orders && orders[o'].tenant == tenant && orders[o'].cart == cart ==> o <= o'
  }

  ghost function FirstOrder(orders: Orders, tenant: TenantId, cart: CartId): (r: Option<OrderId>)
    ensures r.Some? ==> IsFirst(orders, tenant, cart, r.value)
  {
    if exists o :: IsFirst(orders, tenant, cart, o) then
      var o :| IsFirst(orders, tenant, cart, o);
      Some(o)
    else None
  }

  lemma {:induction false} LeastOf(ids: set<OrderId>) returns (least: OrderId)
    requires ids != {}
    ensures least in ids && forall o :: o in ids ==> least <= o
    decreases |ids|
  {
    EmptyOrNot(ids);
    var one :| one in ids;
    var rest := ids - {one};
    assert forall o :: o in ids ==> o == one || o in rest;
    least := one;
    if rest != {} {
      var other := LeastOf(rest);
      if other < one {
        least := other;
      }
    }
  }

  /** There is a first order exactly if there is one at all. */
  lemma FirstOrderMeans(orders: Orders, tenant: TenantId, cart: CartId)
    ensures match FirstOrder(orders, tenant, cart)
            case None => forall o :: o in orders ==> !(orders[o].tenant == tenant && orders[o].cart == cart)
            case Some(first) =>
              && first in orders && orders[first].tenant == tenant && orders[first].cart == cart
              && forall o :: o in orders && orders[o].tenant == tenant && orders[o].cart == cart ==> first <= o
  {
    var ids := set o | o in orders && orders[o].tenant == tenant && orders[o].cart == cart;
    if ids != {} {
      var least := LeastOf(ids);
      assert least in orders;
      forall o | o in orders && orders[o].tenant == tenant && orders[o].cart == cart ensures least <= o {
        assert o in ids;
      }
      assert IsFirst(orders, tenant, cart, least);
    } else {
      forall o | o in orders ensures !(orders[o].tenant == tenant && orders[o].cart == cart) {
        assert o !in ids;
      }
    }
  }

  /** The statuses in which a repeated action is skipped, and those in which it may proceed. */
  predicate Skips(action: Action, status: PaymentStatus)
  {
    match action
    case Authorizing => !status.RequiresConfirmation?
    case Capturing => status.Captured? || status.Succeeded? || status.Refunded?
    case Voiding => status.Cancelled?
    case Refunding => status.Refunded?
  }

  predicate Admits(action: Action, status: PaymentStatus)
  {
    match action
    case Authorizing => status.RequiresConfirmation?
    case Capturing => status.Authorized?
    case Voiding => status.Authorized?
    case Refunding => status.Captured? || status.Succeeded?
  }

  datatype Begun = Skipped(payment: Payment) | Refused(error: PaymentError) | Calling(job: Job)

  /** What a worker decides from the rows it reads. */
  ghost function Begin(gateways: set<string>, payments: Payments, orders: Orders, action: Action, id: PaymentId): Begun
  {
    if id !in payments then Refused(PaymentNotFound)
    else
      var payment := payments[id];
      if Skips(action, payment.status) then Skipped(payment)
      else if !Admits(action, payment.status) then Refused(WrongStatus(payment.status))
      else if payment.provider !in gateways then Refused(UnsupportedGateway(payment.provider))
      else if action.Authorizing? then
        match FirstOrder(orders, payment.tenant, payment.cart)
        case None => Refused(OrderMissing)
        case Some(o) => Calling(Acting(action, id, Some(o)))
      else Calling(Acting(action, id, None))
  }

  // --------------------------------------------------------- after the call

  function Reason(code: string, message: string): string
  {
    Shortened(code + ": " + message)
  }

  function Shortened(s: string): string
  {
    if |s| <= 255 then s else s[..255]
  }

  /** The row the guarded UPDATE of the payment writes; the same row when the guard does not match. */
  function Settled(payment: Payment, action: Action, answer: Answer): Payment
  {
    if !Admits(action, payment.status) then payment
    else
      match (action, answer)
      case (Authorizing, Approved(reference)) => payment.(status := Authorized, authorizationId := reference)
      case (Authorizing, Declined(code, message)) => payment.(status := Failed, failureReason := Reason(code, message))
      case (Capturing, Approved(reference)) => payment.(status := Captured, captureId := reference)
      case (Capturing, Declined(code, message)) => payment.(status := Failed, failureReason := Reason(code, message))
      case (Voiding, Approved(_)) => payment.(status := Cancelled)
      case (Refunding, Approved(_)) => payment.(status := Refunded)
      case _ => payment
  }

  /** The order's own guarded UPDATE, in the same transaction but with its own guard. */
  function Flipped(order: Order, answer: Answer): Order
  {
    if !order.status.PendingPayment? then order
    else
      match answer
      case Approved(_) => order.(status := Paid, version := order.version + 1)
      case Declined(_, _) => order.(status := OrderFailed, version := order.version + 1)
      case Unreachable => order
  }

  /** The tasks' own guarded UPDATE for a provider that is not registered: the order is not touched. */
  function Unsupported(payment: Payment, slug: string): Payment
  {
    if payment.status.RequiresConfirmation? then payment.(status := Failed, failureReason := Shortened(Unregistered(slug)))
    else payment
  }

  function Unregistered(slug: string): string
  {
    if slug == "" then "payment gateway is not registered" else "payment gateway '" + slug + "' is not registered"
  }

  function PaymentsAfter(payments: Payments, job: Job, answer: Answer): Payments
  {
    if job.payment !in payments then payments
    else
      match job
      case Acting(action, id, _) => payments[id := Settled(payments[id], action, answer)]
      case Failing(id, slug) => payments[id := Unsupported(payments[id], slug)]
  }

  function OrdersAfter(orders: Orders, job: Job, answer: Answer): Orders
  {
    if job.Acting? && job.order.Some? && job.order.value in orders
    then orders[job.order.value := Flipped(orders[job.order.value], answer)]
    else orders
  }

  function Outcome(payments: Payments, job: Job, answer: Answer): Result<Payment, PaymentError>
    requires job.payment in payments
  {
    match answer
    case Approved(_) => Ok(payments[job.payment])
    case Declined(code, message) => Err(GatewayDeclined(code, message))
    case Unreachable => Err(GatewayUnreachable)
  }

  // ------------------------------------------- what an answer does to the rows

  /** The first 255 characters of a text. */
  ghost predicate CutAt255(text: string, cut: string)
  {
    cut <= text && if |text| <= 255 then cut == text else |cut| == 255
  }

  /** Nothing of a payment has changed but its status and, where one is named, the column that belongs to it. */
  ghost predicate OnlyStatus(p: Payment, p': Payment)
  {
    p' == p.(status := p'.status, authorizationId := p'.authorizationId, captureId := p'.captureId,
             failureReason := p'.failureReason)
  }

  /** Declined: the payment has failed, for the gateway's reason. */
  ghost predicate FailedFor(p: Payment, p': Payment, code: string, message: string)
  {
    && OnlyStatus(p, p') && p'.status == Failed && CutAt255(code + ": " + message, p'.failureReason)
    && p'.authorizationId == p.authorizationId && p'.captureId == p.captureId
  }

  /**
   What a gateway's answer makes of the payment a worker acts on, per action and with its guard: an approval
   moves it on with the reference in its own column, a refusal fails an authorisation or a capture and
   nothing else, and without an answer nothing happens.
   */
  ghost predicate FollowsAnswer(p: Payment, p': Payment, action: Action, answer: Answer)
  {
    match action
    case Authorizing =>
      if p.status != RequiresConfirmation || answer == Unreachable then p' == p
      else if answer.Declined? then FailedFor(p, p', answer.code, answer.message)
      else p'.status == Authorized && p'.authorizationId == answer.reference && OnlyStatus(p, p')
           && p'.captureId == p.captureId && p'.failureReason == p.failureReason
    case Capturing =>
      if p.status != Authorized || answer == Unreachable then p' == p
      else if answer.Declined? then FailedFor(p, p', answer.code, answer.message)
      else p'.status == Captured && p'.captureId == answer.reference && OnlyStatus(p, p')
           && p'.authorizationId == p.authorizationId && p'.failureReason == p.failureReason
    case Voiding =>
      if p.status != Authorized || !answer.Approved? then p' == p
      else p'.status == Cancelled && p' == p.(status := p'.status)
    case Refunding =>
      if !(p.status == Captured || p.status == Succeeded) || !answer.Approved? then p' == p
      else p'.status == Refunded && p' == p.(status := p'.status)
  }

  /** The order of an authorisation: paid under an approval, failed under a refusal, once. */
  ghost predicate OrderFollowsAnswer(order: Order, order': Order, answer: Answer)
  {
    if order.status != PendingPayment || answer == Unreachable then order' == order
    else
      && order'.status == (if answer.Approved? then Paid else OrderFailed)
      && order' == order.(status := order'.status, version := order.version + 1)
  }

  /** A settlement touches the payment of the job, and the order it found, and follows the answer in both. */
  lemma SettlementFollowsTheAnswer(payments: Payments, orders: Orders, job: Job, answer: Answer)
    ensures var payments', orders' := PaymentsAfter(payments, job, answer), OrdersAfter(orders, job, answer);
            && payments'.Keys == payments.Keys && orders'.Keys == orders.Keys
            && (forall p :: p in payments && p != job.payment ==> payments'[p] == payments[p])
            && (forall o :: o in orders && !(job.Acting? && job.order == Some(o)) ==> orders'[o] == orders[o])
            && (job.Acting? && job.payment in payments ==>
                  FollowsAnswer(payments[job.payment], payments'[job.payment], job.action, answer))
            && (job.Acting? && job.order.Some? && job.order.value in orders ==>
                  OrderFollowsAnswer(orders[job.order.value], orders'[job.order.value], answer))
            && (job.Failing? && job.payment in payments ==>
                  var p, p' := payments[job.payment], payments'[job.payment];
                  if p.status != RequiresConfirmation then p' == p
                  else
                    && p' == p.(status := Failed, failureReason := p'.failureReason)
                    && CutAt255(if job.slug == "" then "payment gateway is not registered"
                                else "payment gateway '" + job.slug + "' is not registered", p'.failureReason))
  {
    if job.payment in payments {
      SettledFollows(payments[job.payment], job, answer);
    }
  }

  lemma SettledFollows(payment: Payment, job: Job, answer: Answer)
    ensures job.Acting? ==> FollowsAnswer(payment, Settled(payment, job.action, answer), job.action, answer)
    ensures job.Failing? && payment.status == RequiresConfirmation ==>
              CutAt255(Unregistered(job.slug), Unsupported(payment, job.slug).failureReason)
  {
  }

  /** What the caller is told, and what a task makes of it: the row as committed, the refusal, or a call to be retried. */
  lemma CallersAreTold(payments: Payments, job: Job, answer: Answer)
    requires job.payment in payments
    ensures answer.Approved? ==>
              && Outcome(payments, job, answer) == Ok(payments[job.payment])
              && ReplyTo(Outcome(payments, job, answer)) == Ok(Done(payments[job.payment].status))
    ensures answer.Declined? ==>
              && Outcome(payments, job, answer) == Err(GatewayDeclined(answer.code, answer.message))
              && ReplyTo(Outcome(payments, job, answer)) == Ok(Done(Failed))
    ensures answer.Unreachable? ==>
              && Outcome(payments, job, answer) == Err(GatewayUnreachable)
              && ReplyTo(Outcome(payments, job, answer)) == Err(GatewayUnreachable)
  {
  }

  /** The statuses from which an action goes ahead, and those in which it is taken to have happened before. */
  ghost predicate MayGoAhead(action: Action, status: PaymentStatus)
  {
    match action
    case Authorizing => status == RequiresConfirmation
    case Capturing => status == Authorized
    case Voiding => status == Authorized
    case Refunding => status == Captured || status == Succeeded
  }

  ghost predicate HasHappened(action: Action, status: PaymentStatus)
  {
    match action
    case Authorizing => status != RequiresConfirmation
    case Capturing => status == Captured || status == Succeeded || status == Refunded
    case Voiding => status == Cancelled
    case Refunding => status == Refunded
  }

  /** What a worker decides before it calls the gateway, check after check, each with its error. */
  lemma DecisionsInOrder(gateways: set<string>, payments: Payments, orders: Orders, action: Action, id: PaymentId, first: OrderId)
    ensures var begun := Begin(gateways, payments, orders, action, id);
            if id !in payments then begun == Refused(PaymentNotFound)
            else
              var payment := payments[id];
              if HasHappened(action, payment.status) then begun == Skipped(payment)
              else if !MayGoAhead(action, payment.status) then begun == Refused(WrongStatus(payment.status))
              else if payment.provider !in gateways then begun == Refused(UnsupportedGateway(payment.provider))
              else if action != Authorizing then begun == Calling(Acting(action, id, None))
              else if forall o :: o in orders ==> !(orders[o].tenant == payment.tenant && orders[o].cart == payment.cart)
              then begun == Refused(OrderMissing)
              else
                first in orders && orders[first].tenant == payment.tenant && orders[first].cart == payment.cart
                && (forall o :: o in orders && orders[o].tenant == payment.tenant && orders[o].cart == payment.cart ==> first <= o)
                ==> begun == Calling(Acting(action, id, Some(first)))
  {
    if id in payments {
      FirstOrderMeans(orders, payments[id].tenant, payments[id].cart);
    }
  }

  // ------------------------------------------------------------- the service

  /** The two tables as other workers have left them by the time the gateway has answered. */
  datatype Books = Books(payments: Payments, orders: Orders)

  /** No row is ever deleted; anything else may have happened to it. */
  predicate RowsStay(payments: Payments, orders: Orders, meanwhile: Books)
  {
    payments.Keys <= meanwhile.payments.Keys && orders.Keys <= meanwhile.orders.Keys
  }

  class PaymentService {
    /** The slugs in the registry; nothing registers after start-up. */
    const gateways: set<string>

    constructor (gateways: set<string>)
      ensures this.gateways == gateways
    {
      this.gateways := gateways;
    }

    /** Decided on what was read first, committed on what the tables have become meanwhile. */
    ghost predicate Performed(payments: Payments, orders: Orders, payments': Payments, orders': Orders, action: Action,
                              id: PaymentId, meanwhile: Books, answer: Answer, r: Result<Payment, PaymentError>)
    {
      match Begin(gateways, payments, orders, action, id)
      case Skipped(payment) => payments' == payments && orders' == orders && r == Ok(payment)
      case Refused(e) => payments' == payments && orders' == orders && r == Err(e)
      case Calling(job) =>
        && payments' == PaymentsAfter(meanwhile.payments, job, answer)
        && orders' == OrdersAfter(meanwhile.orders, job, answer)
        && id in payments' && job.payment == id && r == Outcome(payments', job, answer)
    }

    method AuthorizePayment(d: Database, id: PaymentId, meanwhile: Books, answer: Answer) returns (r: Result<Payment, PaymentError>)
      requires RowsStay(d.payments, d.orders, meanwhile)
      modifies d`payments, d`orders
      ensures Performed(old(d.payments), old(d.orders), d.payments, d.orders, Authorizing, id, meanwhile, answer, r)
    {
      if id !in d.payments {
        return Err(PaymentNotFound);
      }
      var payment := d.payments[id];
      if payment.status != RequiresConfirmation {
        return Ok(payment);
      }
      if payment.provider !in gateways {
        return Err(UnsupportedGateway(payment.provider));
      }
      var order := FindOrder(d, payment.tenant, payment.cart);
      if order.None? {
        return Err(OrderMissing);
      }
      d.payments, d.orders := meanwhile.payments, meanwhile.orders;
      match answer {
        case Unreachable =>
          return Err(GatewayUnreachable);
        case Approved(reference) =>
          if d.payments[id].status == RequiresConfirmation {
            d.payments := d.payments[id := d.payments[id].(status := Authorized, authorizationId := reference)];
          }
          FlipOrder(d, order.value, Paid);
          r := Ok(d.payments[id]);
        case Declined(code, message) =>
          if d.payments[id].status == RequiresConfirmation {
            d.payments := d.payments[id := d.payments[id].(status := Failed, failureReason := Reason(code, message))];
          }
          FlipOrder(d, order.value, OrderFailed);
          r := Err(GatewayDeclined(code, message));
      }
    }

    /** UPDATE the order's status WHERE it still awaits payment. */
    method FlipOrder(d: Database, o: OrderId, status: OrderStatus)
      requires o in d.orders
      modifies d`orders
      ensures var order := old(d.orders[o]);
              d.orders == old(d.orders)[o := if order.status.PendingPayment?
                                             then order.(status := status, version := order.version + 1) else order]
    {
      var order := d.orders[o];
      if order.status == PendingPayment {
        d.orders := d.orders[o := order.(status := status, version := order.version + 1)];
      }
    }

    method FindOrder(d: Database, tenant: TenantId, cart: CartId) returns (r: Option<OrderId>)
      ensures r == FirstOrder(d.orders, tenant, cart)
      ensures match r
              case None => forall o :: o in d.orders ==> !(d.orders[o].tenant == tenant && d.orders[o].cart == cart)
              case Some(first) =>
                && first in d.orders && d.orders[first].tenant == tenant && d.orders[first].cart == cart
                && forall o :: o in d.orders && d.orders[o].tenant == tenant && d.orders[o].cart == cart ==> first <= o
    {
      FirstOrderMeans(d.orders, tenant, cart);
      if o :| o in d.orders && IsFirst(d.orders, tenant, cart, o) {
        r := Some(o);
      } else {
        r := None;
      }
    }

    method CapturePayment(d: Database, id: PaymentId, meanwhile: Books, answer: Answer) returns (r: Result<Payment, PaymentError>)
      requires RowsStay(d.payments, d.orders, meanwhile)
      modifies d`payments, d`orders
      ensures Performed(old(d.payments), old(d.orders), d.payments, d.orders, Capturing, id, meanwhile, answer, r)
    {
      if id !in d.payments {
        return Err(PaymentNotFound);
      }
      var payment := d.payments[id];
      if payment.status == Captured || payment.status == Succeeded || payment.status == Refunded {
        return Ok(payment);
      }
      if payment.status != Authorized {
        return Err(WrongStatus(payment.status));
      }
      if payment.provider !in gateways {
        return Err(UnsupportedGateway(payment.provider));
      }
      d.payments, d.orders := meanwhile.payments, meanwhile.orders;
      match answer {
        case Unreachable =>
          return Err(GatewayUnreachable);
        case Approved(reference) =>
          if d.payments[id].status == Authorized {
            d.payments := d.payments[id := d.payments[id].(status := Captured, captureId := reference)];
          }
          r := Ok(d.payments[id]);
        case Declined(code, message) =>
          if d.payments[id].status == Authorized {
            d.payments := d.payments[id := d.payments[id].(status := Failed, failureReason := Reason(code, message))];
          }
          r := Err(GatewayDeclined(code, message));
      }
    }

    method VoidPayment(d: Database, id: PaymentId, meanwhile: Books, answer: Answer) returns (r: Result<Payment, PaymentError>)
      requires RowsStay(d.payments, d.orders, meanwhile)
      modifies d`payments, d`orders
      ensures Performed(old(d.payments), old(d.orders), d.payments, d.orders, Voiding, id, meanwhile, answer, r)
    {
      if id !in d.payments {
        return Err(PaymentNotFound);
      }
      var payment := d.payments[id];
      if payment.status == Cancelled {
        return Ok(payment);
      }
      if payment.status != Authorized {
        return Err(WrongStatus(payment.status));
      }
      if payment.provider !in gateways {
        return Err(UnsupportedGateway(payment.provider));
      }
      d.payments, d.orders := meanwhile.payments, meanwhile.orders;
      match answer {
        case Unreachable =>
          return Err(GatewayUnreachable);
        case Declined(code, message) =>
          return Err(GatewayDeclined(code, message));
        case Approved(_) =>
          if d.payments[id].status == Authorized {
            d.payments := d.payments[id := d.payments[id].(status := Cancelled)];
          }
          r := Ok(d.payments[id]);
      }
    }

    method RefundPayment(d: Database, id: PaymentId, meanwhile: Books, answer: Answer) returns (r: Result<Payment, PaymentError>)
      requires RowsStay(d.payments, d.orders, meanwhile)
      modifies d`payments, d`orders
      ensures Performed(old(d.payments), old(d.orders), d.payments, d.orders, Refunding, id, meanwhile, answer, r)
    {
      if id !in d.payments {
        return Err(PaymentNotFound);
      }
      var payment := d.payments[id];
      if payment.status == Refunded {
        return Ok(payment);
      }
      if payment.status != Captured && payment.status != Succeeded {
        return Err(WrongStatus(payment.status));
      }
      if payment.provider !in gateways {
        return Err(UnsupportedGateway(payment.provider));
      }
      d.payments, d.orders := meanwhile.payments, meanwhile.orders;
      match answer {
        case Unreachable =>
          return Err(GatewayUnreachable);
        case Declined(code, message) =>
          return Err(GatewayDeclined(code, message));
        case Approved(_) =>
          if d.payments[id].status == Captured || d.payments[id].status == Succeeded {
            d.payments := d.payments[id := d.payments[id].(status := Refunded)];
          }
          r := Ok(d.payments[id]);
      }
    }
  }

  // --------------------------------------------------------------- the tasks

  datatype Reply = NotFound | NoPayment | Done(status: PaymentStatus)

  /** A payment of the order's cart, none of which was created later. */
  predicate IsNewest(payments: Payments, order: Order, p: PaymentId)
  {
    && p in payments && payments[p].tenant == order.tenant && payments[p].cart == order.cart
    && forall p' :: p' in payments && payments[p'].tenant == order.tenant && payments[p'].cart == order.cart ==>
         payments[p'].created <= payments[p].created
  }

  /** What a task makes of the service's result; an error is raised to the broker. */
  function ReplyTo(r: Result<Payment, PaymentError>): Result<Reply, PaymentError>
  {
    match r
    case Ok(payment) => Ok(Done(payment.status))
    case Err(GatewayDeclined(_, _)) => Ok(Done(Failed))
    case Err(e) => Err(e)
  }

  /** The tasks around the service: both end in the same transition of one payment. */
  class PaymentTasks {
    const service: PaymentService

    constructor (service: PaymentService)
      ensures this.service == service
    {
      this.service := service;
    }

    ghost predicate TaskDone(payments: Payments, orders: Orders, payments': Payments, orders': Orders,
                             id: PaymentId, meanwhile: Books, answer: Answer, r: Result<Reply, PaymentError>)
    {
      match Begin(service.gateways, payments, orders, Authorizing, id)
      case Skipped(payment) => payments' == payments && orders' == orders && r == Ok(Done(payment.status))
      case Refused(PaymentNotFound) => payments' == payments && orders' == orders && r == Ok(NotFound)
      case Refused(UnsupportedGateway(slug)) =>
        && payments' == PaymentsAfter(meanwhile.payments, Failing(id, slug), answer)
        && orders' == meanwhile.orders && r == Ok(Done(Failed))
      case Refused(e) => payments' == payments && orders' == orders && r == Err(e)
      case Calling(job) =>
        && payments' == PaymentsAfter(meanwhile.payments, job, answer)
        && orders' == OrdersAfter(meanwhile.orders, job, answer)
        && id in payments' && job.payment == id && r == ReplyTo(Outcome(payments', job, answer))
    }

    method AuthorizePayment(d: Database, id: PaymentId, meanwhile: Books, answer: Answer)
      returns (r: Result<Reply, PaymentError>)
      requires RowsStay(d.payments, d.orders, meanwhile)
      modifies d`payments, d`orders
      ensures TaskDone(old(d.payments), old(d.orders), d.payments, d.orders, id, meanwhile, answer, r)
    {
      if id !in d.payments {
        return Ok(NotFound);
      }
      if d.payments[id].status != RequiresConfirmation {
        return Ok(Done(d.payments[id].status));
      }
      r := Delegate(d, id, meanwhile, answer);
    }

    /** The payment of the order's cart that was created last. */
    method ProcessPayment(d: Database, o: OrderId, meanwhile: Books, answer: Answer) returns (r: Result<Reply, PaymentError>)
      requires RowsStay(d.payments, d.orders, meanwhile)
      modifies d`payments, d`orders
      ensures o !in old(d.orders) ==> d.payments == old(d.payments) && d.orders == old(d.orders) && r == Ok(NotFound)
      ensures o in old(d.orders) && (forall p :: !IsNewest(old(d.payments), old(d.orders[o]), p)) ==>
                d.payments == old(d.payments) && d.orders == old(d.orders) && r == Ok(NoPayment)
      ensures o in old(d.orders) && (exists p :: IsNewest(old(d.payments), old(d.orders[o]), p)) ==>
                exists p :: IsNewest(old(d.payments), old(d.orders[o]), p)
                            && TaskDone(old(d.payments), old(d.orders), d.payments, d.orders, p, meanwhile, answer, r)
    {
      if o !in d.orders {
        return Ok(NotFound);
      }
      ghost var payments, orders, order := d.payments, d.orders, d.orders[o];
      if id :| id in d.payments && IsNewest(d.payments, d.orders[o], id) {
        if d.payments[id].status != RequiresConfirmation {
          r := Ok(Done(d.payments[id].status));
        } else {
          r := Delegate(d, id, meanwhile, answer);
        }
        assert IsNewest(payments, order, id) && TaskDone(payments, orders, d.payments, d.orders, id, meanwhile, answer, r);
      } else {
        r := Ok(NoPayment);
      }
    }

    method Delegate(d: Database, id: PaymentId, meanwhile: Books, answer: Answer) returns (r: Result<Reply, PaymentError>)
      requires id in d.payments && d.payments[id].status == RequiresConfirmation
      requires RowsStay(d.payments, d.orders, meanwhile)
      modifies d`payments, d`orders
      ensures TaskDone(old(d.payments), old(d.orders), d.payments, d.orders, id, meanwhile, answer, r)
    {
      var result := service.AuthorizePayment(d, id, meanwhile, answer);
      match result {
        case Ok(payment) =>
          r := Ok(Done(payment.status));
        case Err(GatewayDeclined(_, _)) =>
          r := Ok(Done(Failed));
        case Err(UnsupportedGateway(slug)) =>
          d.payments, d.orders := meanwhile.payments, meanwhile.orders;
          if d.payments[id].status == RequiresConfirmation {
            d.payments := d.payments[id := d.payments[id].(status := Failed, failureReason := Shortened(Unregistered(slug)))];
          }
          r := Ok(Done(Failed));
        case Err(e) =>
          r := Err(e);
      }
    }
  }

  lemma {:induction false} LatestOf(payments: Payments, ids: set<PaymentId>) returns (latest: PaymentId)
    requires ids != {} && ids <= payments.Keys
    ensures latest in ids && forall p :: p in ids ==> payments[p].created <= payments[latest].created
    decreases |ids|
  {
    EmptyOrNot(ids);
    var one :| one in ids;
    var rest := ids - {one};
    assert forall p :: p in ids ==> p == one || p in rest;
    latest := one;
    if rest != {} {
      var other := LatestOf(payments, rest);
      if payments[other].created > payments[one].created {
        latest := other;
      }
    }
  }

  /** A cart with payments has a newest one; it is of that cart, and none of that cart was created after it. */
  lemma NewestMeans(payments: Payments, order: Order, p: PaymentId)
    ensures (forall x :: !IsNewest(payments, order, x))
            <==> forall x :: x in payments ==> !(payments[x].tenant == order.tenant && payments[x].cart == order.cart)
    ensures IsNewest(payments, order, p) ==>
              && p in payments && payments[p].tenant == order.tenant && payments[p].cart == order.cart
              && forall x :: x in payments && payments[x].tenant == order.tenant && payments[x].cart == order.cart ==>
                   payments[x].created <= payments[p].created
  {
    var ids := set x | x in payments && payments[x].tenant == order.tenant && payments[x].cart == order.cart;
    if ids != {} {
      var latest := LatestOf(payments, ids);
      assert IsNewest(payments, order, latest);
      assert latest in payments;
    } else {
      forall x | x in payments ensures !(payments[x].tenant == order.tenant && payments[x].cart == order.cart) {
        assert x !in ids;
      }
    }
  }

  /** Only one payment of a cart can be the newest where creation times differ, and the only one is. */
  lemma OnePaymentIsNewest(payments: Payments, order: Order, p: PaymentId)
    requires p in payments && payments[p].tenant == order.tenant && payments[p].cart == order.cart
    requires forall p' :: p' in payments && payments[p'].cart == order.cart ==> p' == p
    ensures forall p' :: IsNewest(payments, order, p') <==> p' == p
  {
  }
}
