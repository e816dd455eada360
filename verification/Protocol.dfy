/**
 Any number of checkouts and coupon applications, each taking its steps one at a time, interleaved with
 edits of carts, payment and invoice workers, crashes, database aborts and arbitrary losses in Redis.

 A process named p draws the identifier p for its order and payment and the token p for its lock.
 Uncommitted rows are private to their transaction until it commits; a row that a transaction has locked
 or written stays closed to other writers until that transaction ends.
 */
module Protocol {
  import opened Schema
  import opened CartRules
  import opened CouponRules
  import opened CouponLaws
  import opened Idempotency
  import opened Checkout
  import opened Sales
  import CouponRace
  import Payments
  import Shop

  type Process = int

  type Outcome = Result<CheckoutResult, CheckoutError>

  datatype Phase =
    | Arrived
    /** The durable record was read and decides nothing. */
    | NoRecord
    /** The sentinel was read and is absent. */
    | NoSentinel
    | Marked
    | Locked
    /** In the transaction: the cart row is locked; `cart` is what was read. */
    | CartHeld(cart: Cart)
    /** Coupons are locked and revalidated; `pending` are the product rows written for the first `n` items. */
    | Taking(cart: Cart, pending: Products, n: nat)
    /** The guarded UPDATE of the cart matched its row. */
    | CartMarked(cart: Cart, pending: Products)
    /** The idempotency record is inserted. */
    | KeyHeld(cart: Cart, pending: Products)
    /** The transaction is over; the Redis lock is still to be released. */
    | Ended(outcome: Outcome)
    /** The sentinel is still to be cleared. */
    | Unlocked(outcome: Outcome)
    | Returned(outcome: Outcome)
    | Dead

  datatype Proc = Proc(attempt: Attempt, phase: Phase)

  /** A call that applies a coupon. */
  type Caller = int

  /** A transaction in the order in which it took effect, with what it returned. */
  datatype Txn =
    | Editing(edit: Edit)
    | CheckingOut(id: OrderId, attempt: Attempt, outcome: Outcome)
    | Applying(w: Caller, request: CouponRace.Request, refusal: Option<ApplyError>)
    | Working(event: Shop.Event)

  datatype State = State(
    db: Db,
    /** What payment and invoice workers remember. */
    jobs: map<Shop.Worker, Payments.Job>,
    drafts: map<Shop.Worker, Shop.Draft>,
    sentinels: set<(TenantId, Key)>,
    locks: map<(TenantId, CartId), Process>,
    procs: map<Process, Proc>,
    appliers: map<Caller, CouponRace.Applier>,
    log: seq<Txn>)

  datatype Event =
    | Start(p: Process, attempt: Attempt)
    | ReadRecord(p: Process)
    | ReadSentinel(p: Process)
    | Mark(p: Process)
    | TakeLock(p: Process)
    | LockCart(p: Process)
    | Validate(p: Process)
    | Take(p: Process)
    | MarkCart(p: Process)
    | InsertRecord(p: Process)
    | Commit(p: Process)
    | Abort(p: Process)
    | Release(p: Process)
    | Clear(p: Process)
    | Crash(p: Process)
    /** The Redis command due fails; a SET may have been applied all the same. */
    | RedisFails(p: Process, applied: bool)
    | LoseSentinel(tenant: TenantId, key: Key)
    | LoseLock(tenant: TenantId, cart: CartId)
    /** An edit at one instant; applications of coupons take steps of their own. */
    | EditCart(edit: Edit)
    | StartApply(w: Caller, request: CouponRace.Request)
    | CouponStep(w: Caller, statement: CouponRace.Statement)
    /** A step of a payment or invoice worker. */
    | Work(event: Shop.Event)

  /** A step of a checkout. */
  predicate OfProcess(e: Event)
  {
    && !e.Start? && !e.LoseSentinel? && !e.LoseLock? && !e.EditCart?
    && !e.StartApply? && !e.CouponStep? && !e.Work?
  }

  // ------------------------------------------------------------- row locks

  predicate InTransaction(phase: Phase)
  {
    phase.CartHeld? || HasRows(phase)
  }

  /** Past validation: holds the cart, its coupons and the products written so far. */
  predicate HasRows(phase: Phase)
  {
    phase.Taking? || phase.CartMarked? || phase.KeyHeld?
  }

  predicate HoldsCart(proc: Proc, c: CartId)
  {
    InTransaction(proc.phase) && proc.attempt.cart == c
  }

  predicate HoldsCoupon(proc: Proc, k: CouponId)
  {
    HasRows(proc.phase) && Has(proc.phase.cart.applied, k)
  }

  predicate HoldsProduct(proc: Proc, x: ProductId)
  {
    HasRows(proc.phase) && x in proc.phase.pending
  }

  predicate HoldsKey(proc: Proc, tenant: TenantId, key: Key)
  {
    proc.phase.KeyHeld? && proc.attempt.tenant == tenant && proc.attempt.key == key
  }

  predicate CartFree(s: State, p: Process, c: CartId)
  {
    && (forall q :: q in s.procs && q != p ==> !HoldsCart(s.procs[q], c))
    && (forall w :: w in s.appliers ==> !CouponRace.HoldsCartRow(s.appliers[w], c))
  }

  predicate CouponsFree(s: State, p: Process, applied: seq<Application>)
  {
    && (forall q, i :: q in s.procs && q != p && 0 <= i < |applied| ==> !HoldsCoupon(s.procs[q], applied[i].coupon))
    && (forall w, i :: w in s.appliers && 0 <= i < |applied| ==>
          !CouponRace.HoldsCouponRow(s.appliers[w], applied[i].coupon))
  }

  predicate ProductFree(s: State, p: Process, x: ProductId)
  {
    forall q :: q in s.procs && q != p ==> !HoldsProduct(s.procs[q], x)
  }

  predicate KeyFree(s: State, p: Process, tenant: TenantId, key: Key)
  {
    forall q :: q in s.procs && q != p ==> !HoldsKey(s.procs[q], tenant, key)
  }

  /** No row is held by both a checkout and an application. */
  ghost predicate Unshared(proc: Proc, ap: CouponRace.Applier)
  {
    && (forall c :: !(HoldsCart(proc, c) && CouponRace.HoldsCartRow(ap, c)))
    && (forall k :: !(HoldsCoupon(proc, k) && CouponRace.HoldsCouponRow(ap, k)))
  }

  /** No row is held by two applications. */
  ghost predicate Disjoint(ap: CouponRace.Applier, ap': CouponRace.Applier)
  {
    && (forall c :: !(CouponRace.HoldsCartRow(ap, c) && CouponRace.HoldsCartRow(ap', c)))
    && (forall k :: !(CouponRace.HoldsCouponRow(ap, k) && CouponRace.HoldsCouponRow(ap', k)))
  }

  /** The rows that an application would hold are held by nobody else. */
  ghost predicate Granted(s: State, w: Caller, ap: CouponRace.Applier)
  {
    && (forall q :: q in s.procs ==> Unshared(s.procs[q], ap))
    && (forall v :: v in s.appliers && v != w ==> Disjoint(s.appliers[v], ap))
  }

  /** An edit waits while it would write a row that a checkout or an application holds. */
  ghost predicate EditFree(s: State, l': Ledger)
  {
    && (forall q, c :: q in s.procs && HoldsCart(s.procs[q], c) && c in s.db.carts ==>
          c in l'.carts && l'.carts[c] == s.db.carts[c])
    && (forall q, k :: q in s.procs && HoldsCoupon(s.procs[q], k) && k in s.db.coupons ==>
          k in l'.coupons && l'.coupons[k] == s.db.coupons[k])
    && (forall w, c :: w in s.appliers && CouponRace.HoldsCartRow(s.appliers[w], c) && c in s.db.carts ==>
          c in l'.carts && l'.carts[c] == s.db.carts[c])
    && (forall w, k :: w in s.appliers && CouponRace.HoldsCouponRow(s.appliers[w], k) && k in s.db.coupons ==>
          k in l'.coupons && l'.coupons[k] == s.db.coupons[k])
  }

  // ------------------------------------------------------------------ steps

  function To(s: State, p: Process, phase: Phase): State
    requires p in s.procs
  {
    s.(procs := s.procs[p := s.procs[p].(phase := phase)])
  }

  /** The transaction raised an error: it took effect, as a refusal, at this instant. */
  function Refuse(s: State, p: Process, e: CheckoutError): State
    requires p in s.procs
  {
    To(s, p, Ended(Err(e))).(log := s.log + [CheckingOut(p, s.procs[p].attempt, Err(e))])
  }

  predicate At(s: State, p: Process, phase: Phase)
  {
    p in s.procs && s.procs[p].phase == phase
  }

  function StepLockCart(s: State, p: Process): State
    requires p in s.procs && s.procs[p].phase.Locked?
  {
    var a := s.procs[p].attempt;
    if !CartFree(s, p, a.cart) then s
    else if !Owned(s.db.carts, a.tenant, a.cart) then Refuse(s, p, CartNotFound)
    else if s.db.carts[a.cart].status != Active then Refuse(s, p, CartAlreadyCheckedOut)
    else To(s, p, CartHeld(s.db.carts[a.cart]))
  }

  function StepValidate(cfg: Config, s: State, p: Process): State
    requires p in s.procs && s.procs[p].phase.CartHeld?
  {
    var a, cart := s.procs[p].attempt, s.procs[p].phase.cart;
    if !CouponsFree(s, p, cart.applied) then s
    else
      match Refusal(s.db, a)
      case Some(e) => Refuse(s, p, e)
      case None =>
        match Revalidated(cfg.rules, s.db.coupons, cart, a.now, a.country)
        case Err(e) => Refuse(s, p, CouponsRejected(e))
        case Ok(cart') => To(s, p, Taking(cart', map[], 0))
  }

  function StepTake(s: State, p: Process): State
    requires p in s.procs && s.procs[p].phase.Taking?
  {
    var a, cart, pending, n := s.procs[p].attempt, s.procs[p].phase.cart, s.procs[p].phase.pending, s.procs[p].phase.n;
    if n >= |cart.items| || !ProductFree(s, p, cart.items[n].product) then s
    else
      var visible, item := s.db.products + pending, cart.items[n];
      if InStock(visible, a.tenant, item)
      then To(s, p, Taking(cart, pending[item.product := Decremented(visible, item)[item.product]], n + 1))
      else Refuse(s, p, ProductOutOfStock(item.product))
  }

  /** The guard sees the newest version of the row: the transaction's own, one above the committed one. */
  function StepMarkCart(s: State, p: Process): State
    requires p in s.procs && s.procs[p].phase.Taking?
  {
    var a, cart, pending, n := s.procs[p].attempt, s.procs[p].phase.cart, s.procs[p].phase.pending, s.procs[p].phase.n;
    if n < |cart.items| then s
    else if a.cart in s.db.carts && s.db.carts[a.cart].version + 1 == cart.version && s.db.carts[a.cart].status == Active
    then To(s, p, CartMarked(cart, pending))
    else Refuse(s, p, CartStaleVersion)
  }

  function StepInsertRecord(s: State, p: Process): State
    requires p in s.procs && s.procs[p].phase.CartMarked?
  {
    var a, cart, pending := s.procs[p].attempt, s.procs[p].phase.cart, s.procs[p].phase.pending;
    if !KeyFree(s, p, a.tenant, a.key) then s
    else if (a.tenant, a.key) in s.db.records then Refuse(s, p, DuplicateRecord)
    else To(s, p, KeyHeld(cart, pending))
  }

  function StepCommit(s: State, p: Process): State
    requires p in s.procs && s.procs[p].phase.KeyHeld?
  {
    var a, cart, pending := s.procs[p].attempt, s.procs[p].phase.cart, s.procs[p].phase.pending;
    if a.paymentMethod !in s.db.methods then s
    else
      var outcome := Ok(ResultFor(p, OrderOf(a, cart)));
      To(s, p, Ended(outcome)).(
        db := Written(s.db, a, p, cart, s.db.methods[a.paymentMethod].gateway, s.db.products + pending),
        log := s.log + [CheckingOut(p, a, outcome)])
  }

  /** Failing to set a key is raised; failing to delete one is only logged. */
  function StepRedisFails(s: State, p: Process, applied: bool): State
    requires p in s.procs
  {
    var sentinel, lock := (s.procs[p].attempt.tenant, s.procs[p].attempt.key), (s.procs[p].attempt.tenant, s.procs[p].attempt.cart);
    match s.procs[p].phase
    case NoRecord => To(s, p, Returned(Err(RedisUnavailable)))
    case NoSentinel =>
      To(s, p, Returned(Err(RedisUnavailable))).(sentinels := if applied then s.sentinels + {sentinel} else s.sentinels)
    case Marked =>
      To(s, p, Unlocked(Err(RedisUnavailable))).(
        locks := if applied && lock !in s.locks then s.locks[lock := p] else s.locks)
    case Ended(outcome) => To(s, p, Unlocked(outcome))
    case Unlocked(outcome) => To(s, p, Returned(outcome))
    case _ => s
  }

  /** One step of a process; nothing happens when it is not enabled. */
  function ProcessStep(cfg: Config, s: State, e: Event): State
    requires OfProcess(e)
  {
    if e.p !in s.procs then s
    else
      var p := e.p;
      var a, phase := s.procs[p].attempt, s.procs[p].phase;
      match e
      case ReadRecord(_) =>
        if !phase.Arrived? then s
        else
          var decided := RecordDecides(s.db.records, a.tenant, a.key, a.hash);
          To(s, p, if decided.Some? then Returned(DecidedResult(decided.value)) else NoRecord)
      case ReadSentinel(_) =>
        if !phase.NoRecord? then s
        else To(s, p, if (a.tenant, a.key) in s.sentinels then Returned(Err(IdempotencyInProgress)) else NoSentinel)
      case Mark(_) =>
        if !phase.NoSentinel? then s
        else if (a.tenant, a.key) in s.sentinels then To(s, p, Returned(Err(IdempotencyInProgress)))
        else To(s, p, Marked).(sentinels := s.sentinels + {(a.tenant, a.key)})
      case TakeLock(_) =>
        if !phase.Marked? then s
        else if (a.tenant, a.cart) in s.locks then To(s, p, Unlocked(Err(LockNotAcquired)))
        else To(s, p, Locked).(locks := s.locks[(a.tenant, a.cart) := p])
      case LockCart(_) => if phase.Locked? then StepLockCart(s, p) else s
      case Validate(_) => if phase.CartHeld? then StepValidate(cfg, s, p) else s
      case Take(_) => if phase.Taking? then StepTake(s, p) else s
      case MarkCart(_) => if phase.Taking? then StepMarkCart(s, p) else s
      case InsertRecord(_) => if phase.CartMarked? then StepInsertRecord(s, p) else s
      case Commit(_) => if phase.KeyHeld? then StepCommit(s, p) else s
      case Abort(_) => if InTransaction(phase) then To(s, p, Ended(Err(DatabaseAborted))) else s
      case Release(_) =>
        if !phase.Ended? then s
        else
          var lock := (a.tenant, a.cart);
          To(s, p, Unlocked(phase.outcome)).(
            locks := if lock in s.locks && s.locks[lock] == p then s.locks - {lock} else s.locks)
      case Clear(_) =>
        if !phase.Unlocked? then s
        else To(s, p, Returned(phase.outcome)).(sentinels := s.sentinels - {(a.tenant, a.key)})
      case Crash(_) => if phase.Returned? then s else To(s, p, Dead)
      case RedisFails(_, applied) => StepRedisFails(s, p, applied)
  }

  ghost function StepEdit(cfg: Config, s: State, e: Edit): State
  {
    if e.ApplyCoupon? || !EditFree(s, Edited(cfg, s.db.codes, LedgerOf(s.db), e)) then s
    else s.(db := AfterEdit(cfg, s.db, e), log := s.log + [Editing(e)])
  }

  function ToStage(s: State, w: Caller, stage: CouponRace.Stage): State
    requires w in s.appliers
  {
    s.(appliers := s.appliers[w := s.appliers[w].(stage := stage)])
  }

  /** The next statement of an application; it waits for the rows it would lock. */
  ghost function StepApply(cfg: Config, s: State, w: Caller, statement: CouponRace.Statement): State
    requires w in s.appliers
  {
    var ap := s.appliers[w];
    match CouponRace.Next(cfg.rules, cfg.policy, s.db.codes, LedgerOf(s.db), ap, statement)
    case Stay => s
    case Go(stage) => if Granted(s, w, ap.(stage := stage)) then ToStage(s, w, stage) else s
    case Refuse(e) =>
      ToStage(s, w, CouponRace.Done(Some(e))).(log := s.log + [Applying(w, ap.request, Some(e))])
    case CommitTo(l') =>
      ToStage(s, w, CouponRace.Done(None)).(
        db := s.db.(carts := l'.carts, coupons := l'.coupons), log := s.log + [Applying(w, ap.request, None)])
  }

  /** The database and the memories of workers, as the shop of one-instant transactions sees them. */
  function ShopOf(s: State): Shop.State
  {
    Shop.State(s.db, s.jobs, s.drafts)
  }

  ghost function StepWork(cfg: Config, s: State, e: Shop.Event): State
  {
    if e.Change? || e.Place? then s
    else
      var shop := Shop.Step(cfg, ShopOf(s), e);
      s.(db := shop.db, jobs := shop.jobs, drafts := shop.drafts, log := s.log + [Working(e)])
  }

  ghost function Step(cfg: Config, s: State, e: Event): State
  {
    match e
    case Start(p, a) =>
      if p in s.procs || p in s.db.orders || p in s.db.payments then s
      else s.(procs := s.procs[p := Proc(a, Arrived)])
    case LoseSentinel(t, k) => s.(sentinels := s.sentinels - {(t, k)})
    case LoseLock(t, c) => s.(locks := s.locks - {(t, c)})
    case EditCart(edit) => StepEdit(cfg, s, edit)
    case StartApply(w, r) =>
      if w in s.appliers then s else s.(appliers := s.appliers[w := CouponRace.Applier(r, CouponRace.Asked)])
    case CouponStep(w, statement) => if w in s.appliers then StepApply(cfg, s, w, statement) else s
    case Work(event) => StepWork(cfg, s, event)
    case _ => ProcessStep(cfg, s, e)
  }

  ghost function Run(cfg: Config, s: State, es: seq<Event>): State
  {
    if es == [] then s else Step(cfg, Run(cfg, s, es[..|es| - 1]), es[|es| - 1])
  }

  function Initial(db: Db): State
  {
    State(db, map[], map[], {}, map[], map[], map[], [])
  }

  // ------------------------------------------------------ serial executions

  /** The same transaction at one instant. */
  function ShopEvent(t: Txn): Shop.Event
  {
    match t
    case Editing(e) => Shop.Change(e)
    case CheckingOut(id, a, _) => Shop.Place(a, id)
    case Applying(_, r, _) => Shop.Change(ApplyCoupon(r.tenant, r.cart, r.code, r.now, r.country))
    case Working(e) => e
  }

  function Events(log: seq<Txn>): seq<Shop.Event>
  {
    seq(|log|, i requires 0 <= i < |log| => ShopEvent(log[i]))
  }

  /** What the transaction returned is what its one-instant version returns here. */
  predicate Faithful(cfg: Config, db: Db, t: Txn)
  {
    match t
    case CheckingOut(id, a, outcome) =>
      (match Atomic(cfg.rules, db, a, id)
       case Ok(db') => id in db'.orders && outcome == Ok(ResultFor(id, db'.orders[id]))
       case Err(e) => outcome == Err(e))
    case Applying(_, r, refusal) =>
      (match CouponRace.AtOnce(cfg.rules, cfg.policy, db.codes, LedgerOf(db), r)
       case Ok(_) => refusal.None?
       case Err(e) => refusal == Some(e))
    case _ => true
  }

  /** The transactions one after the other, each at one instant, as events of the shop. */
  ghost function Serial(cfg: Config, s: Shop.State, log: seq<Txn>): Shop.State
  {
    Shop.Run(cfg, s, Events(log))
  }

  ghost predicate SeriallyFaithful(cfg: Config, s: Shop.State, log: seq<Txn>)
  {
    forall i :: 0 <= i < |log| ==> Faithful(cfg, Serial(cfg, s, log[..i]).db, log[i])
  }
}
