/**
 Stock is conserved over every run of the checkout protocol, and a key whose record has committed is
 answered with that record ever after: exactly the calls that look before the commit miss it.
 */
module StockLaws {
  import opened Schema
  import opened CartRules
  import opened CouponRules
  import opened Idempotency
  import opened Checkout
  import opened Sales
  import opened Protocol
  import opened ProtocolSteps
  import opened ProtocolLaws
  import CouponRace
  import Shop
  import ShopLaws

  // ------------------------------------------------------ ordered quantity

  ghost function SomeOrder(ids: set<OrderId>): (o: OrderId)
    requires ids != {}
    ensures o in ids
  {
    EmptyOrNot(ids);
    var o :| o in ids;
    o
  }

  /** The quantity of a product over the lines of all orders. */
  ghost function Ordered(orders: map<OrderId, Order>, product: ProductId): nat
    decreases |orders|
  {
    if orders.Keys == {} then 0
    else
      var o := SomeOrder(orders.Keys);
      assert |orders - {o}| < |orders| by {
        assert (orders - {o}).Keys == orders.Keys - {o};
      }
      QuantityOf(orders[o].lines, product) + Ordered(orders - {o}, product)
  }

  lemma {:induction false} OrderedWithout(orders: map<OrderId, Order>, o: OrderId, product: ProductId)
    requires o in orders
    ensures Ordered(orders, product) == QuantityOf(orders[o].lines, product) + Ordered(orders - {o}, product)
    decreases |orders|
  {
    var c := SomeOrder(orders.Keys);
    if c != o {
      assert (orders - {c}).Keys == orders.Keys - {c};
      OrderedWithout(orders - {c}, o, product);
      OrderedWithout(orders - {o}, c, product);
      assert orders - {c} - {o} == orders - {o} - {c};
    }
  }

  lemma OrderedInsert(orders: map<OrderId, Order>, o: OrderId, order: Order, product: ProductId)
    requires o !in orders
    ensures Ordered(orders[o := order], product) == Ordered(orders, product) + QuantityOf(order.lines, product)
  {
    OrderedWithout(orders[o := order], o, product);
    assert orders[o := order] - {o} == orders;
  }

  /** Statuses are no part of what was ordered. */
  lemma {:induction false} OrderedSameLines(orders: map<OrderId, Order>, orders': map<OrderId, Order>, product: ProductId)
    requires orders'.Keys == orders.Keys && forall o :: o in orders ==> orders'[o].lines == orders[o].lines
    ensures Ordered(orders', product) == Ordered(orders, product)
    decreases |orders|
  {
    if orders.Keys != {} {
      var o := SomeOrder(orders.Keys);
      assert (orders - {o}).Keys == orders.Keys - {o} == (orders' - {o}).Keys;
      OrderedSameLines(orders - {o}, orders' - {o}, product);
    }
  }

  // ----------------------------------------------------------- conservation

  /** What the products table and the orders have of a product, together. */
  ghost function Holding(db: Db, product: ProductId): nat
    requires product in db.products
  {
    db.products[product].stock + Ordered(db.orders, product)
  }

  ghost predicate Conserved(db: Db, db': Db)
  {
    forall x :: x in db.products ==> x in db'.products && Holding(db', x) == Holding(db, x)
  }

  lemma CheckoutConserves(cfg: Config, db: Db, a: Attempt, id: OrderId)
    requires id !in db.orders
    ensures Conserved(db, AfterCheckout(cfg, db, a, id))
  {
    if Atomic(cfg.rules, db, a, id).Ok? {
      var p := Prepare(cfg.rules, db, a).value;
      TakeAllEffect(db.products, a.tenant, p.cart.items);
      forall x | x in db.products {
        OrderedInsert(db.orders, id, OrderOf(a, p.cart), x);
      }
    }
  }

  lemma OnlyCommitsWrite(cfg: Config, s: State, e: Event)
    requires !e.Commit? && !e.EditCart? && !e.CouponStep? && !e.Work?
    ensures Step(cfg, s, e).db == s.db
  {
    if OfProcess(e) {
      StepOfProcess(cfg, s, e);
      if e.p in s.procs {
        CheckoutsWriteAtCommit(cfg, s, e);
      }
    }
  }

  lemma CheckoutsWriteAtCommit(cfg: Config, s: State, e: Event)
    requires OfProcess(e) && !e.Commit? && e.p in s.procs
    ensures ProcessStep(cfg, s, e).db == s.db
  {
    if Quiet(e) {
      QuietIsQuiet(cfg, s, e);
    } else {
      InsideIsOwn(cfg, s, e.p, e);
    }
  }

  lemma CommitConserves(cfg: Config, s: State, p: Process)
    requires p in s.procs && s.procs[p].phase.KeyHeld? && ProcOk(cfg, s.db, p, s.procs[p])
    ensures Conserved(s.db, StepCommit(s, p).db)
  {
    CommitIsAtomic(cfg, s, p);
    CheckoutConserves(cfg, s.db, s.procs[p].attempt, p);
  }

  /** A step that leaves products, orders and records alone. */
  ghost predicate Aside(db: Db, db': Db)
  {
    db'.products == db.products && db'.orders == db.orders && db'.records == db.records
  }

  lemma EditIsAside(cfg: Config, s: State, e: Edit)
    ensures Aside(s.db, StepEdit(cfg, s, e).db)
  {
    var l' := Edited(cfg, s.db.codes, LedgerOf(s.db), e);
    LedgerIsAside(s.db, s.db);
    LedgerIsAside(s.db, s.db.(carts := l'.carts, coupons := l'.coupons));
    assert StepEdit(cfg, s, e).db == s.db || StepEdit(cfg, s, e).db == s.db.(carts := l'.carts, coupons := l'.coupons);
  }

  lemma LedgerIsAside(db: Db, db': Db)
    requires db' == db.(carts := db'.carts, coupons := db'.coupons)
    ensures Aside(db, db')
  {
  }

  lemma ApplyIsAside(cfg: Config, s: State, w: Caller, statement: CouponRace.Statement)
    requires w in s.appliers
    ensures Aside(s.db, StepApply(cfg, s, w, statement).db)
  {
    MoveIsAside(cfg, s, w, statement, CouponRace.Next(cfg.rules, cfg.policy, s.db.codes, LedgerOf(s.db), s.appliers[w], statement));
  }

  lemma CouponStepIsAside(cfg: Config, s: State, w: Caller, statement: CouponRace.Statement)
    ensures Aside(s.db, Step(cfg, s, CouponStep(w, statement)).db)
  {
    if w in s.appliers {
      ApplyIsAside(cfg, s, w, statement);
    }
  }

  lemma MoveIsAside(cfg: Config, s: State, w: Caller, statement: CouponRace.Statement, move: CouponRace.Move)
    requires w in s.appliers
    requires move == CouponRace.Next(cfg.rules, cfg.policy, s.db.codes, LedgerOf(s.db), s.appliers[w], statement)
    ensures Aside(s.db, StepApply(cfg, s, w, statement).db)
  {
    match move {
      case Stay =>
      case Go(_) =>
      case Refuse(_) =>
      case CommitTo(l') => LedgerIsAside(s.db, s.db.(carts := l'.carts, coupons := l'.coupons));
    }
  }

  lemma WorkConserves(db: Db, db': Db)
    requires OnlyWorked(db, db')
    ensures Conserved(db, db')
  {
    forall x | x in db.products ensures Holding(db', x) == Holding(db, x) {
      assert forall o :: o in db.orders ==> Shop.OrderStep(db.orders[o], db'.orders[o]);
      OrderedSameLines(db.orders, db'.orders, x);
    }
  }

  lemma WorkStep(cfg: Config, s: State, e: Shop.Event)
    ensures OnlyWorked(s.db, Step(cfg, s, Work(e)).db)
  {
    if !e.Change? && !e.Place? {
      WorkIsOnlyThat(cfg, ShopOf(s), e);
    }
  }

  /** What a step can do to the tables of sales: commit a checkout, nothing, or move statuses. */
  ghost predicate Sells(s: State, e: Event, s': State)
  {
    || (e.Commit? && e.p in s.procs && s.procs[e.p].phase.KeyHeld? && s' == StepCommit(s, e.p))
    || Aside(s.db, s'.db)
    || OnlyWorked(s.db, s'.db)
  }

  lemma StepSells(cfg: Config, s: State, e: Event)
    ensures Sells(s, e, Step(cfg, s, e))
  {
    if e.EditCart? {
      StepOfEdit(cfg, s, e.edit);
      EditIsAside(cfg, s, e.edit);
    } else if e.CouponStep? {
      CouponStepIsAside(cfg, s, e.w, e.statement);
    } else if e.Work? {
      WorkStep(cfg, s, e.event);
    } else if e.Commit? {
      CommitSells(cfg, s, e.p);
    } else {
      OnlyCommitsWrite(cfg, s, e);
    }
  }

  lemma CommitSells(cfg: Config, s: State, p: Process)
    ensures Sells(s, Commit(p), Step(cfg, s, Commit(p)))
  {
    StepOfProcess(cfg, s, Commit(p));
  }

  lemma SaleConserves(cfg: Config, s: State, e: Event, s': State)
    requires ProcsOk(cfg, s) && Sells(s, e, s')
    ensures Conserved(s.db, s'.db)
  {
    if Aside(s.db, s'.db) {
    } else if OnlyWorked(s.db, s'.db) {
      WorkConserves(s.db, s'.db);
    } else {
      CommitConserves(cfg, s, e.p);
    }
  }

  lemma {:induction false} RunConserves(cfg: Config, db0: Db, es: seq<Event>)
    requires StoreOk(cfg, db0)
    ensures Conserved(db0, Run(cfg, Initial(db0), es).db)
  {
    if es != [] {
      var s := Run(cfg, Initial(db0), es[..|es| - 1]);
      RunConserves(cfg, db0, es[..|es| - 1]);
      RunKeeps(cfg, db0, es[..|es| - 1]);
      StepSells(cfg, s, es[|es| - 1]);
      SaleConserves(cfg, s, es[|es| - 1], Step(cfg, s, es[|es| - 1]));
    }
  }

  /** The items a transaction has taken so far. */
  function Taken(phase: Phase): seq<Item>
    requires HasRows(phase)
  {
    if phase.Taking? && phase.n <= |phase.cart.items| then phase.cart.items[..phase.n] else phase.cart.items
  }

  /**
   Nothing is oversold: per product, initial stock = committed stock + ordered quantity; a transaction
   that has written the row has taken its own quantity out of the committed stock and nothing else,
   and no second transaction has written it.
   */
  lemma NothingIsOversold(cfg: Config, db0: Db, es: seq<Event>, x: ProductId, p: Process, q: Process)
    requires StoreOk(cfg, db0) && x in db0.products
    ensures var s := Run(cfg, Initial(db0), es);
            && x in s.db.products
            && s.db.products[x].stock + Ordered(s.db.orders, x) == db0.products[x].stock + Ordered(db0.orders, x)
            && (p in s.procs && HoldsProduct(s.procs[p], x) ==>
                  && s.procs[p].phase.pending[x].stock + QuantityOf(Taken(s.procs[p].phase), x) == s.db.products[x].stock
                  && (q in s.procs && HoldsProduct(s.procs[q], x) ==> p == q))
  {
    RunConserves(cfg, db0, es);
    RunKeeps(cfg, db0, es);
    var s := Run(cfg, Initial(db0), es);
    assert Holding(s.db, x) == Holding(db0, x);
    if p in s.procs && HoldsProduct(s.procs[p], x) {
      assert ProcOk(cfg, s.db, p, s.procs[p]);
      HeldQuantity(cfg, s.db, p, s.procs[p], x);
      if q in s.procs && HoldsProduct(s.procs[q], x) {
        HeldByOne(s.procs, p, q, x);
      }
    }
  }

  lemma HeldByOne(procs: map<Process, Proc>, p: Process, q: Process, x: ProductId)
    requires Exclusive(procs) && p in procs && q in procs && HoldsProduct(procs[p], x) && HoldsProduct(procs[q], x)
    ensures p == q
  {
  }

  /** A transaction that has written a product's row has taken what its lines so far ask for. */
  lemma HeldQuantity(cfg: Config, db: Db, p: Process, proc: Proc, x: ProductId)
    requires ProcOk(cfg, db, p, proc) && HoldsProduct(proc, x) && x in db.products
    ensures proc.phase.pending[x].stock + QuantityOf(Taken(proc.phase), x) == db.products[x].stock
  {
    assert proc.phase.cart.items[..|proc.phase.cart.items|] == proc.phase.cart.items;
    TakeAllEffect(db.products, proc.attempt.tenant, Taken(proc.phase));
  }

  // ------------------------------------------------------------ replay law

  /** A record that stands is never changed or removed, and of an order that stands at most the status moves, once. */
  ghost predicate Extends(db: Db, db': Db)
  {
    && (forall k :: k in db.records ==> k in db'.records && db'.records[k] == db.records[k])
    && (forall o :: o in db.orders ==> o in db'.orders && ShopLaws.OrderLater(db.orders[o], db'.orders[o]))
  }

  lemma CommitExtends(cfg: Config, s: State, p: Process)
    requires p in s.procs && s.procs[p].phase.KeyHeld? && ProcOk(cfg, s.db, p, s.procs[p])
    ensures Extends(s.db, StepCommit(s, p).db)
  {
  }

  lemma WorkExtends(db: Db, db': Db)
    requires OnlyWorked(db, db')
    ensures Extends(db, db')
  {
    forall o | o in db.orders ensures o in db'.orders && ShopLaws.OrderLater(db.orders[o], db'.orders[o]) {
      assert Shop.OrderStep(db.orders[o], db'.orders[o]);
    }
  }

  lemma SaleExtends(cfg: Config, s: State, e: Event, s': State)
    requires ProcsOk(cfg, s) && Sells(s, e, s')
    ensures Extends(s.db, s'.db)
  {
    if Aside(s.db, s'.db) {
    } else if OnlyWorked(s.db, s'.db) {
      WorkExtends(s.db, s'.db);
    } else {
      CommitExtends(cfg, s, e.p);
    }
  }

  lemma StepExtends(cfg: Config, s: State, e: Event)
    requires Inv(cfg, s)
    ensures Extends(s.db, Step(cfg, s, e).db)
  {
    StepSells(cfg, s, e);
    SaleExtends(cfg, s, e, Step(cfg, s, e));
  }

  lemma ExtendsOn(db: Db, db1: Db, db2: Db)
    requires Extends(db, db1) && Extends(db1, db2)
    ensures Extends(db, db2)
  {
    forall o | o in db.orders ensures o in db2.orders && ShopLaws.OrderLater(db.orders[o], db2.orders[o]) {
      assert ShopLaws.OrderLater(db.orders[o], db1.orders[o]) && ShopLaws.OrderLater(db1.orders[o], db2.orders[o]);
    }
  }

  lemma {:induction false} RunExtends(cfg: Config, s: State, es: seq<Event>)
    requires Inv(cfg, s)
    ensures Extends(s.db, Run(cfg, s, es).db)
  {
    if es != [] {
      var s1 := Run(cfg, s, es[..|es| - 1]);
      RunExtends(cfg, s, es[..|es| - 1]);
      RunKeepsInv(cfg, s, es[..|es| - 1]);
      StepExtends(cfg, s1, es[|es| - 1]);
      ExtendsOn(s.db, s1.db, Step(cfg, s1, es[|es| - 1]).db);
    }
  }

  /** A call of key k reads the record: it is replayed, or told that the key was used for another request. */
  ghost predicate Replays(cfg: Config, s: State, q: Process, record: Record)
  {
    var s' := Step(cfg, s, ReadRecord(q));
    && q in s.procs && ResultOf(record).Some?
    && At(s', q, Returned(if s.procs[q].attempt.hash == record.hash then Ok(ResultOf(record).value)
                          else Err(IdempotencyConflict)))
    && s' == s.(procs := s'.procs)
  }

  /**
   Replay, from the commit on: in any reachable state whose records have a succeeded one for key k,
   whether its call has returned, is still to return or has died, and after any further steps, a new
   call of the key returns the recorded result at its first step, or a conflict if its hash is another,
   and changes nothing but its own phase.
   */
  lemma ReplayOnceCommitted(cfg: Config, db0: Db, es: seq<Event>, more: seq<Event>, k: (TenantId, Key), q: Process)
    requires StoreOk(cfg, db0)
    requires var s0 := Run(cfg, Initial(db0), es); k in s0.db.records && s0.db.records[k].status.RecordSucceeded?
    requires var s := Run(cfg, Run(cfg, Initial(db0), es), more);
             q in s.procs && s.procs[q].phase.Arrived? && (s.procs[q].attempt.tenant, s.procs[q].attempt.key) == k
    ensures var s0 := Run(cfg, Initial(db0), es);
            Replays(cfg, Run(cfg, s0, more), q, s0.db.records[k])
  {
    RunKeeps(cfg, db0, es);
    var s0 := Run(cfg, Initial(db0), es);
    RunExtends(cfg, s0, more);
    assert Backed(s0.db, k);
    ReadReplays(cfg, Run(cfg, s0, more), q, s0.db.records[k]);
  }

  /** The first step of a call whose key has a succeeded record. */
  lemma ReadReplays(cfg: Config, s: State, q: Process, record: Record)
    requires q in s.procs && s.procs[q].phase.Arrived?
    requires var k := (s.procs[q].attempt.tenant, s.procs[q].attempt.key); k in s.db.records && s.db.records[k] == record
    requires record.status.RecordSucceeded? && ResultOf(record).Some?
    ensures Replays(cfg, s, q, record)
  {
  }

  /**
   So once a call has returned a result, every later call with its key and hash returns an equal one;
   the order is still the one that was placed, but for its status.
   */
  lemma ReplayIsForever(cfg: Config, db0: Db, es: seq<Event>, more: seq<Event>, p: Process, r: CheckoutResult, q: Process)
    requires StoreOk(cfg, db0)
    requires Answered(Run(cfg, Initial(db0), es), p, Ok(r))
    requires var s := Run(cfg, Run(cfg, Initial(db0), es), more);
             var a := Run(cfg, Initial(db0), es).procs[p].attempt;
             && q in s.procs && s.procs[q].phase.Arrived?
             && s.procs[q].attempt.tenant == a.tenant && s.procs[q].attempt.key == a.key
    ensures var s0 := Run(cfg, Initial(db0), es);
            var s := Run(cfg, s0, more);
            var s' := Step(cfg, s, ReadRecord(q));
            && At(s', q, Returned(if s.procs[q].attempt.hash == s0.procs[p].attempt.hash then Ok(r) else Err(IdempotencyConflict)))
            && s' == s.(procs := s'.procs)
            && r.orderId in s0.db.orders && r.orderId in s.db.orders
            && ShopLaws.OrderLater(s0.db.orders[r.orderId], s.db.orders[r.orderId])
  {
    var s0 := Run(cfg, Initial(db0), es);
    ReachedAnswer(cfg, db0, es, p, r);
    ReplayOnceCommitted(cfg, db0, es, more, (s0.procs[p].attempt.tenant, s0.procs[p].attempt.key), q);
    ReachedExtends(cfg, db0, es, more);
  }

  lemma ReachedExtends(cfg: Config, db0: Db, es: seq<Event>, more: seq<Event>)
    requires StoreOk(cfg, db0)
    ensures var s0 := Run(cfg, Initial(db0), es); Extends(s0.db, Run(cfg, s0, more).db)
  {
    RunKeeps(cfg, db0, es);
    RunExtends(cfg, Run(cfg, Initial(db0), es), more);
  }
}
