/**
 What every run of the checkout protocol keeps, with Redis free to lose any key at any step: the
 committed database is that of its transactions run one after the other, and answers agree.
 */
module ProtocolLaws {
  import opened Schema
  import opened CartRules
  import opened Validation
  import opened CouponRules
  import opened CouponLaws
  import opened Idempotency
  import opened Checkout
  import opened Sales
  import opened Protocol
  import opened ProtocolSteps
  import CouponRace
  import Shop
  import ShopLaws

  // ------------------------------------------------ stock, item after item

  /** Taking one more item after the others. */
  lemma {:induction false} TakeAllAppend(products: Products, tenant: TenantId, items: seq<Item>, last: Item)
    ensures var r := TakeAll(products, tenant, items);
            TakeAll(products, tenant, items + [last]) == if r.Ok? then TakeAll(r.value, tenant, [last]) else r
  {
    if items == [] {
      assert [] + [last] == [last];
    } else {
      assert (items + [last])[1..] == items[1..] + [last];
      if InStock(products, tenant, items[0]) {
        TakeAllAppend(Decremented(products, items[0]), tenant, items[1..], last);
      }
    }
  }

  /** The first short item decides, whatever comes after it. */
  lemma {:induction false} TakeAllShort(products: Products, tenant: TenantId, items: seq<Item>, more: seq<Item>)
    requires TakeAll(products, tenant, items).Err?
    ensures TakeAll(products, tenant, items + more) == TakeAll(products, tenant, items)
  {
    assert (items + more)[1..] == items[1..] + more;
    if InStock(products, tenant, items[0]) {
      TakeAllShort(Decremented(products, items[0]), tenant, items[1..], more);
    }
  }

  ghost predicate Agree(products: Products, products': Products, keys: set<ProductId>)
  {
    forall x :: x in keys ==> (x in products <==> x in products') && (x in products ==> products[x] == products'[x])
  }

  /** Taking stock reads and writes only the rows of its items. */
  lemma {:induction false} TakeAllFrame(products: Products, products': Products, tenant: TenantId, items: seq<Item>,
                                        keys: set<ProductId>)
    requires Agree(products, products', keys)
    requires forall i :: 0 <= i < |items| ==> items[i].product in keys
    requires TakeAll(products, tenant, items).Ok?
    ensures var r, r' := TakeAll(products, tenant, items), TakeAll(products', tenant, items);
            && r'.Ok? && Agree(r.value, r'.value, keys)
            && r'.value.Keys == products'.Keys
            && forall x :: x in products' && x !in keys ==> r'.value[x] == products'[x]
  {
    if items != [] {
      assert items[0].product in keys;
      TakeAllFrame(Decremented(products, items[0]), Decremented(products', items[0]), tenant, items[1..], keys);
    }
  }

  /** The private rows of a transaction that has taken `items` out of the committed products. */
  ghost predicate PendingOk(products: Products, tenant: TenantId, items: seq<Item>, pending: Products)
  {
    && TakeAll(products, tenant, items) == Ok(products + pending)
    && forall i :: 0 <= i < |items| ==> items[i].product in pending
  }

  lemma PendingFrame(products: Products, products': Products, tenant: TenantId, items: seq<Item>, pending: Products)
    requires PendingOk(products, tenant, items, pending)
    requires Agree(products, products', pending.Keys)
    ensures PendingOk(products', tenant, items, pending)
  {
    TakeAllFrame(products, products', tenant, items, pending.Keys);
    TakeAllEffect(products, tenant, items);
    var q := TakeAll(products', tenant, items).value;
    forall x | x in pending ensures x in products' {
      assert x in (products + pending).Keys;
    }
    assert q.Keys == products'.Keys == (products' + pending).Keys;
    forall x | x in products' ensures q[x] == (products' + pending)[x] {
      assert x in pending ==> q[x] == (products + pending)[x];
    }
    assert q == products' + pending;
  }

  lemma PendingGrows(products: Products, tenant: TenantId, items: seq<Item>, pending: Products, last: Item)
    requires PendingOk(products, tenant, items, pending)
    requires InStock(products + pending, tenant, last)
    ensures var row := Decremented(products + pending, last)[last.product];
            PendingOk(products, tenant, items + [last], pending[last.product := row])
  {
    TakeAllAppend(products, tenant, items, last);
    var visible := products + pending;
    assert TakeAll(visible, tenant, [last]) == Ok(Decremented(visible, last));
    assert Decremented(visible, last) == products + pending[last.product := Decremented(visible, last)[last.product]];
  }

  // -------------------------------------------------------------- invariant

  /** The names a process will use for its rows are still free. */
  ghost predicate Unused(db: Db, p: Process)
  {
    p !in db.orders && p !in db.payments
  }

  /** A transaction past validation: where it stands in the one-instant checkout. */
  ghost predicate RowsOk(cfg: Config, db: Db, a: Attempt, cart: Cart, pending: Products, n: nat)
  {
    && Refusal(db, a).None?
    && Revalidated(cfg.rules, db.coupons, db.carts[a.cart], a.now, a.country) == Ok(cart)
    && n <= |cart.items|
    && PendingOk(db.products, a.tenant, cart.items[..n], pending)
  }

  /** A result that was returned stands in the durable record of its key. */
  ghost predicate OutcomeOk(db: Db, a: Attempt, outcome: Outcome)
  {
    match outcome
    case Ok(r) =>
      && (a.tenant, a.key) in db.records
      && db.records[(a.tenant, a.key)].hash == a.hash
      && db.records[(a.tenant, a.key)].status.RecordSucceeded?
      && ResultOf(db.records[(a.tenant, a.key)]) == Some(r)
    case Err(e) => e != CartStaleVersion && e != BrokenRecord
  }

  ghost predicate ProcOk(cfg: Config, db: Db, p: Process, proc: Proc)
  {
    var a := proc.attempt;
    match proc.phase
    case CartHeld(cart) =>
      Unused(db, p) && Owned(db.carts, a.tenant, a.cart) && db.carts[a.cart] == cart && cart.status == Active
    case Taking(cart, pending, n) => Unused(db, p) && RowsOk(cfg, db, a, cart, pending, n)
    case CartMarked(cart, pending) => Unused(db, p) && RowsOk(cfg, db, a, cart, pending, |cart.items|)
    case KeyHeld(cart, pending) =>
      Unused(db, p) && RowsOk(cfg, db, a, cart, pending, |cart.items|) && (a.tenant, a.key) !in db.records
    case Ended(outcome) => OutcomeOk(db, a, outcome)
    case Unlocked(outcome) => OutcomeOk(db, a, outcome)
    case Returned(outcome) => OutcomeOk(db, a, outcome)
    case Dead => true
    case _ => Unused(db, p)
  }

  /** No row is held by two transactions. */
  ghost predicate Apart(proc: Proc, proc': Proc)
  {
    && !(InTransaction(proc.phase) && InTransaction(proc'.phase) && proc.attempt.cart == proc'.attempt.cart)
    && (forall x :: !(HoldsProduct(proc, x) && HoldsProduct(proc', x)))
    && !(proc.phase.KeyHeld? && proc'.phase.KeyHeld?
         && proc.attempt.tenant == proc'.attempt.tenant && proc.attempt.key == proc'.attempt.key)
  }

  ghost predicate Exclusive(procs: map<Process, Proc>)
  {
    forall p, q :: p in procs && q in procs && p != q ==> Apart(procs[p], procs[q])
  }

  ghost predicate ProcsOk(cfg: Config, s: State)
  {
    forall p :: p in s.procs ==> ProcOk(cfg, s.db, p, s.procs[p])
  }

  ghost predicate ApplierOk(cfg: Config, db: Db, ap: CouponRace.Applier)
  {
    CouponRace.StageOk(cfg.rules, cfg.policy, db.codes, LedgerOf(db), ap)
  }

  ghost predicate AppliersOk(cfg: Config, db: Db, appliers: map<Caller, CouponRace.Applier>)
  {
    forall w :: w in appliers ==> ApplierOk(cfg, db, appliers[w])
  }

  /** No row of an application is held by anyone else. */
  ghost predicate Parted(procs: map<Process, Proc>, appliers: map<Caller, CouponRace.Applier>)
  {
    && (forall p, w :: p in procs && w in appliers ==> Unshared(procs[p], appliers[w]))
    && (forall v, w :: v in appliers && w in appliers && v != w ==> Disjoint(appliers[v], appliers[w]))
  }

  ghost predicate Inv(cfg: Config, s: State)
  {
    && StoreOk(cfg, s.db)
    && ProcsOk(cfg, s)
    && Exclusive(s.procs)
    && AppliersOk(cfg, s.db, s.appliers)
    && Parted(s.procs, s.appliers)
  }

  /** The log explains the shop: run serially from s0 it gives it, with the same answers. */
  ghost predicate Explained(cfg: Config, s0: Shop.State, s: State)
  {
    ShopOf(s) == Serial(cfg, s0, s.log) && SeriallyFaithful(cfg, s0, s.log)
  }

  // ------------------------------------------- what one transaction leaves

  /** The rows a process relies on are the same in both databases, and its names are still free. */
  ghost predicate Untouched(db: Db, db': Db, p: Process, proc: Proc)
  {
    var a := proc.attempt;
    && (Unused(db, p) ==> Unused(db', p))
    && db'.addresses == db.addresses && db'.methods == db.methods
    && (InTransaction(proc.phase) && a.cart in db.carts ==> a.cart in db'.carts && db'.carts[a.cart] == db.carts[a.cart])
    && (HasRows(proc.phase) ==>
          && Agree(db.products, db'.products, proc.phase.pending.Keys)
          && forall i :: 0 <= i < |proc.phase.cart.applied| ==>
               var k := proc.phase.cart.applied[i].coupon;
               k in db.coupons ==> k in db'.coupons && db'.coupons[k] == db.coupons[k])
    && (proc.phase.KeyHeld? && (a.tenant, a.key) !in db.records ==> (a.tenant, a.key) !in db'.records)
    && ((a.tenant, a.key) in db.records ==>
          (a.tenant, a.key) in db'.records && db'.records[(a.tenant, a.key)] == db.records[(a.tenant, a.key)])
  }

  lemma RowsFrame(cfg: Config, db: Db, db': Db, p: Process, proc: Proc, cart: Cart, pending: Products, n: nat)
    requires StoreOk(cfg, db) && Untouched(db, db', p, proc)
    requires HasRows(proc.phase) && proc.phase.cart == cart && proc.phase.pending == pending
    requires RowsOk(cfg, db, proc.attempt, cart, pending, n)
    ensures RowsOk(cfg, db', proc.attempt, cart, pending, n)
  {
    var a := proc.attempt;
    var row := db.carts[a.cart];
    assert CartOk(cfg.policy, row, db.coupons);
    assert cart.applied == row.applied;
    FirstRefusalFrame(cfg.rules, db.coupons, db'.coupons, row.applied, ContextOf(row, a.now, a.country));
    PendingFrame(db.products, db'.products, a.tenant, cart.items[..n], pending);
  }

  lemma ProcFrame(cfg: Config, db: Db, db': Db, p: Process, proc: Proc)
    requires StoreOk(cfg, db) && Untouched(db, db', p, proc) && ProcOk(cfg, db, p, proc)
    ensures ProcOk(cfg, db', p, proc)
  {
    match proc.phase {
      case Taking(cart, pending, n) => RowsFrame(cfg, db, db', p, proc, cart, pending, n);
      case CartMarked(cart, pending) => RowsFrame(cfg, db, db', p, proc, cart, pending, |cart.items|);
      case KeyHeld(cart, pending) => RowsFrame(cfg, db, db', p, proc, cart, pending, |cart.items|);
      case _ =>
    }
  }

  // ------------------------------------------------------------- one step

  /** The new phase holds no row that the old one did not. */
  predicate HoldsNoMore(phase: Phase, phase': Phase)
  {
    && (InTransaction(phase') ==> InTransaction(phase))
    && (HasRows(phase') ==> HasRows(phase) && phase'.pending == phase.pending && phase'.cart == phase.cart)
    && (phase'.KeyHeld? ==> phase.KeyHeld?)
  }

  lemma ExclusiveWithin(procs: map<Process, Proc>, p: Process, phase: Phase)
    requires Exclusive(procs) && p in procs && HoldsNoMore(procs[p].phase, phase)
    ensures Exclusive(procs[p := Proc(procs[p].attempt, phase)])
  {
    var proc, proc' := procs[p], Proc(procs[p].attempt, phase);
    forall q | q in procs && q != p ensures Apart(proc', procs[q]) && Apart(procs[q], proc') {
      assert Apart(proc, procs[q]);
      assert forall x :: HoldsProduct(proc', x) ==> HoldsProduct(proc, x);
    }
  }

  /** The process holds no cart and no coupon that it did not hold. */
  lemma UnsharedWithin(s: State, p: Process, phase: Phase)
    requires Parted(s.procs, s.appliers) && p in s.procs
    requires InTransaction(phase) ==> InTransaction(s.procs[p].phase)
    requires HasRows(phase) ==> HasRows(s.procs[p].phase) && phase.cart == s.procs[p].phase.cart
    ensures ClearOfAppliers(s, Proc(s.procs[p].attempt, phase))
  {
    var proc, proc' := s.procs[p], Proc(s.procs[p].attempt, phase);
    forall w | w in s.appliers ensures Unshared(proc', s.appliers[w]) {
      assert Unshared(proc, s.appliers[w]);
      assert forall c :: HoldsCart(proc', c) ==> HoldsCart(proc, c);
      assert forall k :: HoldsCoupon(proc', k) ==> HoldsCoupon(proc, k);
    }
  }

  ghost predicate ClearOfAppliers(s: State, proc: Proc)
  {
    forall w :: w in s.appliers ==> Unshared(proc, s.appliers[w])
  }

  /** The step logs nothing and leaves the shop, or logs one transaction that explains what it does. */
  ghost predicate LoggedIn(cfg: Config, s: State, s': State)
  {
    if s'.log == s.log then ShopOf(s') == ShopOf(s)
    else s'.log != [] && s'.log[..|s'.log| - 1] == s.log && Accounts(cfg, s, s', s'.log[|s'.log| - 1])
  }

  /** What the step does is what the transaction does at one instant, and it returned what that returns. */
  ghost predicate Accounts(cfg: Config, s: State, s': State, t: Txn)
  {
    Faithful(cfg, s.db, t) && ShopOf(s') == Shop.Step(cfg, ShopOf(s), ShopEvent(t))
  }

  /** The step keeps the invariant, and the log accounts for it. */
  ghost predicate Good(cfg: Config, s: State, s': State)
  {
    Inv(cfg, s') && LoggedIn(cfg, s, s')
  }

  lemma StutterIsGood(cfg: Config, s: State)
    requires Inv(cfg, s)
    ensures Good(cfg, s, s)
  {
  }

  lemma Moved(cfg: Config, s: State, p: Process, phase: Phase)
    requires Inv(cfg, s) && p in s.procs
    requires ProcOk(cfg, s.db, p, Proc(s.procs[p].attempt, phase))
    requires forall q :: q in s.procs && q != p ==>
               Apart(Proc(s.procs[p].attempt, phase), s.procs[q]) && Apart(s.procs[q], Proc(s.procs[p].attempt, phase))
    requires ClearOfAppliers(s, Proc(s.procs[p].attempt, phase))
    ensures Good(cfg, s, To(s, p, phase))
  {
  }

  lemma MovedWithin(cfg: Config, s: State, p: Process, phase: Phase)
    requires Inv(cfg, s) && p in s.procs
    requires ProcOk(cfg, s.db, p, Proc(s.procs[p].attempt, phase)) && HoldsNoMore(s.procs[p].phase, phase)
    ensures Good(cfg, s, To(s, p, phase))
  {
    ExclusiveWithin(s.procs, p, phase);
    UnsharedWithin(s, p, phase);
  }

  lemma Refused(cfg: Config, s: State, p: Process, e: CheckoutError)
    requires Inv(cfg, s) && p in s.procs
    requires Atomic(cfg.rules, s.db, s.procs[p].attempt, p) == Err(e) && e != CartStaleVersion && e != BrokenRecord
    ensures Good(cfg, s, Refuse(s, p, e))
  {
    MovedWithin(cfg, s, p, Ended(Err(e)));
    RefusalIsLogged(cfg, s, p, e);
  }

  lemma RefusalIsLogged(cfg: Config, s: State, p: Process, e: CheckoutError)
    requires p in s.procs && Atomic(cfg.rules, s.db, s.procs[p].attempt, p) == Err(e)
    ensures LoggedIn(cfg, s, Refuse(s, p, e))
  {
    OneMoreLogged(cfg, s, Refuse(s, p, e), CheckingOut(p, s.procs[p].attempt, Err(e)));
  }

  lemma OneMoreLogged(cfg: Config, s: State, s': State, t: Txn)
    requires s'.log == s.log + [t] && Accounts(cfg, s, s', t)
    ensures LoggedIn(cfg, s, s')
  {
    assert s'.log[..|s'.log| - 1] == s.log && s'.log[|s'.log| - 1] == t;
  }

  lemma LockCartKeeps(cfg: Config, s: State, p: Process)
    requires Inv(cfg, s) && p in s.procs && s.procs[p].phase.Locked?
    ensures Good(cfg, s, StepLockCart(s, p))
  {
    var a := s.procs[p].attempt;
    StutterIsGood(cfg, s);
    if CartFree(s, p, a.cart) {
      if !Owned(s.db.carts, a.tenant, a.cart) {
        Refused(cfg, s, p, CartNotFound);
      } else if s.db.carts[a.cart].status != Active {
        Refused(cfg, s, p, CartAlreadyCheckedOut);
      } else {
        LockedApart(s, p, s.db.carts[a.cart]);
        Moved(cfg, s, p, CartHeld(s.db.carts[a.cart]));
      }
    }
  }

  lemma LockedApart(s: State, p: Process, cart: Cart)
    requires p in s.procs && CartFree(s, p, s.procs[p].attempt.cart)
    ensures var proc := Proc(s.procs[p].attempt, CartHeld(cart));
            && (forall q :: q in s.procs && q != p ==> Apart(proc, s.procs[q]) && Apart(s.procs[q], proc))
            && ClearOfAppliers(s, proc)
  {
    forall q | q in s.procs && q != p
      ensures Apart(Proc(s.procs[p].attempt, CartHeld(cart)), s.procs[q])
      ensures Apart(s.procs[q], Proc(s.procs[p].attempt, CartHeld(cart)))
    {
      assert !HoldsCart(s.procs[q], s.procs[p].attempt.cart);
    }
  }

  /** Validation adds the coupons of the cart to the rows held. */
  lemma ValidatedApart(s: State, p: Process, cart: Cart)
    requires Exclusive(s.procs) && Parted(s.procs, s.appliers) && p in s.procs && s.procs[p].phase.CartHeld?
    requires CouponsFree(s, p, cart.applied)
    ensures var proc := Proc(s.procs[p].attempt, Taking(cart, map[], 0));
            && (forall q :: q in s.procs && q != p ==> Apart(proc, s.procs[q]) && Apart(s.procs[q], proc))
            && ClearOfAppliers(s, proc)
  {
    var proc := Proc(s.procs[p].attempt, Taking(cart, map[], 0));
    forall q | q in s.procs && q != p ensures Apart(proc, s.procs[q]) && Apart(s.procs[q], proc) {
      assert Apart(s.procs[p], s.procs[q]) && Apart(s.procs[q], s.procs[p]);
    }
    forall w | w in s.appliers ensures Unshared(proc, s.appliers[w]) {
      assert Unshared(s.procs[p], s.appliers[w]);
      assert forall c :: HoldsCart(proc, c) ==> HoldsCart(s.procs[p], c);
    }
  }

  lemma ValidateKeeps(cfg: Config, s: State, p: Process)
    requires Inv(cfg, s) && p in s.procs && s.procs[p].phase.CartHeld?
    ensures Good(cfg, s, StepValidate(cfg, s, p))
  {
    var a, cart := s.procs[p].attempt, s.procs[p].phase.cart;
    assert ProcOk(cfg, s.db, p, s.procs[p]);
    StutterIsGood(cfg, s);
    if CouponsFree(s, p, cart.applied) {
      if Refusal(s.db, a).Some? {
        RefusedAtOnce(cfg, s.db, a);
        Refused(cfg, s, p, Refusal(s.db, a).value);
      } else {
        match Revalidated(cfg.rules, s.db.coupons, cart, a.now, a.country) {
          case Err(e) =>
            CouponsRefusedAtOnce(cfg, s.db, a);
            Refused(cfg, s, p, CouponsRejected(e));
          case Ok(cart') =>
            assert cart'.items[..0] == [] && s.db.products + map[] == s.db.products;
            ValidatedApart(s, p, cart');
            Moved(cfg, s, p, Taking(cart', map[], 0));
        }
      }
    }
  }

  lemma RefusedAtOnce(cfg: Config, db: Db, a: Attempt)
    requires Refusal(db, a).Some?
    ensures Prepare(cfg.rules, db, a) == Err(Refusal(db, a).value)
    ensures Refusal(db, a).value != CartStaleVersion && Refusal(db, a).value != BrokenRecord
  {
  }

  lemma CouponsRefusedAtOnce(cfg: Config, db: Db, a: Attempt)
    requires Refusal(db, a).None?
    requires Revalidated(cfg.rules, db.coupons, db.carts[a.cart], a.now, a.country).Err?
    ensures Prepare(cfg.rules, db, a)
         == Err(CouponsRejected(Revalidated(cfg.rules, db.coupons, db.carts[a.cart], a.now, a.country).error))
  {
  }

  /** A transaction that meets a short product: the one-instant checkout is refused for the same product. */
  lemma ShortIsRefused(cfg: Config, db: Db, a: Attempt, cart: Cart, pending: Products, n: nat)
    requires RowsOk(cfg, db, a, cart, pending, n) && n < |cart.items|
    requires !InStock(db.products + pending, a.tenant, cart.items[n])
    ensures Prepare(cfg.rules, db, a) == Err(ProductOutOfStock(cart.items[n].product))
  {
    assert cart.items[..n] + [cart.items[n]] == cart.items[..n + 1];
    TakeAllAppend(db.products, a.tenant, cart.items[..n], cart.items[n]);
    TakeAllShort(db.products, a.tenant, cart.items[..n + 1], cart.items[n + 1..]);
    assert cart.items[..n + 1] + cart.items[n + 1..] == cart.items;
  }

  /** A transaction that has taken all its items is where the one-instant checkout inserts its rows. */
  lemma TakenIsPrepared(cfg: Config, db: Db, a: Attempt, cart: Cart, pending: Products)
    requires RowsOk(cfg, db, a, cart, pending, |cart.items|)
    ensures Prepare(cfg.rules, db, a) == Ok(Prepared(cart, db.products + pending))
  {
    assert cart.items[..|cart.items|] == cart.items;
  }

  lemma TakeKeeps(cfg: Config, s: State, p: Process)
    requires Inv(cfg, s) && p in s.procs && s.procs[p].phase.Taking?
    ensures Good(cfg, s, StepTake(s, p))
  {
    var a, cart, pending, n := s.procs[p].attempt, s.procs[p].phase.cart, s.procs[p].phase.pending, s.procs[p].phase.n;
    assert ProcOk(cfg, s.db, p, s.procs[p]);
    StutterIsGood(cfg, s);
    if n < |cart.items| && ProductFree(s, p, cart.items[n].product) {
      if InStock(s.db.products + pending, a.tenant, cart.items[n]) {
        TakenKeeps(cfg, s, p);
      } else {
        ShortIsRefused(cfg, s.db, a, cart, pending, n);
        Refused(cfg, s, p, ProductOutOfStock(cart.items[n].product));
      }
    }
  }

  /** The phase after one more item has been taken. */
  function TakenMore(s: State, p: Process): Phase
    requires p in s.procs && s.procs[p].phase.Taking? && s.procs[p].phase.n < |s.procs[p].phase.cart.items|
    requires InStock(s.db.products + s.procs[p].phase.pending, s.procs[p].attempt.tenant,
                     s.procs[p].phase.cart.items[s.procs[p].phase.n])
  {
    var cart, pending, n := s.procs[p].phase.cart, s.procs[p].phase.pending, s.procs[p].phase.n;
    var item := cart.items[n];
    Taking(cart, pending[item.product := Decremented(s.db.products + pending, item)[item.product]], n + 1)
  }

  lemma TakenKeeps(cfg: Config, s: State, p: Process)
    requires Inv(cfg, s) && p in s.procs && s.procs[p].phase.Taking? && s.procs[p].phase.n < |s.procs[p].phase.cart.items|
    requires ProductFree(s, p, s.procs[p].phase.cart.items[s.procs[p].phase.n].product)
    requires InStock(s.db.products + s.procs[p].phase.pending, s.procs[p].attempt.tenant,
                     s.procs[p].phase.cart.items[s.procs[p].phase.n])
    ensures Good(cfg, s, To(s, p, TakenMore(s, p)))
  {
    var a, cart, pending, n := s.procs[p].attempt, s.procs[p].phase.cart, s.procs[p].phase.pending, s.procs[p].phase.n;
    assert ProcOk(cfg, s.db, p, s.procs[p]);
    OneMoreRow(cfg, s.db, a, cart, pending, n);
    TakenApart(s, p, TakenMore(s, p).pending, cart.items[n].product);
    UnsharedWithin(s, p, TakenMore(s, p));
    Moved(cfg, s, p, TakenMore(s, p));
  }

  lemma OneMoreRow(cfg: Config, db: Db, a: Attempt, cart: Cart, pending: Products, n: nat)
    requires RowsOk(cfg, db, a, cart, pending, n) && n < |cart.items| && InStock(db.products + pending, a.tenant, cart.items[n])
    ensures var item := cart.items[n];
            RowsOk(cfg, db, a, cart, pending[item.product := Decremented(db.products + pending, item)[item.product]], n + 1)
  {
    assert cart.items[..n] + [cart.items[n]] == cart.items[..n + 1];
    PendingGrows(db.products, a.tenant, cart.items[..n], pending, cart.items[n]);
  }

  lemma TakenApart(s: State, p: Process, pending: Products, x: ProductId)
    requires Exclusive(s.procs) && p in s.procs && s.procs[p].phase.Taking? && ProductFree(s, p, x)
    requires pending.Keys == s.procs[p].phase.pending.Keys + {x}
    ensures var proc := Proc(s.procs[p].attempt, Taking(s.procs[p].phase.cart, pending, s.procs[p].phase.n + 1));
            forall q :: q in s.procs && q != p ==> Apart(proc, s.procs[q]) && Apart(s.procs[q], proc)
  {
    var proc := Proc(s.procs[p].attempt, Taking(s.procs[p].phase.cart, pending, s.procs[p].phase.n + 1));
    forall q | q in s.procs && q != p ensures Apart(proc, s.procs[q]) && Apart(s.procs[q], proc) {
      assert Apart(s.procs[p], s.procs[q]);
      assert forall y :: HoldsProduct(proc, y) ==> HoldsProduct(s.procs[p], y) || y == x;
    }
  }

  lemma RevalidatedVersion(rules: Rules, coupons: Coupons, cart: Cart, now: int, country: Option<string>)
    requires Revalidated(rules, coupons, cart, now, country).Ok?
    ensures Revalidated(rules, coupons, cart, now, country).value.version == cart.version + 1
  {
  }

  /** The guard on the version never fails: whoever holds the row lock has read the newest version. */
  lemma MarkCartKeeps(cfg: Config, s: State, p: Process)
    requires Inv(cfg, s) && p in s.procs && s.procs[p].phase.Taking?
    ensures Good(cfg, s, StepMarkCart(s, p))
  {
    var a, cart, pending, n := s.procs[p].attempt, s.procs[p].phase.cart, s.procs[p].phase.pending, s.procs[p].phase.n;
    assert ProcOk(cfg, s.db, p, s.procs[p]);
    StutterIsGood(cfg, s);
    if n >= |cart.items| {
      RevalidatedVersion(cfg.rules, s.db.coupons, s.db.carts[a.cart], a.now, a.country);
      MovedWithin(cfg, s, p, CartMarked(cart, pending));
    }
  }

  lemma InsertRecordKeeps(cfg: Config, s: State, p: Process)
    requires Inv(cfg, s) && p in s.procs && s.procs[p].phase.CartMarked?
    ensures Good(cfg, s, StepInsertRecord(s, p))
  {
    var a, cart, pending := s.procs[p].attempt, s.procs[p].phase.cart, s.procs[p].phase.pending;
    assert ProcOk(cfg, s.db, p, s.procs[p]);
    StutterIsGood(cfg, s);
    TakenIsPrepared(cfg, s.db, a, cart, pending);
    if KeyFree(s, p, a.tenant, a.key) {
      if (a.tenant, a.key) in s.db.records {
        Refused(cfg, s, p, DuplicateRecord);
      } else {
        UnsharedWithin(s, p, KeyHeld(cart, pending));
        Moved(cfg, s, p, KeyHeld(cart, pending));
      }
    }
  }

  /** A transaction about to commit is the one-instant checkout. */
  lemma CommitIsAtomic(cfg: Config, s: State, p: Process)
    requires p in s.procs && s.procs[p].phase.KeyHeld? && ProcOk(cfg, s.db, p, s.procs[p])
    ensures s.procs[p].attempt.paymentMethod in s.db.methods
    ensures Atomic(cfg.rules, s.db, s.procs[p].attempt, p) == Ok(StepCommit(s, p).db)
  {
    TakenIsPrepared(cfg, s.db, s.procs[p].attempt, s.procs[p].phase.cart, s.procs[p].phase.pending);
  }

  lemma CommitKeeps(cfg: Config, s: State, p: Process)
    requires Inv(cfg, s) && p in s.procs && s.procs[p].phase.KeyHeld?
    ensures Good(cfg, s, StepCommit(s, p))
  {
    assert ProcOk(cfg, s.db, p, s.procs[p]);
    CommitStore(cfg, s, p);
    CommitIsLogged(cfg, s, p);
    CommitKeepsProcs(cfg, s, p);
    CommitKeepsAppliers(cfg, s, p);
    CommitKeepsHolds(cfg, s, p);
  }

  lemma CommitKeepsProcs(cfg: Config, s: State, p: Process)
    requires Inv(cfg, s) && p in s.procs && s.procs[p].phase.KeyHeld?
    ensures ProcsOk(cfg, StepCommit(s, p))
  {
    assert ProcOk(cfg, s.db, p, s.procs[p]);
    CommitOwn(cfg, s, p);
    forall q | q in s.procs && q != p ensures ProcOk(cfg, StepCommit(s, p).db, q, s.procs[q]) {
      OthersAtCommit(cfg, s, p, q);
    }
  }

  lemma CommitKeepsAppliers(cfg: Config, s: State, p: Process)
    requires p in s.procs && s.procs[p].phase.KeyHeld? && ProcOk(cfg, s.db, p, s.procs[p])
    requires AppliersOk(cfg, s.db, s.appliers) && Parted(s.procs, s.appliers)
    ensures AppliersOk(cfg, StepCommit(s, p).db, StepCommit(s, p).appliers)
  {
    forall w | w in s.appliers ensures ApplierOk(cfg, StepCommit(s, p).db, s.appliers[w]) {
      ApplierAtCommit(cfg, s, p, w);
    }
  }

  lemma CommitKeepsHolds(cfg: Config, s: State, p: Process)
    requires p in s.procs && s.procs[p].phase.KeyHeld? && ProcOk(cfg, s.db, p, s.procs[p])
    requires Exclusive(s.procs) && Parted(s.procs, s.appliers)
    ensures Exclusive(StepCommit(s, p).procs) && Parted(StepCommit(s, p).procs, StepCommit(s, p).appliers)
  {
    var phase := StepCommit(s, p).procs[p].phase;
    CommitOwn(cfg, s, p);
    ExclusiveWithin(s.procs, p, phase);
    UnsharedWithin(s, p, phase);
  }

  /** A checkout holds the cart it writes, so no application has read it. */
  lemma ApplierAtCommit(cfg: Config, s: State, p: Process, w: Caller)
    requires p in s.procs && s.procs[p].phase.KeyHeld? && ProcOk(cfg, s.db, p, s.procs[p])
    requires w in s.appliers && Unshared(s.procs[p], s.appliers[w]) && ApplierOk(cfg, s.db, s.appliers[w])
    ensures ApplierOk(cfg, StepCommit(s, p).db, s.appliers[w])
  {
    var db' := StepCommit(s, p).db;
    assert HoldsCart(s.procs[p], s.procs[p].attempt.cart);
    SameCoupons(s.db.coupons);
    CouponRace.StageStays(cfg.rules, cfg.policy, s.db.codes, LedgerOf(s.db), LedgerOf(db'), s.appliers[w]);
  }

  lemma SameCoupons(coupons: Coupons)
    ensures SameTerms(coupons, coupons)
  {
  }

  lemma CommitStore(cfg: Config, s: State, p: Process)
    requires StoreOk(cfg, s.db) && p in s.procs && s.procs[p].phase.KeyHeld? && ProcOk(cfg, s.db, p, s.procs[p])
    ensures StoreOk(cfg, StepCommit(s, p).db)
  {
    CommitIsAtomic(cfg, s, p);
    CheckoutKeepsStore(cfg, s.db, s.procs[p].attempt, p);
  }

  lemma CommitIsLogged(cfg: Config, s: State, p: Process)
    requires p in s.procs && s.procs[p].phase.KeyHeld? && ProcOk(cfg, s.db, p, s.procs[p])
    ensures LoggedIn(cfg, s, StepCommit(s, p))
  {
    CommitIsAtomic(cfg, s, p);
    PlaceOk(cfg, ShopOf(s), s.procs[p].attempt, p);
    OneMoreLogged(cfg, s, StepCommit(s, p), CheckingOut(p, s.procs[p].attempt, StepCommit(s, p).procs[p].phase.outcome));
  }

  lemma PlaceOk(cfg: Config, s: Shop.State, a: Attempt, id: OrderId)
    requires Unused(s.db, id) && Atomic(cfg.rules, s.db, a, id).Ok?
    ensures Shop.Step(cfg, s, Shop.Place(a, id)) == s.(db := Atomic(cfg.rules, s.db, a, id).value)
  {
  }

  lemma CommitOwn(cfg: Config, s: State, p: Process)
    requires p in s.procs && s.procs[p].phase.KeyHeld? && ProcOk(cfg, s.db, p, s.procs[p])
    ensures var s' := StepCommit(s, p);
            && p in s'.procs && ProcOk(cfg, s'.db, p, s'.procs[p])
            && s'.procs == s.procs[p := Proc(s.procs[p].attempt, s'.procs[p].phase)] && s'.procs[p].phase.Ended?
  {
    var a := s.procs[p].attempt;
    ResultRoundTrip(a.hash, ResultFor(p, OrderOf(a, s.procs[p].phase.cart)));
  }

  lemma OthersAtCommit(cfg: Config, s: State, p: Process, q: Process)
    requires Inv(cfg, s) && p in s.procs && s.procs[p].phase.KeyHeld?
    requires q in s.procs && q != p
    ensures ProcOk(cfg, StepCommit(s, p).db, q, s.procs[q])
  {
    assert ProcOk(cfg, s.db, p, s.procs[p]) && ProcOk(cfg, s.db, q, s.procs[q]);
    assert Apart(s.procs[p], s.procs[q]);
    CommitUntouched(cfg, s, p, q);
    ProcFrame(cfg, s.db, StepCommit(s, p).db, q, s.procs[q]);
  }

  lemma CommitUntouched(cfg: Config, s: State, p: Process, q: Process)
    requires p in s.procs && s.procs[p].phase.KeyHeld? && ProcOk(cfg, s.db, p, s.procs[p])
    requires q in s.procs && q != p && Apart(s.procs[p], s.procs[q]) && ProcOk(cfg, s.db, q, s.procs[q])
    ensures Untouched(s.db, StepCommit(s, p).db, q, s.procs[q])
  {
    var db', proc := StepCommit(s, p).db, s.procs[q];
    if HasRows(proc.phase) {
      forall x | x in proc.phase.pending ensures x !in s.procs[p].phase.pending {
        assert HoldsProduct(proc, x);
      }
    }
  }

  lemma EditKeeps(cfg: Config, s: State, e: Edit)
    requires Inv(cfg, s)
    ensures Good(cfg, s, StepEdit(cfg, s, e))
  {
    StutterIsGood(cfg, s);
    if !e.ApplyCoupon? && EditFree(s, Edited(cfg, s.db.codes, LedgerOf(s.db), e)) {
      var s' := s.(db := AfterEdit(cfg, s.db, e), log := s.log + [Editing(e)]);
      EditKeepsStore(cfg, s.db, e);
      EditKeepsProcs(cfg, s, e);
      EditKeepsAppliers(cfg, s, e);
      OneMoreLogged(cfg, s, s', Editing(e));
    }
  }

  lemma EditKeepsProcs(cfg: Config, s: State, e: Edit)
    requires StoreOk(cfg, s.db) && ProcsOk(cfg, s) && EditFree(s, Edited(cfg, s.db.codes, LedgerOf(s.db), e))
    ensures ProcsOk(cfg, s.(db := AfterEdit(cfg, s.db, e), log := s.log + [Editing(e)]))
  {
    forall q | q in s.procs ensures ProcOk(cfg, AfterEdit(cfg, s.db, e), q, s.procs[q]) {
      assert ProcOk(cfg, s.db, q, s.procs[q]);
      EditUntouched(s, Edited(cfg, s.db.codes, LedgerOf(s.db), e), q);
      ProcFrame(cfg, s.db, AfterEdit(cfg, s.db, e), q, s.procs[q]);
    }
  }

  lemma EditKeepsAppliers(cfg: Config, s: State, e: Edit)
    requires LedgerOk(cfg.policy, s.db.codes, LedgerOf(s.db)) && AppliersOk(cfg, s.db, s.appliers)
    requires EditFree(s, Edited(cfg, s.db.codes, LedgerOf(s.db), e))
    ensures AppliersOk(cfg, AfterEdit(cfg, s.db, e), s.appliers)
  {
    var l, l' := LedgerOf(s.db), Edited(cfg, s.db.codes, LedgerOf(s.db), e);
    EditKeepsLedger(cfg, s.db.codes, l, e);
    forall w | w in s.appliers ensures ApplierOk(cfg, AfterEdit(cfg, s.db, e), s.appliers[w]) {
      CouponRace.StageStays(cfg.rules, cfg.policy, s.db.codes, l, l', s.appliers[w]);
    }
  }

  lemma EditUntouched(s: State, l': Ledger, q: Process)
    requires q in s.procs && EditFree(s, l')
    ensures Untouched(s.db, s.db.(carts := l'.carts, coupons := l'.coupons), q, s.procs[q])
  {
    var proc := s.procs[q];
    if InTransaction(proc.phase) {
      assert HoldsCart(proc, proc.attempt.cart);
    }
    if HasRows(proc.phase) {
      forall i | 0 <= i < |proc.phase.cart.applied| ensures HoldsCoupon(proc, proc.phase.cart.applied[i].coupon) {
      }
    }
  }

  // ------------------------------------------------ applications of coupons

  lemma ApplyKeeps(cfg: Config, s: State, w: Caller, statement: CouponRace.Statement)
    requires Inv(cfg, s) && w in s.appliers
    ensures Good(cfg, s, StepApply(cfg, s, w, statement))
  {
    var move := CouponRace.Next(cfg.rules, cfg.policy, s.db.codes, LedgerOf(s.db), s.appliers[w], statement);
    StutterIsGood(cfg, s);
    assert ApplierOk(cfg, s.db, s.appliers[w]);
    CouponRace.StatementIsAtOnce(cfg.rules, cfg.policy, s.db.codes, LedgerOf(s.db), s.appliers[w], statement);
    if move.Go? {
      if Granted(s, w, s.appliers[w].(stage := move.stage)) {
        GrantedKeeps(cfg, s, w, move.stage);
      }
    } else if move.Refuse? {
      RefusedAtLast(cfg, s, w, move.error);
    } else if move.CommitTo? {
      AppliedAtLast(cfg, s, w, statement, move.ledger);
    }
  }

  lemma GrantedKeeps(cfg: Config, s: State, w: Caller, stage: CouponRace.Stage)
    requires Inv(cfg, s) && w in s.appliers && Granted(s, w, s.appliers[w].(stage := stage))
    requires ApplierOk(cfg, s.db, s.appliers[w].(stage := stage))
    ensures Good(cfg, s, ToStage(s, w, stage))
  {
    GrantedParted(s, w, stage);
  }

  lemma GrantedParted(s: State, w: Caller, stage: CouponRace.Stage)
    requires w in s.appliers && Parted(s.procs, s.appliers) && Granted(s, w, s.appliers[w].(stage := stage))
    ensures Parted(s.procs, ToStage(s, w, stage).appliers)
  {
  }

  lemma DoneParted(s: State, w: Caller, refusal: Option<ApplyError>)
    requires w in s.appliers && Parted(s.procs, s.appliers)
    ensures Parted(s.procs, ToStage(s, w, CouponRace.Done(refusal)).appliers)
  {
  }

  function AsEdit(r: CouponRace.Request): Edit
  {
    ApplyCoupon(r.tenant, r.cart, r.code, r.now, r.country)
  }

  function Rejected(s: State, w: Caller, e: ApplyError): State
    requires w in s.appliers
  {
    ToStage(s, w, CouponRace.Done(Some(e))).(log := s.log + [Applying(w, s.appliers[w].request, Some(e))])
  }

  lemma RefusedAtLast(cfg: Config, s: State, w: Caller, e: ApplyError)
    requires Inv(cfg, s) && w in s.appliers
    requires CouponRace.AtOnce(cfg.rules, cfg.policy, s.db.codes, LedgerOf(s.db), s.appliers[w].request) == Err(e)
    ensures Good(cfg, s, Rejected(s, w, e))
  {
    var r := s.appliers[w].request;
    DoneParted(s, w, Some(e));
    assert AfterEdit(cfg, s.db, AsEdit(r)) == s.db;
    OneMoreLogged(cfg, s, Rejected(s, w, e), Applying(w, r, Some(e)));
  }

  function Applied(s: State, w: Caller, l': Ledger): State
    requires w in s.appliers
  {
    ToStage(s, w, CouponRace.Done(None)).(
      db := s.db.(carts := l'.carts, coupons := l'.coupons), log := s.log + [Applying(w, s.appliers[w].request, None)])
  }

  lemma AppliedAtLast(cfg: Config, s: State, w: Caller, statement: CouponRace.Statement, l': Ledger)
    requires Inv(cfg, s) && w in s.appliers
    requires CouponRace.Next(cfg.rules, cfg.policy, s.db.codes, LedgerOf(s.db), s.appliers[w], statement)
          == CouponRace.CommitTo(l')
    requires CouponRace.AtOnce(cfg.rules, cfg.policy, s.db.codes, LedgerOf(s.db), s.appliers[w].request) == Ok(l')
    ensures Good(cfg, s, Applied(s, w, l'))
  {
    AppliedIsLogged(cfg, s, w, l');
    CouponRace.CommitWritesHeldRows(cfg.rules, cfg.policy, s.db.codes, LedgerOf(s.db), s.appliers[w], statement);
    DoneParted(s, w, None);
    AppliedKeepsProcs(cfg, s, w, l');
    AppliedKeepsAppliers(cfg, s, w, l');
  }

  lemma AppliedIsLogged(cfg: Config, s: State, w: Caller, l': Ledger)
    requires StoreOk(cfg, s.db) && w in s.appliers
    requires CouponRace.AtOnce(cfg.rules, cfg.policy, s.db.codes, LedgerOf(s.db), s.appliers[w].request) == Ok(l')
    ensures StoreOk(cfg, Applied(s, w, l').db) && LoggedIn(cfg, s, Applied(s, w, l'))
  {
    var r, s' := s.appliers[w].request, Applied(s, w, l');
    assert s'.db == AfterEdit(cfg, s.db, AsEdit(r));
    EditKeepsStore(cfg, s.db, AsEdit(r));
    OneMoreLogged(cfg, s, s', Applying(w, r, None));
  }

  lemma AppliedKeepsProcs(cfg: Config, s: State, w: Caller, l': Ledger)
    requires w in s.appliers && StoreOk(cfg, s.db) && ProcsOk(cfg, s) && Parted(s.procs, s.appliers)
    requires WritesHeld(LedgerOf(s.db), l', s.appliers[w])
    ensures ProcsOk(cfg, Applied(s, w, l'))
  {
    forall q | q in s.procs ensures ProcOk(cfg, Applied(s, w, l').db, q, s.procs[q]) {
      assert ProcOk(cfg, s.db, q, s.procs[q]) && Unshared(s.procs[q], s.appliers[w]);
      AppliedUntouched(s, w, l', q);
      ProcFrame(cfg, s.db, Applied(s, w, l').db, q, s.procs[q]);
    }
  }

  lemma AppliedKeepsAppliers(cfg: Config, s: State, w: Caller, l': Ledger)
    requires w in s.appliers && AppliersOk(cfg, s.db, s.appliers) && Parted(s.procs, s.appliers)
    requires WritesHeld(LedgerOf(s.db), l', s.appliers[w])
    ensures AppliersOk(cfg, Applied(s, w, l').db, Applied(s, w, l').appliers)
  {
    forall v | v in s.appliers && v != w ensures ApplierOk(cfg, Applied(s, w, l').db, s.appliers[v]) {
      assert Disjoint(s.appliers[v], s.appliers[w]) && ApplierOk(cfg, s.db, s.appliers[v]);
      AppliedStays(cfg, s, w, l', v);
    }
  }

  /** Only the two rows held are written. */
  ghost predicate WritesHeld(l: Ledger, l': Ledger, ap: CouponRace.Applier)
  {
    && (forall c :: c in l.carts && !CouponRace.HoldsCartRow(ap, c) ==> c in l'.carts && l'.carts[c] == l.carts[c])
    && (forall k :: k in l.coupons && !CouponRace.HoldsCouponRow(ap, k) ==> k in l'.coupons && l'.coupons[k] == l.coupons[k])
    && SameTerms(l.coupons, l'.coupons)
  }

  lemma AppliedUntouched(s: State, w: Caller, l': Ledger, q: Process)
    requires w in s.appliers && q in s.procs && Unshared(s.procs[q], s.appliers[w])
    requires WritesHeld(LedgerOf(s.db), l', s.appliers[w])
    ensures Untouched(s.db, s.db.(carts := l'.carts, coupons := l'.coupons), q, s.procs[q])
  {
    var proc := s.procs[q];
    if InTransaction(proc.phase) {
      assert HoldsCart(proc, proc.attempt.cart);
    }
    if HasRows(proc.phase) {
      forall i | 0 <= i < |proc.phase.cart.applied| ensures HoldsCoupon(proc, proc.phase.cart.applied[i].coupon) {
      }
    }
  }

  lemma AppliedStays(cfg: Config, s: State, w: Caller, l': Ledger, v: Caller)
    requires w in s.appliers && v in s.appliers && Disjoint(s.appliers[v], s.appliers[w])
    requires WritesHeld(LedgerOf(s.db), l', s.appliers[w]) && ApplierOk(cfg, s.db, s.appliers[v])
    ensures ApplierOk(cfg, s.db.(carts := l'.carts, coupons := l'.coupons), s.appliers[v])
  {
    CouponRace.StageStays(cfg.rules, cfg.policy, s.db.codes, LedgerOf(s.db), l', s.appliers[v]);
  }

  lemma StartApplyKeeps(cfg: Config, s: State, w: Caller, r: CouponRace.Request)
    requires Inv(cfg, s) && w !in s.appliers
    ensures Good(cfg, s, s.(appliers := s.appliers[w := CouponRace.Applier(r, CouponRace.Asked)]))
  {
  }

  // ------------------------------------------------------------- workers

  /** Workers write statuses and invoices, and no row that a checkout or an application reads. */
  ghost predicate OnlyWorked(db: Db, db': Db)
  {
    && db' == db.(orders := db'.orders, payments := db'.payments, invoices := db'.invoices, sequences := db'.sequences)
    && db'.orders.Keys == db.orders.Keys && Shop.OrdersStep(db.orders, db'.orders)
    && db'.payments.Keys == db.payments.Keys && Shop.PaymentsStep(db.payments, db'.payments)
  }

  lemma WorkIsOnlyThat(cfg: Config, s: Shop.State, e: Shop.Event)
    requires !e.Change? && !e.Place?
    ensures OnlyWorked(s.db, Shop.Step(cfg, s, e).db)
  {
    if e.Settle? {
      ShopLaws.SettleStep(cfg, s, e.w, e.answer);
      if e.w in s.jobs {
        ShopLaws.SettledMoves(s.db, s.jobs[e.w], e.answer);
      }
    }
  }

  lemma WorkKeepsStore(cfg: Config, db: Db, db': Db)
    requires StoreOk(cfg, db) && OnlyWorked(db, db')
    ensures StoreOk(cfg, db')
  {
    ShopLaws.StatusesKeepStore(cfg, db, db');
  }

  lemma WorkKeepsProc(cfg: Config, db: Db, db': Db, q: Process, proc: Proc)
    requires StoreOk(cfg, db) && OnlyWorked(db, db') && ProcOk(cfg, db, q, proc)
    ensures ProcOk(cfg, db', q, proc)
  {
    WorkUntouched(db, db', q, proc);
    ProcFrame(cfg, db, db', q, proc);
  }

  lemma WorkUntouched(db: Db, db': Db, q: Process, proc: Proc)
    requires OnlyWorked(db, db')
    ensures Untouched(db, db', q, proc)
  {
    assert q in db.orders.Keys <==> q in db'.orders.Keys;
    assert q in db.payments.Keys <==> q in db'.payments.Keys;
  }

  lemma WorkKeeps(cfg: Config, s: State, e: Shop.Event)
    requires Inv(cfg, s)
    ensures Good(cfg, s, StepWork(cfg, s, e))
  {
    StutterIsGood(cfg, s);
    if !e.Change? && !e.Place? {
      var s' := StepWork(cfg, s, e);
      WorkIsOnlyThat(cfg, ShopOf(s), e);
      WorkKeepsStore(cfg, s.db, s'.db);
      forall q | q in s.procs ensures ProcOk(cfg, s'.db, q, s.procs[q]) {
        WorkKeepsProc(cfg, s.db, s'.db, q, s.procs[q]);
      }
      assert AppliersOk(cfg, s'.db, s.appliers) by {
        assert forall w :: w in s.appliers ==> ApplierOk(cfg, s.db, s.appliers[w]) == ApplierOk(cfg, s'.db, s.appliers[w]);
      }
      OneMoreLogged(cfg, s, s', Working(e));
    }
  }

  // ------------------------------------------------------------- any step

  lemma StepKeeps(cfg: Config, s: State, e: Event)
    requires Inv(cfg, s)
    ensures Good(cfg, s, Step(cfg, s, e))
  {
    if OfProcess(e) {
      ProcessStepKeeps(cfg, s, e);
    } else {
      OtherStepKeeps(cfg, s, e);
    }
  }

  /** The steps of everyone but checkouts. */
  lemma OtherStepKeeps(cfg: Config, s: State, e: Event)
    requires Inv(cfg, s) && !OfProcess(e)
    ensures Good(cfg, s, Step(cfg, s, e))
  {
    match e {
      case Start(p, a) => StartStepKeeps(cfg, s, p, a);
      case LoseSentinel(_, _) => LossKeeps(cfg, s, e);
      case LoseLock(_, _) => LossKeeps(cfg, s, e);
      case EditCart(edit) => EditStepKeeps(cfg, s, edit);
      case StartApply(w, r) => StartApplyStepKeeps(cfg, s, w, r);
      case CouponStep(w, statement) => CouponStepKeeps(cfg, s, w, statement);
      case Work(event) => WorkStepKeeps(cfg, s, event);
    }
  }

  lemma StartStepKeeps(cfg: Config, s: State, p: Process, a: Attempt)
    requires Inv(cfg, s)
    ensures Good(cfg, s, Step(cfg, s, Event.Start(p, a)))
  {
    StutterIsGood(cfg, s);
    if p !in s.procs && p !in s.db.orders && p !in s.db.payments {
      StartKeeps(cfg, s, p, a);
    }
  }

  lemma StartApplyStepKeeps(cfg: Config, s: State, w: Caller, r: CouponRace.Request)
    requires Inv(cfg, s)
    ensures Good(cfg, s, Step(cfg, s, StartApply(w, r)))
  {
    StutterIsGood(cfg, s);
    if w !in s.appliers {
      StartApplyKeeps(cfg, s, w, r);
    }
  }

  lemma EditStepKeeps(cfg: Config, s: State, e: Edit)
    requires Inv(cfg, s)
    ensures Good(cfg, s, Step(cfg, s, EditCart(e)))
  {
    StepOfEdit(cfg, s, e);
    EditKeeps(cfg, s, e);
  }

  lemma WorkStepKeeps(cfg: Config, s: State, e: Shop.Event)
    requires Inv(cfg, s)
    ensures Good(cfg, s, Step(cfg, s, Work(e)))
  {
    WorkKeeps(cfg, s, e);
  }

  lemma LossKeeps(cfg: Config, s: State, e: Event)
    requires Inv(cfg, s) && (e.LoseSentinel? || e.LoseLock?)
    ensures Good(cfg, s, Step(cfg, s, e))
  {
  }

  lemma CouponStepKeeps(cfg: Config, s: State, w: Caller, statement: CouponRace.Statement)
    requires Inv(cfg, s)
    ensures Good(cfg, s, Step(cfg, s, CouponStep(w, statement)))
  {
    StutterIsGood(cfg, s);
    if w in s.appliers {
      ApplyKeeps(cfg, s, w, statement);
    }
  }

  lemma ProcessStepKeeps(cfg: Config, s: State, e: Event)
    requires Inv(cfg, s) && OfProcess(e)
    ensures Good(cfg, s, Step(cfg, s, e))
  {
    StepOfProcess(cfg, s, e);
    StutterIsGood(cfg, s);
    if e.p in s.procs {
      if Quiet(e) {
        ProcessQuietlyKeeps(cfg, s, e);
      } else {
        TransactionStepKeeps(cfg, s, e);
      }
    }
  }

  lemma TransactionStepKeeps(cfg: Config, s: State, e: Event)
    requires Inv(cfg, s) && OfProcess(e) && !Quiet(e) && e.p in s.procs
    ensures Good(cfg, s, ProcessStep(cfg, s, e))
  {
    StutterIsGood(cfg, s);
    var phase := s.procs[e.p].phase;
    match e {
      case LockCart(p) => if phase.Locked? { LockCartKeeps(cfg, s, p); }
      case Validate(p) => if phase.CartHeld? { ValidateKeeps(cfg, s, p); }
      case Take(p) => if phase.Taking? { TakeKeeps(cfg, s, p); }
      case MarkCart(p) => if phase.Taking? { MarkCartKeeps(cfg, s, p); }
      case InsertRecord(p) => if phase.CartMarked? { InsertRecordKeeps(cfg, s, p); }
      case Commit(p) => if phase.KeyHeld? { CommitKeeps(cfg, s, p); }
    }
  }

  lemma ProcessQuietlyKeeps(cfg: Config, s: State, e: Event)
    requires Inv(cfg, s) && Quiet(e) && e.p in s.procs
    ensures Good(cfg, s, ProcessStep(cfg, s, e))
  {
    QuietIsQuiet(cfg, s, e);
    QuietKeeps(cfg, s, ProcessStep(cfg, s, e), e.p);
  }

  lemma QuietKeeps(cfg: Config, s: State, s': State, p: Process)
    requires Inv(cfg, s) && p in s.procs && QuietStep(s, s', p)
    ensures Good(cfg, s, s')
  {
    StutterIsGood(cfg, s);
    if s' != s {
      assert ProcOk(cfg, s.db, p, s.procs[p]);
      QuietPhaseOk(cfg, s, p, s'.procs[p].phase);
      MovedWithin(cfg, s, p, s'.procs[p].phase);
      KeysAside(cfg, s, To(s, p, s'.procs[p].phase), s');
    }
  }

  /** Redis keys are no concern of the invariant. */
  lemma KeysAside(cfg: Config, s: State, s1: State, s2: State)
    requires Good(cfg, s, s1) && s2 == s1.(sentinels := s2.sentinels, locks := s2.locks)
    ensures Good(cfg, s, s2)
  {
  }

  lemma QuietPhaseOk(cfg: Config, s: State, p: Process, phase: Phase)
    requires p in s.procs && ProcOk(cfg, s.db, p, s.procs[p]) && PhaseStep(s, p, phase)
    requires forall k :: k in s.db.records ==> Backed(s.db, k)
    ensures ProcOk(cfg, s.db, p, Proc(s.procs[p].attempt, phase)) && HoldsNoMore(s.procs[p].phase, phase)
  {
    var k := (s.procs[p].attempt.tenant, s.procs[p].attempt.key);
    assert k in s.db.records ==> Backed(s.db, k);
  }

  lemma StartKeeps(cfg: Config, s: State, p: Process, a: Attempt)
    requires Inv(cfg, s)
    requires p !in s.procs && p !in s.db.orders && p !in s.db.payments
    ensures Inv(cfg, s.(procs := s.procs[p := Proc(a, Arrived)]))
  {
    forall q | q in s.procs
      ensures Apart(Proc(a, Arrived), s.procs[q]) && Apart(s.procs[q], Proc(a, Arrived))
    {
    }
  }

  // ------------------------------------------------------------- all runs

  lemma SerialSnoc(cfg: Config, s0: Shop.State, log: seq<Txn>, t: Txn)
    ensures Serial(cfg, s0, log + [t]) == Shop.Step(cfg, Serial(cfg, s0, log), ShopEvent(t))
  {
    assert Events(log + [t]) == Events(log) + [ShopEvent(t)];
    ShopLaws.RunSnoc(cfg, s0, Events(log), ShopEvent(t));
  }

  lemma OneMoreAnswer(cfg: Config, s0: Shop.State, log: seq<Txn>, t: Txn)
    requires SeriallyFaithful(cfg, s0, log) && Faithful(cfg, Serial(cfg, s0, log).db, t)
    ensures SeriallyFaithful(cfg, s0, log + [t])
  {
    var log' := log + [t];
    forall i | 0 <= i < |log'| ensures Faithful(cfg, Serial(cfg, s0, log'[..i]).db, log'[i]) {
      if i < |log| {
        assert log'[..i] == log[..i] && log'[i] == log[i];
        assert Faithful(cfg, Serial(cfg, s0, log[..i]).db, log[i]);
      } else {
        assert log'[..i] == log && log'[i] == t;
      }
    }
  }

  lemma Explains(cfg: Config, s0: Shop.State, s: State, s': State, t: Txn)
    requires Explained(cfg, s0, s) && s'.log == s.log + [t] && Accounts(cfg, s, s', t)
    ensures Explained(cfg, s0, s')
  {
    SerialSnoc(cfg, s0, s.log, t);
    OneMoreAnswer(cfg, s0, s.log, t);
  }

  lemma LastLogged(cfg: Config, s: State, s': State) returns (t: Txn)
    requires LoggedIn(cfg, s, s') && s'.log != s.log
    ensures s'.log == s.log + [t] && Accounts(cfg, s, s', t)
  {
    t := s'.log[|s'.log| - 1];
    assert s'.log == s'.log[..|s'.log| - 1] + [t];
  }

  lemma Logged(cfg: Config, s0: Shop.State, s: State, s': State)
    requires Explained(cfg, s0, s) && LoggedIn(cfg, s, s')
    ensures Explained(cfg, s0, s')
  {
    if s'.log != s.log {
      var t := LastLogged(cfg, s, s');
      Explains(cfg, s0, s, s', t);
    }
  }

  lemma {:induction false} RunKeepsInv(cfg: Config, s: State, es: seq<Event>)
    requires Inv(cfg, s)
    ensures Inv(cfg, Run(cfg, s, es))
  {
    if es != [] {
      RunKeepsInv(cfg, s, es[..|es| - 1]);
      StepKeeps(cfg, Run(cfg, s, es[..|es| - 1]), es[|es| - 1]);
    }
  }

  /** The shop before any worker has begun. */
  function Opening(db: Db): Shop.State
  {
    Shop.State(db, map[], map[])
  }

  lemma {:induction false} RunKeeps(cfg: Config, db0: Db, es: seq<Event>)
    requires StoreOk(cfg, db0)
    ensures var s := Run(cfg, Initial(db0), es); Inv(cfg, s) && Explained(cfg, Opening(db0), s)
  {
    if es != [] {
      RunKeeps(cfg, db0, es[..|es| - 1]);
      var s, e := Run(cfg, Initial(db0), es[..|es| - 1]), es[|es| - 1];
      StepKeeps(cfg, s, e);
      Logged(cfg, Opening(db0), s, Step(cfg, s, e));
    }
  }

  /**
   Whatever the interleaving, the crashes, the database aborts and the losses in Redis: the committed
   database and what workers remember are what the logged transactions give when run one after the other
   in commit order, each at one instant; each returned what it returns there; and the store is consistent.
   */
  lemma EveryRunIsSerial(cfg: Config, db0: Db, es: seq<Event>)
    requires StoreOk(cfg, db0)
    ensures var s := Run(cfg, Initial(db0), es);
            && ShopOf(s) == Shop.Run(cfg, Opening(db0), Events(s.log))
            && SeriallyFaithful(cfg, Opening(db0), s.log)
            && StoreOk(cfg, s.db)
  {
    RunKeeps(cfg, db0, es);
  }

  ghost predicate Answered(s: State, p: Process, outcome: Outcome)
  {
    At(s, p, Returned(outcome))
  }

  lemma ReachedProcess(cfg: Config, db0: Db, es: seq<Event>, p: Process)
    requires StoreOk(cfg, db0)
    ensures var s := Run(cfg, Initial(db0), es); p in s.procs ==> ProcOk(cfg, s.db, p, s.procs[p])
  {
    RunKeeps(cfg, db0, es);
  }

  /** A returned result is recorded, and its order stands. */
  lemma ReachedAnswer(cfg: Config, db0: Db, es: seq<Event>, p: Process, r: CheckoutResult)
    requires StoreOk(cfg, db0) && Answered(Run(cfg, Initial(db0), es), p, Ok(r))
    ensures var s0 := Run(cfg, Initial(db0), es);
            var a := s0.procs[p].attempt;
            && OutcomeOk(s0.db, a, Ok(r))
            && r.orderId in s0.db.orders && s0.db.orders[r.orderId].total == r.total
            && s0.db.orders[r.orderId].tenant == a.tenant && s0.db.orders[r.orderId].key == a.key
  {
    ReachedProcess(cfg, db0, es, p);
    RunKeeps(cfg, db0, es);
    var s0 := Run(cfg, Initial(db0), es);
    assert Backed(s0.db, (s0.procs[p].attempt.tenant, s0.procs[p].attempt.key));
  }

  /** Two calls with one key that both succeed had one request hash and return one result, that of an existing order. */
  lemma OneAnswerPerKey(cfg: Config, db0: Db, es: seq<Event>, p: Process, q: Process, r: CheckoutResult, r': CheckoutResult)
    requires StoreOk(cfg, db0)
    requires Answered(Run(cfg, Initial(db0), es), p, Ok(r)) && Answered(Run(cfg, Initial(db0), es), q, Ok(r'))
    ensures var s := Run(cfg, Initial(db0), es);
            var a, a' := s.procs[p].attempt, s.procs[q].attempt;
            && (a.tenant == a'.tenant && a.key == a'.key ==> r == r' && a.hash == a'.hash)
            && r.orderId in s.db.orders && s.db.orders[r.orderId].total == r.total
            && s.db.orders[r.orderId].tenant == a.tenant && s.db.orders[r.orderId].key == a.key
  {
    ReachedAnswer(cfg, db0, es, p, r);
    ReachedAnswer(cfg, db0, es, q, r');
  }

  /** No run reaches the two errors that would betray a lost update or a torn record. */
  lemma TwoErrorsAreUnreachable(cfg: Config, db0: Db, es: seq<Event>, p: Process)
    requires StoreOk(cfg, db0)
    ensures var s := Run(cfg, Initial(db0), es);
            !Answered(s, p, Err(CartStaleVersion)) && !Answered(s, p, Err(BrokenRecord))
  {
    ReachedProcess(cfg, db0, es, p);
  }

  /**
   Exactly once, on the committed rows and whatever Redis loses: a cart is checked out exactly when it
   has an order and a payment, it never has two of either, and a key never has two orders.
   */
  lemma ExactlyOnceUnderFaultyRedis(cfg: Config, db0: Db, es: seq<Event>, c: CartId, o: OrderId, o': OrderId,
                                    p: PaymentId, p': PaymentId)
    requires StoreOk(cfg, db0)
    ensures var db := Run(cfg, Initial(db0), es).db;
            && (c in db.carts ==> (db.carts[c].status == CheckedOut <==> HasOrder(db.orders, c))
                                  && (HasOrder(db.orders, c) <==> HasPayment(db.payments, c)))
            && (o in db.orders && o' in db.orders && o != o' ==>
                  db.orders[o].cart != db.orders[o'].cart && !SameKey(db.orders[o], db.orders[o']))
            && (p in db.payments && p' in db.payments && p != p' ==> db.payments[p].cart != db.payments[p'].cart)
  {
    RunKeeps(cfg, db0, es);
    var db := Run(cfg, Initial(db0), es).db;
    if c in db.carts {
      ExactlyOnce(db, c, o, o', p, p');
    }
    if o in db.orders && o' in db.orders {
      assert OrderOk(db, o);
      ExactlyOnce(db, db.orders[o].cart, o, o', p, p');
    }
  }
}
