/**
 Checkouts and coupon applications cut into steps, next to workers that are stale, started twice or
 dying: the shop they make together keeps what the shop of one-instant transactions keeps.
 */
module Composition {
  import opened Schema
  import opened CartRules
  import opened CouponRules
  import opened CouponLaws
  import opened Checkout
  import opened Sales
  import opened Protocol
  import opened ProtocolSteps
  import opened ProtocolLaws
  import CouponRace
  import Shop
  import ShopLaws
  import Tenancy

  // ------------------------------------------------------- the shop's laws

  lemma RunsOfTheShop(cfg: Config, db0: Db, es: seq<Event>)
    requires StoreOk(cfg, db0)
    ensures var s := Run(cfg, Initial(db0), es); ShopOf(s) == Shop.Run(cfg, Opening(db0), Events(s.log)) && Inv(cfg, s)
  {
    RunKeeps(cfg, db0, es);
  }

  /**
   What the shop keeps in every run of one-instant transactions holds in every state that checkouts,
   applications and workers reach together, step by step: above all that money agrees across order,
   payment and invoice, that orders and payments move in pairs, and that invoice numbers have no gaps.
   */
  lemma TheShopIsKept(cfg: Config, db0: Db, es: seq<Event>)
    requires Shop.ShopOk(cfg, Opening(db0))
    ensures var s := Run(cfg, Initial(db0), es);
            && Shop.ShopOk(cfg, ShopOf(s)) && ShopLaws.Later(db0, s.db)
            && (OneActive(db0.carts) ==> OneActive(s.db.carts))
  {
    RunsOfTheShop(cfg, db0, es);
    var log := Run(cfg, Initial(db0), es).log;
    ShopLaws.RunKeeps(cfg, Opening(db0), Events(log));
    ShopLaws.NothingIsRewritten(cfg, Opening(db0), Events(log));
    if OneActive(db0.carts) {
      ShopLaws.OneActiveCartPerUser(cfg, Opening(db0), Events(log));
    }
  }

  lemma LoggedMoves(cfg: Config, s: State, s': State)
    requires Shop.ShopOk(cfg, ShopOf(s)) && LoggedIn(cfg, s, s')
    ensures Shop.Moves(s.db, s'.db)
  {
    if s'.log == s.log {
      ShopLaws.Still(s.db, s'.db);
    } else {
      var t := LastLogged(cfg, s, s');
      ShopLaws.StepKeeps(cfg, ShopOf(s), ShopEvent(t));
    }
  }

  /**
   No step of anyone, between whatever steps of others, moves a payment off the edges of its state
   machine, or an order away from its payment.
   */
  lemma EveryInterleavedStepFollowsTheEdges(cfg: Config, db0: Db, es: seq<Event>, e: Event)
    requires Shop.ShopOk(cfg, Opening(db0))
    ensures var s := Run(cfg, Initial(db0), es); Shop.Moves(s.db, Step(cfg, s, e).db)
  {
    var s := Run(cfg, Initial(db0), es);
    TheShopIsKept(cfg, db0, es);
    RunsOfTheShop(cfg, db0, es);
    StepKeeps(cfg, s, e);
    LoggedMoves(cfg, s, Step(cfg, s, e));
  }

  // ---------------------------------------------- the race for the last use

  /** The application has read the coupon, and still holds its row. */
  predicate HasCoupon(s: State, w: Caller, k: CouponId)
  {
    w in s.appliers && CouponRace.HoldsCouponRow(s.appliers[w], k)
  }

  /**
   Applications racing for a coupon, statement by statement: in every reachable state its counter is the
   number of carts that hold it and within its cap, in the column or only in the JSON; and of two
   applications and a checkout at most one holds its row, so none checks a counter that is about to change.
   */
  lemma RacingApplicationsRespectTheCap(cfg: Config, db0: Db, es: seq<Event>, k: CouponId, v: Caller, w: Caller, p: Process)
    requires StoreOk(cfg, db0)
    ensures var s := Run(cfg, Initial(db0), es);
            && (k in s.db.coupons ==>
                  && s.db.coupons[k].used == |Holders(s.db.carts, k)|
                  && (s.db.coupons[k].usageLimit.Some? ==> s.db.coupons[k].used <= s.db.coupons[k].usageLimit.value)
                  && WithinCap(s.db.coupons[k]))
            && (HasCoupon(s, v, k) && HasCoupon(s, w, k) ==> v == w)
            && (HasCoupon(s, w, k) && p in s.procs ==> !HoldsCoupon(s.procs[p], k))
  {
    RunKeeps(cfg, db0, es);
    var s := Run(cfg, Initial(db0), es);
    if k in s.db.coupons {
      assert UsesOk(LedgerOf(s.db));
    }
    OneHolder(s, k, v, w, p);
  }

  lemma OneHolder(s: State, k: CouponId, v: Caller, w: Caller, p: Process)
    requires Parted(s.procs, s.appliers)
    ensures HasCoupon(s, v, k) && HasCoupon(s, w, k) ==> v == w
    ensures HasCoupon(s, w, k) && p in s.procs ==> !HoldsCoupon(s.procs[p], k)
  {
    assert v in s.appliers && w in s.appliers && v != w ==> Disjoint(s.appliers[v], s.appliers[w]);
    assert w in s.appliers && p in s.procs ==> Unshared(s.procs[p], s.appliers[w]);
  }

  // ---------------------------------------------------------------- tenants

  /** Identifiers are drawn for the tenant that uses them, and a task runs in the tenant of its payment or order. */
  predicate Drawn(owners: Tenancy.Owners, e: Event)
  {
    match e
    case Start(p, a) => owners.order(p) == a.tenant
    case EditCart(edit) => Tenancy.Drawn(owners, Shop.Change(edit))
    case Work(event) => Tenancy.Drawn(owners, event)
    case _ => true
  }

  ghost predicate LogDrawn(owners: Tenancy.Owners, s: State)
  {
    && (forall p :: p in s.procs ==> owners.order(p) == s.procs[p].attempt.tenant)
    && (forall i :: 0 <= i < |s.log| ==> Tenancy.Drawn(owners, ShopEvent(s.log[i])))
  }

  lemma ShapeDraws(owners: Tenancy.Owners, s: State, e: Event, s': State)
    requires LogDrawn(owners, s) && Drawn(owners, e) && Shape(s, e, s')
    ensures LogDrawn(owners, s')
  {
    if s' != s && OfProcess(e) {
      CheckoutDraws(owners, s, s', e.p);
    }
  }

  lemma CheckoutDraws(owners: Tenancy.Owners, s: State, s': State, p: Process)
    requires LogDrawn(owners, s) && CheckoutStep(s, s', p)
    ensures LogDrawn(owners, s')
  {
  }

  lemma {:induction false} RunDraws(cfg: Config, owners: Tenancy.Owners, db0: Db, es: seq<Event>)
    requires forall i :: 0 <= i < |es| ==> Drawn(owners, es[i])
    ensures LogDrawn(owners, Run(cfg, Initial(db0), es))
    decreases |es|
  {
    if es != [] {
      var s, e := Run(cfg, Initial(db0), es[..|es| - 1]), es[|es| - 1];
      RunDraws(cfg, owners, db0, es[..|es| - 1]);
      StepShape(cfg, s, e);
      ShapeDraws(owners, s, e, Step(cfg, s, e));
    }
  }

  /**
   Non-interference, step by step: however checkouts, applications and workers of all tenants
   interleave, wait for each other's rows, crash and retry, what one tenant has afterwards is what its
   own committed transactions, alone and in the order of the log, give on its own rows.
   */
  lemma InterleavedTenantsDoNotInterfere(cfg: Config, owners: Tenancy.Owners, db0: Db, es: seq<Event>, t: TenantId)
    requires Shop.ShopOk(cfg, Opening(db0)) && Tenancy.Belongs(owners, Opening(db0))
    requires forall i :: 0 <= i < |es| ==> Drawn(owners, es[i])
    ensures var s := Run(cfg, Initial(db0), es);
            Tenancy.Part(owners, ShopOf(s), t)
            == Shop.Run(cfg, Tenancy.Part(owners, Opening(db0), t), Tenancy.Only(owners, Events(s.log), t))
  {
    RunsOfTheShop(cfg, db0, es);
    RunDraws(cfg, owners, db0, es);
    Tenancy.TenantsDoNotInterfere(cfg, owners, Opening(db0), Events(Run(cfg, Initial(db0), es).log), t);
  }
}
