/**
 Applying, removing and revalidating coupons: the discount snapshots of carts and the usage counters
 of coupons change together.
 */
module CouponRules {
  import opened Schema
  import opened CartRules
  import opened Validation
  import Money

  datatype Policy = AnyNumber | OnePerDiscountType | SingleOnly

  /** The two tables that coupon services change together. */
  datatype Ledger = Ledger(carts: Carts, coupons: Coupons)

  datatype ApplyError = Refused(reason: CouponError) | OnCart(error: CartError)

  // ------------------------------------------------------------- discounts

  /** The discount snapshot of a coupon on a cart, given what the cart's other coupons take off. */
  function ComputeDiscount(coupon: Coupon, total: nat, already: nat): nat
  {
    if coupon.discountType.Percentage? then Money.PercentageDiscount(total, coupon.value)
    else
      var remaining: int := total - already;
      if remaining <= 0 then 0 else if coupon.value <= remaining then coupon.value else remaining
  }

  // -------------------------------------------------------------- stacking

  predicate Has(applied: seq<Application>, coupon: CouponId)
  {
    exists i :: 0 <= i < |applied| && applied[i].coupon == coupon
  }

  predicate TypeTaken(coupons: Coupons, applied: seq<Application>, discountType: DiscountType)
  {
    exists i :: 0 <= i < |applied| && applied[i].coupon in coupons
                && coupons[applied[i].coupon].discountType == discountType
  }

  predicate Conflict(policy: Policy, coupons: Coupons, applied: seq<Application>, candidate: Coupon)
  {
    match policy
    case AnyNumber => false
    case SingleOnly => applied != []
    case OnePerDiscountType => TypeTaken(coupons, applied, candidate.discountType)
  }

  // ------------------------------------------------- services, as functions

  function ContextOf(cart: Cart, now: int, country: Option<string>): Context
  {
    Context(cart.total, country, now)
  }

  function Apply(rules: Rules, policy: Policy, codes: Codes, l: Ledger, tenant: TenantId, cart: CartId, code: string,
                 now: int, country: Option<string>): Result<Ledger, ApplyError>
  {
    if (tenant, code) !in codes || codes[(tenant, code)] !in l.coupons
       || !l.coupons[codes[(tenant, code)]].active then Err(Refused(CouponNotFound))
    else
      var id := codes[(tenant, code)];
      var coupon := l.coupons[id];
      if !Owned(l.carts, tenant, cart) then Err(OnCart(CartMissing))
      else
        var row := l.carts[cart];
        if Has(row.applied, id) then Err(Refused(CouponAlreadyApplied))
        else if Conflict(policy, l.coupons, row.applied, coupon) then Err(Refused(CouponStackingViolation))
        else
          match Verdict(rules, coupon, ContextOf(row, now, country))
          case Some(e) => Err(Refused(e))
          case None =>
            if coupon.usageLimit.Some? && coupon.used >= coupon.usageLimit.value then Err(Refused(CouponLimitReached))
            else
              var snapshot := ComputeDiscount(coupon, row.total, SumApplied(row.applied));
              match Recalculated(row.(applied := row.applied + [Application(id, snapshot)]))
              case Err(e) => Err(OnCart(e))
              case Ok(row') =>
                Ok(Ledger(l.carts[cart := row'], l.coupons[id := coupon.(used := coupon.used + 1)]))
  }

  function Without(applied: seq<Application>, coupon: CouponId): seq<Application>
  {
    if applied == [] then []
    else if applied[0].coupon == coupon then applied[1..]
    else [applied[0]] + Without(applied[1..], coupon)
  }

  /** The guarded decrement: no row is matched at zero. */
  function Released(coupons: Coupons, tenant: TenantId, id: CouponId): Coupons
  {
    if id in coupons && coupons[id].tenant == tenant && coupons[id].used > 0
    then coupons[id := coupons[id].(used := coupons[id].used - 1)]
    else coupons
  }

  function Unapply(l: Ledger, tenant: TenantId, cart: CartId, id: CouponId): Result<Ledger, ApplyError>
  {
    if !Owned(l.carts, tenant, cart) then Err(OnCart(CartMissing))
    else
      var row := l.carts[cart];
      var coupons := if Has(row.applied, id) then Released(l.coupons, tenant, id) else l.coupons;
      match Recalculated(row.(applied := Without(row.applied, id)))
      case Err(e) => Err(OnCart(e))
      case Ok(row') => Ok(Ledger(l.carts[cart := row'], coupons))
  }

  /** The error of the first coupon of a cart that no longer passes. */
  function FirstRefusal(rules: Rules, coupons: Coupons, applied: seq<Application>, ctx: Context)
    : Option<CouponError>
  {
    if applied == [] then None
    else if applied[0].coupon !in coupons then FirstRefusal(rules, coupons, applied[1..], ctx)
    else
      match Verdict(rules, coupons[applied[0].coupon], ctx)
      case Some(e) => Some(e)
      case None => FirstRefusal(rules, coupons, applied[1..], ctx)
  }

  function Revalidated(rules: Rules, coupons: Coupons, cart: Cart, now: int, country: Option<string>)
    : Result<Cart, ApplyError>
  {
    match FirstRefusal(rules, coupons, cart.applied, ContextOf(cart, now, country))
    case Some(e) => Err(Refused(e))
    case None =>
      match Recalculated(cart)
      case Err(e) => Err(OnCart(e))
      case Ok(cart') => Ok(cart')
  }

  function Revalidate(rules: Rules, l: Ledger, tenant: TenantId, cart: CartId, now: int, country: Option<string>)
    : Result<Ledger, ApplyError>
  {
    if !Owned(l.carts, tenant, cart) then Err(OnCart(CartMissing))
    else
      match Revalidated(rules, l.coupons, l.carts[cart], now, country)
      case Err(e) => Err(e)
      case Ok(row') => Ok(l.(carts := l.carts[cart := row']))
  }

  // ------------------------------------------------- services, step by step

  class CouponService {
    const validator: CouponValidator
    const policy: Policy

    constructor (validator: CouponValidator, policy: Policy)
      ensures this.validator == validator && this.policy == policy
    {
      this.validator := validator;
      this.policy := policy;
    }

    /** The outcome of a service call whose effect on the ledger is `spec`: its cart, or an error and no effect. */
    ghost predicate Effect(before: Ledger, after: Ledger, spec: Result<Ledger, ApplyError>,
                           r: Result<Cart, ApplyError>, cart: CartId)
    {
      match spec
      case Ok(l) => after == l && cart in l.carts && r == Ok(l.carts[cart])
      case Err(e) => after == before && r == Err(e)
    }

    method ApplyCouponToCart(d: Database, tenant: TenantId, cart: CartId, code: string, now: int,
                             country: Option<string>)
      returns (r: Result<Cart, ApplyError>)
      modifies d`carts, d`coupons
      ensures Effect(old(Ledger(d.carts, d.coupons)), Ledger(d.carts, d.coupons),
                     Apply(validator.rules, policy, d.codes, old(Ledger(d.carts, d.coupons)), tenant, cart, code, now, country), r, cart)
    {
      if (tenant, code) !in d.codes || d.codes[(tenant, code)] !in d.coupons
         || !d.coupons[d.codes[(tenant, code)]].active {
        return Err(Refused(CouponNotFound));
      }
      var id := d.codes[(tenant, code)];
      var coupon := d.coupons[id];
      if cart !in d.carts || d.carts[cart].tenant != tenant {
        return Err(OnCart(CartMissing));
      }
      var carts, coupons := d.carts, d.coupons;
      var locked := d.carts[cart];
      if Has(locked.applied, id) {
        return Err(Refused(CouponAlreadyApplied));
      }
      var conflict := EnforceStackingPolicy(d, locked.applied, coupon);
      if conflict {
        return Err(Refused(CouponStackingViolation));
      }
      var refusal := validator.Validate(coupon, ContextOf(locked, now, country));
      if refusal.Some? {
        return Err(Refused(refusal.value));
      }
      var snapshot := ComputeDiscount(coupon, locked.total, SumApplied(locked.applied));
      d.carts := d.carts[cart := locked.(applied := locked.applied + [Application(id, snapshot)])];
      var counted := IncrementUsedCount(d, id);
      if !counted {
        d.carts, d.coupons := carts, coupons;
        return Err(Refused(CouponLimitReached));
      }
      var result := RecalculateCart(d, cart);
      if result.Err? {
        d.carts, d.coupons := carts, coupons;
        return Err(OnCart(result.error));
      }
      r := Ok(result.value);
    }

    method EnforceStackingPolicy(d: Database, applied: seq<Application>, candidate: Coupon) returns (conflict: bool)
      ensures conflict <==> Conflict(policy, d.coupons, applied, candidate)
    {
      if policy.AnyNumber? {
        return false;
      }
      if policy.SingleOnly? {
        return applied != [];
      }
      for i := 0 to |applied|
        invariant forall j :: 0 <= j < i && applied[j].coupon in d.coupons ==>
                    d.coupons[applied[j].coupon].discountType != candidate.discountType
      {
        if applied[i].coupon in d.coupons && d.coupons[applied[i].coupon].discountType == candidate.discountType {
          return true;
        }
      }
      conflict := false;
    }

    /** The conditional UPDATE of the counter; false when it matched no row. */
    method IncrementUsedCount(d: Database, id: CouponId) returns (counted: bool)
      requires id in d.coupons
      modifies d`coupons
      ensures var coupon := old(d.coupons[id]);
              && (counted <==> (coupon.usageLimit.Some? ==> coupon.used < coupon.usageLimit.value))
              && d.coupons == if counted then old(d.coupons)[id := coupon.(used := coupon.used + 1)] else old(d.coupons)
    {
      var coupon := d.coupons[id];
      counted := coupon.usageLimit.None? || coupon.used < coupon.usageLimit.value;
      if counted {
        d.coupons := d.coupons[id := coupon.(used := coupon.used + 1)];
      }
    }

    method RemoveCouponFromCart(d: Database, tenant: TenantId, cart: CartId, id: CouponId)
      returns (r: Result<Cart, ApplyError>)
      modifies d`carts, d`coupons
      ensures Effect(old(Ledger(d.carts, d.coupons)), Ledger(d.carts, d.coupons), Unapply(old(Ledger(d.carts, d.coupons)), tenant, cart, id), r, cart)
    {
      if cart !in d.carts || d.carts[cart].tenant != tenant {
        return Err(OnCart(CartMissing));
      }
      var carts, coupons := d.carts, d.coupons;
      var locked := d.carts[cart];
      if Has(locked.applied, id) {
        if id in d.coupons && d.coupons[id].tenant == tenant && d.coupons[id].used > 0 {
          d.coupons := d.coupons[id := d.coupons[id].(used := d.coupons[id].used - 1)];
        }
        d.carts := d.carts[cart := locked.(applied := Without(locked.applied, id))];
      } else {
        WithoutAt(locked.applied, id, |locked.applied|);
      }
      var result := RecalculateCart(d, cart);
      if result.Err? {
        d.carts, d.coupons := carts, coupons;
        return Err(OnCart(result.error));
      }
      r := Ok(result.value);
    }

    method RevalidateCartCoupons(d: Database, tenant: TenantId, cart: CartId, now: int, country: Option<string>)
      returns (r: Result<Cart, ApplyError>)
      modifies d`carts, d`coupons
      ensures Effect(old(Ledger(d.carts, d.coupons)), Ledger(d.carts, d.coupons),
                     Revalidate(validator.rules, old(Ledger(d.carts, d.coupons)), tenant, cart, now, country), r, cart)
    {
      if cart !in d.carts || d.carts[cart].tenant != tenant {
        return Err(OnCart(CartMissing));
      }
      var locked := d.carts[cart];
      var ctx := ContextOf(locked, now, country);
      for i := 0 to |locked.applied|
        invariant d.carts == old(d.carts) && d.coupons == old(d.coupons)
        invariant FirstRefusal(validator.rules, d.coupons, locked.applied, ctx)
               == FirstRefusal(validator.rules, d.coupons, locked.applied[i..], ctx)
      {
        assert locked.applied[i..][1..] == locked.applied[i + 1..];
        if locked.applied[i].coupon in d.coupons {
          var refusal := validator.Validate(d.coupons[locked.applied[i].coupon], ctx);
          if refusal.Some? {
            return Err(Refused(refusal.value));
          }
        }
      }
      var result := RecalculateCart(d, cart);
      if result.Err? {
        return Err(OnCart(result.error));
      }
      r := Ok(result.value);
    }
  }

  /** Deleting the one row of a coupon: what lies before and after its position stays. */
  lemma {:induction false} WithoutAt(applied: seq<Application>, id: CouponId, i: nat)
    requires i <= |applied|
    requires forall j :: 0 <= j < i ==> applied[j].coupon != id
    requires i < |applied| ==> applied[i].coupon == id
    ensures Without(applied, id) == if i < |applied| then applied[..i] + applied[i + 1..] else applied
    ensures Has(applied, id) <==> i < |applied|
  {
    if applied != [] && i > 0 {
      WithoutAt(applied[1..], id, i - 1);
      assert applied == [applied[0]] + applied[1..];
      if i < |applied| {
        assert applied[..i] + applied[i + 1..] == [applied[0]] + (applied[1..][..i - 1] + applied[1..][i..]);
      }
    }
  }
}
