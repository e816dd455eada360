/**
 Laws of the coupon services: usage counters equal rows, stacking bounds, what a removal undoes, what
 a revalidation accepts, and why the order of coupons does not change the price.
 */
module CouponLaws {
  import opened Schema
  import opened CartRules
  import opened Validation
  import opened CouponRules
  import Money

  // ------------------------------------------------------ one application

  lemma {:induction false} SumAppliedAppend(applied: seq<Application>, last: Application)
    ensures SumApplied(applied + [last]) == SumApplied(applied) + last.discount
  {
    if applied != [] {
      assert (applied + [last])[1..] == applied[1..] + [last];
      SumAppliedAppend(applied[1..], last);
    }
  }

  /** Coupons keep everything but their usage counters. */
  ghost predicate SameTerms(coupons: Coupons, coupons': Coupons)
  {
    && coupons'.Keys == coupons.Keys
    && forall c :: c in coupons ==> coupons'[c] == coupons[c].(used := coupons'[c].used)
  }

  /** What one successful application does to its cart and coupon. */
  lemma ApplyEffect(rules: Rules, policy: Policy, codes: Codes, l: Ledger, tenant: TenantId, cart: CartId,
                    code: string, now: int, country: Option<string>)
    requires cart in l.carts ==> TotalsOk(l.carts[cart])
    requires Apply(rules, policy, codes, l, tenant, cart, code, now, country).Ok?
    ensures var l' := Apply(rules, policy, codes, l, tenant, cart, code, now, country).value;
            && (tenant, code) in codes
            && var id := codes[(tenant, code)];
            && id in l.coupons && Owned(l.carts, tenant, cart)
            && OnlyCart(l.carts, l'.carts, cart)
            && l'.coupons == l.coupons[id := l.coupons[id].(used := l.coupons[id].used + 1)]
            && SameTerms(l.coupons, l'.coupons)
            && !Has(l.carts[cart].applied, id)
            && !Conflict(policy, l.coupons, l.carts[cart].applied, l.coupons[id])
            && Eligible(l.coupons[id], now)
            && l'.carts[cart] == l.carts[cart].(total := l.carts[cart].total, discount := l'.carts[cart].discount,
                                                payable := l'.carts[cart].payable, applied := l'.carts[cart].applied,
                                                version := l.carts[cart].version + 1)
            && var snapshot := ComputeDiscount(l.coupons[id], l.carts[cart].total, l.carts[cart].discount);
            && l'.carts[cart].applied == l.carts[cart].applied + [Application(id, snapshot)]
            && l'.carts[cart].discount == l.carts[cart].discount + snapshot
  {
    var id := codes[(tenant, code)];
    var row := l.carts[cart];
    var snapshot := ComputeDiscount(l.coupons[id], row.total, row.discount);
    SumAppliedAppend(row.applied, Application(id, snapshot));
    VerdictMeaning(rules, l.coupons[id], ContextOf(row, now, country));
    assert Distinct(row.applied + [Application(id, snapshot)]);
  }

  // ------------------------------------------------- order of the coupons

  /** The discount a coupon stands for on a subtotal, before it is capped by what is left to discount. */
  function Nominal(coupon: Coupon, total: nat): nat
  {
    if coupon.discountType.Percentage? then Money.PercentageDiscount(total, coupon.value) else coupon.value
  }

  function SumNominal(coupons: Coupons, ids: seq<CouponId>, total: nat): nat
  {
    if ids == [] then 0
    else (if ids[0] in coupons then Nominal(coupons[ids[0]], total) else 0) + SumNominal(coupons, ids[1..], total)
  }

  /** One service call: who applies which coupon, and when. */
  datatype Call = Call(code: string, now: int, country: Option<string>)

  /**
   Successful applications of the coupons `ids` to one cart, one call after the other: `ls` are the
   ledgers before, between and after the calls.
   */
  ghost predicate AppliedInTurn(rules: Rules, policy: Policy, codes: Codes, ls: seq<Ledger>, tenant: TenantId,
                                cart: CartId, calls: seq<Call>, ids: seq<CouponId>)
  {
    && |ls| == |calls| + 1
    && |ids| == |calls|
    && forall i {:trigger calls[i]} :: 0 <= i < |calls| ==>
         && Apply(rules, policy, codes, ls[i], tenant, cart, calls[i].code, calls[i].now, calls[i].country) == Ok(ls[i + 1])
         && codes[(tenant, calls[i].code)] == ids[i]
  }

  lemma SameTermsOf(coupons: Coupons, coupons': Coupons, c: CouponId)
    requires SameTerms(coupons, coupons') && c in coupons
    ensures c in coupons' && coupons'[c] == coupons[c].(used := coupons'[c].used)
  {
  }

  lemma {:induction false} SumNominalFrame(coupons: Coupons, coupons': Coupons, ids: seq<CouponId>, total: nat)
    requires SameTerms(coupons, coupons')
    ensures SumNominal(coupons', ids, total) == SumNominal(coupons, ids, total)
  {
    if ids != [] {
      SumNominalFrame(coupons, coupons', ids[1..], total);
      var c := ids[0];
      if c in coupons {
        SameTermsOf(coupons, coupons', c);
      }
    }
  }

  /** Payable amounts agree although the discounts may differ: both are exact, or both cover everything. */
  ghost predicate SamePayable(total: nat, discount: nat, nominal: nat)
  {
    discount == nominal || (discount >= total && nominal >= total)
  }

  lemma DiscountKeepsPayable(coupon: Coupon, total: nat, discount: nat, nominal: nat)
    requires SamePayable(total, discount, nominal)
    ensures SamePayable(total, discount + ComputeDiscount(coupon, total, discount), nominal + Nominal(coupon, total))
  {
  }

  lemma ApplyPays(rules: Rules, policy: Policy, codes: Codes, l: Ledger, l': Ledger, tenant: TenantId,
                  cart: CartId, call: Call, nominal: nat)
    requires cart in l.carts && TotalsOk(l.carts[cart])
    requires SamePayable(l.carts[cart].total, l.carts[cart].discount, nominal)
    requires Apply(rules, policy, codes, l, tenant, cart, call.code, call.now, call.country) == Ok(l')
    ensures cart in l'.carts && TotalsOk(l'.carts[cart]) && l'.carts[cart].total == l.carts[cart].total
    ensures SameTerms(l.coupons, l'.coupons)
    ensures (tenant, call.code) in codes && codes[(tenant, call.code)] in l.coupons
    ensures SamePayable(l.carts[cart].total, l'.carts[cart].discount,
                        nominal + Nominal(l.coupons[codes[(tenant, call.code)]], l.carts[cart].total))
  {
    ApplyEffect(rules, policy, codes, l, tenant, cart, call.code, call.now, call.country);
    DiscountKeepsPayable(l.coupons[codes[(tenant, call.code)]], l.carts[cart].total, l.carts[cart].discount, nominal);
  }

  /**
   After any list of coupons has been applied, the customer pays what the nominal discounts leave:
   capping each fixed coupon by what its predecessors left loses nothing.
   */
  lemma {:induction false} AppliedInTurnPays(rules: Rules, policy: Policy, codes: Codes, ls: seq<Ledger>,
                                             tenant: TenantId, cart: CartId, calls: seq<Call>, ids: seq<CouponId>,
                                             nominal: nat)
    requires AppliedInTurn(rules, policy, codes, ls, tenant, cart, calls, ids)
    requires cart in ls[0].carts && TotalsOk(ls[0].carts[cart])
    requires SamePayable(ls[0].carts[cart].total, ls[0].carts[cart].discount, nominal)
    ensures var total := ls[0].carts[cart].total;
            var last := ls[|calls|];
            && cart in last.carts
            && last.carts[cart].total == total
            && last.carts[cart].payable == Payable(total, nominal + SumNominal(ls[0].coupons, ids, total))
    decreases |calls|
  {
    if calls != [] {
      var total := ls[0].carts[cart].total;
      ApplyPays(rules, policy, codes, ls[0], ls[1], tenant, cart, calls[0], nominal);
      var nominal1 := nominal + Nominal(ls[0].coupons[ids[0]], total);
      AppliedInTurnPays(rules, policy, codes, ls[1..], tenant, cart, calls[1..], ids[1..], nominal1);
      SumNominalFrame(ls[0].coupons, ls[1].coupons, ids[1..], total);
    }
  }

  lemma {:induction false} SumNominalRemove(coupons: Coupons, ids: seq<CouponId>, total: nat, i: nat)
    requires i < |ids|
    ensures SumNominal(coupons, ids, total)
         == (if ids[i] in coupons then Nominal(coupons[ids[i]], total) else 0)
            + SumNominal(coupons, ids[..i] + ids[i + 1..], total)
  {
    if i == 0 {
      assert ids[..0] + ids[1..] == ids[1..];
    } else {
      SumNominalRemove(coupons, ids[1..], total, i - 1);
      var rest := ids[..i] + ids[i + 1..];
      assert rest[1..] == ids[1..][..i - 1] + ids[1..][i..];
    }
  }

  /** The first element of a list has a place in any permutation; taking both out leaves permutations. */
  lemma PositionOf<T>(x: T, ids: seq<T>, ids': seq<T>) returns (i: nat)
    requires ids != [] && ids[0] == x && multiset(ids) == multiset(ids')
    ensures i < |ids'| && ids'[i] == x
    ensures multiset(ids[1..]) == multiset(ids'[..i] + ids'[i + 1..])
  {
    assert x in multiset(ids');
    i :| 0 <= i < |ids'| && ids'[i] == x;
    var before, after := ids'[..i], ids'[i + 1..];
    assert ids' == before + ([x] + after);
    assert ids == [x] + ids[1..];
    assert multiset(before + after) == multiset(ids') - multiset([x]);
    assert multiset(ids[1..]) == multiset(ids) - multiset([x]);
  }

  lemma {:induction false} SumNominalPermutes(coupons: Coupons, ids: seq<CouponId>, ids': seq<CouponId>, total: nat)
    requires multiset(ids) == multiset(ids')
    ensures SumNominal(coupons, ids, total) == SumNominal(coupons, ids', total)
    decreases |ids|
  {
    if ids == [] {
      assert |multiset(ids')| == 0;
    } else {
      var i := PositionOf(ids[0], ids, ids');
      SumNominalPermutes(coupons, ids[1..], ids'[..i] + ids'[i + 1..], total);
      SumNominalRemove(coupons, ids', total, i);
    }
  }

  /**
   Applying the same coupons in another order, on the same lines, costs the customer the same: in
   either order the payable amount is what the sum of the nominal discounts leaves of the subtotal.
   */
  lemma OrderOfCouponsDoesNotChangeThePrice(rules: Rules, policy: Policy, codes: Codes, ls: seq<Ledger>,
                                            ls': seq<Ledger>, tenant: TenantId, cart: CartId, calls: seq<Call>,
                                            calls': seq<Call>, ids: seq<CouponId>, ids': seq<CouponId>)
    requires AppliedInTurn(rules, policy, codes, ls, tenant, cart, calls, ids)
    requires AppliedInTurn(rules, policy, codes, ls', tenant, cart, calls', ids')
    requires ls[0] == ls'[0] && multiset(ids) == multiset(ids')
    requires cart in ls[0].carts && TotalsOk(ls[0].carts[cart])
    ensures var before := ls[0].carts[cart];
            && cart in ls[|calls|].carts && cart in ls'[|calls'|].carts
            && ls[|calls|].carts[cart].payable == ls'[|calls'|].carts[cart].payable
            && ls[|calls|].carts[cart].payable
               == Payable(before.total, before.discount + SumNominal(ls[0].coupons, ids, before.total))
  {
    var total, discount := ls[0].carts[cart].total, ls[0].carts[cart].discount;
    AppliedInTurnPays(rules, policy, codes, ls, tenant, cart, calls, ids, discount);
    AppliedInTurnPays(rules, policy, codes, ls', tenant, cart, calls', ids', discount);
    SumNominalPermutes(ls[0].coupons, ids, ids', total);
  }

  /** The snapshots themselves do depend on the order: the later of two large fixed coupons gets the rest. */
  lemma OrderOfCouponsChangesTheSnapshots()
    ensures exists a: Coupon, b: Coupon, total: nat ::
              && a.discountType.Fixed? && b.discountType.Fixed?
              && ComputeDiscount(a, total, 0) != ComputeDiscount(a, total, ComputeDiscount(b, total, 0))
  {
    var a := Coupon(0, "A", Fixed, 80, None, 0, true, None, None, []);
    assert ComputeDiscount(a, 100, 0) == 80 && ComputeDiscount(a, 100, 80) == 20;
  }

  // ------------------------------------------------------------ the ledger

  /** The carts a coupon is applied to; (cart, coupon) is unique, so there is one row for each. */
  ghost function Holders(carts: Carts, id: CouponId): set<CartId>
  {
    set k | k in carts && Has(carts[k].applied, id)
  }

  ghost predicate WithinCap(coupon: Coupon)
  {
    CapOf(coupon).Limit? ==> coupon.used == 0 || coupon.used <= CapOf(coupon).cap
  }

  /** The counter of every coupon is its number of rows, and never exceeds the cap that applies. */
  ghost predicate UsesOk(l: Ledger)
  {
    forall c :: c in l.coupons ==> l.coupons[c].used == |Holders(l.carts, c)| && WithinCap(l.coupons[c])
  }

  /** A cart's coupons exist, in the tenant of the cart. */
  ghost predicate KnownCoupons(cart: Cart, coupons: Coupons)
  {
    forall i :: 0 <= i < |cart.applied| ==>
      cart.applied[i].coupon in coupons && coupons[cart.applied[i].coupon].tenant == cart.tenant
  }

  /** What the stacking policy promises of a cart. */
  ghost predicate Stacked(policy: Policy, applied: seq<Application>, coupons: Coupons)
  {
    && (policy.SingleOnly? ==> |applied| <= 1)
    && (policy.OnePerDiscountType? ==>
          forall i, j :: 0 <= i < j < |applied| && applied[i].coupon in coupons && applied[j].coupon in coupons ==>
            coupons[applied[i].coupon].discountType != coupons[applied[j].coupon].discountType)
  }

  ghost predicate CartOk(policy: Policy, cart: Cart, coupons: Coupons)
  {
    TotalsOk(cart) && KnownCoupons(cart, coupons) && Stacked(policy, cart.applied, coupons)
  }

  ghost predicate LedgerOk(policy: Policy, codes: Codes, l: Ledger)
  {
    && (forall k :: k in l.carts ==> CartOk(policy, l.carts[k], l.coupons))
    && UsesOk(l)
    && CodesOk(codes, l.coupons)
  }

  /** A code leads to a coupon of its own tenant. */
  ghost predicate CodesOk(codes: Codes, coupons: Coupons)
  {
    forall k :: k in codes && codes[k] in coupons ==> coupons[codes[k]].tenant == k.0
  }

  lemma CodesKeepTerms(codes: Codes, coupons: Coupons, coupons': Coupons)
    requires CodesOk(codes, coupons) && SameTerms(coupons, coupons')
    ensures CodesOk(codes, coupons')
  {
    forall k | k in codes && codes[k] in coupons' ensures coupons'[codes[k]].tenant == k.0 {
      SameTermsOf(coupons, coupons', codes[k]);
    }
  }

  lemma HoldersUpdate(carts: Carts, cart: CartId, row: Cart, id: CouponId)
    requires cart in carts
    ensures Holders(carts[cart := row], id)
         == if Has(row.applied, id) then Holders(carts, id) + {cart} else Holders(carts, id) - {cart}
  {
  }

  lemma HasAppend(applied: seq<Application>, last: Application, id: CouponId)
    ensures Has(applied + [last], id) <==> Has(applied, id) || last.coupon == id
  {
    if Has(applied, id) {
      var i :| 0 <= i < |applied| && applied[i].coupon == id;
      assert (applied + [last])[i].coupon == id;
    }
    if last.coupon == id {
      assert (applied + [last])[|applied|].coupon == id;
    }
  }

  lemma CartOkTerms(policy: Policy, cart: Cart, coupons: Coupons, coupons': Coupons)
    requires CartOk(policy, cart, coupons) && SameTerms(coupons, coupons')
    ensures CartOk(policy, cart, coupons')
  {
    forall i | 0 <= i < |cart.applied|
      ensures cart.applied[i].coupon in coupons'
      ensures coupons'[cart.applied[i].coupon].tenant == coupons[cart.applied[i].coupon].tenant
      ensures coupons'[cart.applied[i].coupon].discountType == coupons[cart.applied[i].coupon].discountType
    {
      var c := cart.applied[i].coupon;
      assert coupons'[c] == coupons[c].(used := coupons'[c].used);
    }
  }

  lemma CapOfUsed(coupon: Coupon, used: nat)
    ensures CapOf(coupon.(used := used)) == CapOf(coupon)
  {
  }

  /** One cart changed, and of the coupons at most the counter of one. */
  ghost predicate OneCartOneCoupon(l: Ledger, l': Ledger, cart: CartId, id: CouponId)
  {
    && OnlyCart(l.carts, l'.carts, cart)
    && SameTerms(l.coupons, l'.coupons)
    && forall c :: c in l.coupons && c != id ==> l'.coupons[c] == l.coupons[c]
  }

  /** Applying counts the new row, respects the cap, be it in the column or only in the JSON, and the policy. */
  lemma ApplyKeepsLedger(rules: Rules, policy: Policy, codes: Codes, l: Ledger, tenant: TenantId, cart: CartId,
                         code: string, now: int, country: Option<string>)
    requires LedgerOk(policy, codes, l)
    requires Apply(rules, policy, codes, l, tenant, cart, code, now, country).Ok?
    ensures var l' := Apply(rules, policy, codes, l, tenant, cart, code, now, country).value;
            && LedgerOk(policy, codes, l')
            && (tenant, code) in codes && OneCartOneCoupon(l, l', cart, codes[(tenant, code)])
  {
    assert cart in l.carts ==> CartOk(policy, l.carts[cart], l.coupons);
    ApplyEffect(rules, policy, codes, l, tenant, cart, code, now, country);
    var l' := Apply(rules, policy, codes, l, tenant, cart, code, now, country).value;
    var id := codes[(tenant, code)];
    var snapshot := ComputeDiscount(l.coupons[id], l.carts[cart].total, l.carts[cart].discount);
    CountedApplication(policy, codes, l, l', cart, Application(id, snapshot));
  }

  lemma CountedApplication(policy: Policy, codes: Codes, l: Ledger, l': Ledger, cart: CartId, last: Application)
    requires LedgerOk(policy, codes, l)
    requires OnlyCart(l.carts, l'.carts, cart) && SameTerms(l.coupons, l'.coupons)
    requires last.coupon in l.coupons && l.coupons[last.coupon].tenant == l.carts[cart].tenant
    requires l'.coupons == l.coupons[last.coupon := l.coupons[last.coupon].(used := l.coupons[last.coupon].used + 1)]
    requires !Has(l.carts[cart].applied, last.coupon)
    requires !Conflict(policy, l.coupons, l.carts[cart].applied, l.coupons[last.coupon])
    requires CapOf(l.coupons[last.coupon]).Limit? ==> l.coupons[last.coupon].used < CapOf(l.coupons[last.coupon]).cap
    requires l'.carts[cart].applied == l.carts[cart].applied + [last]
    ensures LedgerOk(policy, codes, l')
  {
    CountedRow(policy, l.carts[cart], l'.carts[cart], last, l.coupons);
    CartsKeepTerms(policy, l, l', cart);
    CodesKeepTerms(codes, l.coupons, l'.coupons);
    forall c | c in l'.coupons
      ensures l'.coupons[c].used == |Holders(l'.carts, c)| && WithinCap(l'.coupons[c])
    {
      CountedUses(l, l', cart, last, c);
    }
  }

  /** Usage counters are no concern of what a cart promises. */
  lemma CartsKeepTerms(policy: Policy, l: Ledger, l': Ledger, cart: CartId)
    requires forall k :: k in l.carts && k != cart ==> CartOk(policy, l.carts[k], l.coupons)
    requires cart in l'.carts && l'.carts == l.carts[cart := l'.carts[cart]]
    requires CartOk(policy, l'.carts[cart], l.coupons) && SameTerms(l.coupons, l'.coupons)
    ensures forall k :: k in l'.carts ==> CartOk(policy, l'.carts[k], l'.coupons)
  {
    forall k | k in l'.carts ensures CartOk(policy, l'.carts[k], l'.coupons) {
      CartOkTerms(policy, l'.carts[k], l.coupons, l'.coupons);
    }
  }

  lemma CountedRow(policy: Policy, row: Cart, row': Cart, last: Application, coupons: Coupons)
    requires CartOk(policy, row, coupons) && TotalsOk(row') && row'.tenant == row.tenant
    requires row'.applied == row.applied + [last]
    requires last.coupon in coupons && coupons[last.coupon].tenant == row.tenant
    requires !Conflict(policy, coupons, row.applied, coupons[last.coupon])
    ensures CartOk(policy, row', coupons)
  {
    var n := |row.applied|;
    forall i | 0 <= i < |row'.applied| ensures row'.applied[i] == if i < n then row.applied[i] else last {
    }
  }

  /** The counter of the applied coupon grows with its set of holders; the others keep both. */
  lemma CountedUses(l: Ledger, l': Ledger, cart: CartId, last: Application, c: CouponId)
    requires cart in l.carts && c in l.coupons && last.coupon in l.coupons
    requires l.coupons[c].used == |Holders(l.carts, c)| && WithinCap(l.coupons[c])
    requires cart in l'.carts && l'.carts == l.carts[cart := l'.carts[cart]]
    requires l'.carts[cart].applied == l.carts[cart].applied + [last] && !Has(l.carts[cart].applied, last.coupon)
    requires l'.coupons == l.coupons[last.coupon := l.coupons[last.coupon].(used := l.coupons[last.coupon].used + 1)]
    requires CapOf(l.coupons[last.coupon]).Limit? ==> l.coupons[last.coupon].used < CapOf(l.coupons[last.coupon]).cap
    ensures l'.coupons[c].used == |Holders(l'.carts, c)| && WithinCap(l'.coupons[c])
  {
    HoldersUpdate(l.carts, cart, l'.carts[cart], c);
    HasAppend(l.carts[cart].applied, last, c);
    CapOfUsed(l.coupons[c], l'.coupons[c].used);
    assert cart in Holders(l.carts, c) <==> Has(l.carts[cart].applied, c);
    if c != last.coupon {
      assert Holders(l'.carts, c) == Holders(l.carts, c);
    }
  }

  lemma {:induction false} WithoutEffect(applied: seq<Application>, id: CouponId)
    requires Distinct(applied)
    ensures var applied' := Without(applied, id);
            && Distinct(applied')
            && !Has(applied', id)
            && (forall a :: a in applied' <==> a in applied && a.coupon != id)
            && |applied'| <= |applied|
            && SumApplied(applied') <= SumApplied(applied)
  {
    if applied != [] {
      WithoutEffect(applied[1..], id);
      assert applied == [applied[0]] + applied[1..];
      forall j | 0 <= j < |applied[1..]| ensures applied[1..][j].coupon != applied[0].coupon {
        assert applied[1..][j] == applied[j + 1];
      }
      var kept := Without(applied[1..], id);
      assert ([applied[0]] + kept)[1..] == kept;
      forall j | 0 <= j < |kept| ensures kept[j].coupon != applied[0].coupon {
        assert kept[j] in kept;
      }
    }
  }

  /** The coupons that stay keep their places relative to each other, so their types still differ. */
  lemma {:induction false} WithoutStacked(policy: Policy, applied: seq<Application>, id: CouponId, coupons: Coupons)
    requires Distinct(applied) && Stacked(policy, applied, coupons)
    ensures Stacked(policy, Without(applied, id), coupons)
  {
    if applied != [] {
      WithoutEffect(applied, id);
      WithoutEffect(applied[1..], id);
      WithoutStacked(policy, applied[1..], id, coupons);
      var kept := Without(applied[1..], id);
      forall j | 0 <= j < |kept| ensures exists k :: 1 <= k < |applied| && applied[k] == kept[j] {
        assert kept[j] in kept;
        var k :| 0 <= k < |applied[1..]| && applied[1..][k] == kept[j];
        assert applied[k + 1] == kept[j];
      }
    }
  }

  /** The counters after a removal: one less for a coupon that was applied. */
  ghost function Uncounted(l: Ledger, cart: CartId, id: CouponId): Coupons
    requires cart in l.carts
  {
    if Has(l.carts[cart].applied, id) && id in l.coupons && l.coupons[id].used >= 1
    then l.coupons[id := l.coupons[id].(used := l.coupons[id].used - 1)] else l.coupons
  }

  /**
   Removing an applied coupon always takes exactly one from its counter: the guard against going
   below zero never blocks a real removal.  Removing one that is not applied changes no counter.
   */
  lemma UnapplyEffect(policy: Policy, codes: Codes, l: Ledger, tenant: TenantId, cart: CartId, id: CouponId)
    requires LedgerOk(policy, codes, l)
    requires Unapply(l, tenant, cart, id).Ok?
    ensures var l' := Unapply(l, tenant, cart, id).value;
            && OnlyCart(l.carts, l'.carts, cart)
            && l'.carts[cart].items == l.carts[cart].items
            && l'.carts[cart].applied == Without(l.carts[cart].applied, id)
            && !Has(l'.carts[cart].applied, id)
            && (Has(l.carts[cart].applied, id) ==> id in l.coupons && l.coupons[id].used >= 1)
            && l'.coupons == Uncounted(l, cart, id)
  {
    assert CartOk(policy, l.carts[cart], l.coupons);
    if Has(l.carts[cart].applied, id) {
      HeldIsCounted(policy, codes, l, cart, id);
    }
    UnapplyRow(l, tenant, cart, id);
  }

  lemma UnapplyRow(l: Ledger, tenant: TenantId, cart: CartId, id: CouponId)
    requires Unapply(l, tenant, cart, id).Ok? && TotalsOk(l.carts[cart])
    requires Has(l.carts[cart].applied, id) ==> id in l.coupons && l.coupons[id].tenant == tenant && l.coupons[id].used >= 1
    ensures var l' := Unapply(l, tenant, cart, id).value;
            && OnlyCart(l.carts, l'.carts, cart)
            && l'.carts[cart].items == l.carts[cart].items
            && l'.carts[cart].applied == Without(l.carts[cart].applied, id)
            && !Has(l'.carts[cart].applied, id)
            && l'.coupons == Uncounted(l, cart, id)
  {
    WithoutSums(l.carts[cart].applied, id);
  }

  lemma WithoutSums(applied: seq<Application>, id: CouponId)
    requires Distinct(applied)
    ensures Distinct(Without(applied, id)) && !Has(Without(applied, id), id)
    ensures SumApplied(Without(applied, id)) <= SumApplied(applied)
  {
    WithoutEffect(applied, id);
  }

  lemma HeldIsCounted(policy: Policy, codes: Codes, l: Ledger, cart: CartId, id: CouponId)
    requires LedgerOk(policy, codes, l)
    requires cart in l.carts && Has(l.carts[cart].applied, id)
    ensures id in l.coupons && l.coupons[id].tenant == l.carts[cart].tenant && l.coupons[id].used >= 1
  {
    assert cart in Holders(l.carts, id);
    assert CartOk(policy, l.carts[cart], l.coupons);
  }

  lemma UnapplyKeepsLedger(policy: Policy, codes: Codes, l: Ledger, tenant: TenantId, cart: CartId, id: CouponId)
    requires LedgerOk(policy, codes, l)
    requires Unapply(l, tenant, cart, id).Ok?
    ensures var l' := Unapply(l, tenant, cart, id).value;
            LedgerOk(policy, codes, l') && OneCartOneCoupon(l, l', cart, id)
  {
    UnapplyEffect(policy, codes, l, tenant, cart, id);
    var l' := Unapply(l, tenant, cart, id).value;
    UncountedApplication(policy, codes, l, l', cart, id);
  }

  lemma UncountedApplication(policy: Policy, codes: Codes, l: Ledger, l': Ledger, cart: CartId, id: CouponId)
    requires LedgerOk(policy, codes, l)
    requires OnlyCart(l.carts, l'.carts, cart)
    requires l'.carts[cart].applied == Without(l.carts[cart].applied, id)
    requires l'.coupons == Uncounted(l, cart, id)
    ensures LedgerOk(policy, codes, l')
  {
    KnownWithout(l.carts[cart], l'.carts[cart], id, l.coupons);
    WithoutStacked(policy, l.carts[cart].applied, id, l.coupons);
    CartsKeepTerms(policy, l, l', cart);
    CodesKeepTerms(codes, l.coupons, l'.coupons);
    forall c | c in l'.coupons
      ensures l'.coupons[c].used == |Holders(l'.carts, c)| && WithinCap(l'.coupons[c])
    {
      UncountedUses(l, l', cart, id, c);
    }
  }

  lemma UncountedUses(l: Ledger, l': Ledger, cart: CartId, id: CouponId, c: CouponId)
    requires UsesOk(l) && cart in l.carts && Distinct(l.carts[cart].applied)
    requires cart in l'.carts && l'.carts == l.carts[cart := l'.carts[cart]]
    requires l'.carts[cart].applied == Without(l.carts[cart].applied, id)
    requires l'.coupons == Uncounted(l, cart, id) && c in l'.coupons
    ensures l'.coupons[c].used == |Holders(l'.carts, c)| && WithinCap(l'.coupons[c])
  {
    var before, after := Holders(l.carts, c), Holders(l'.carts, c);
    HoldersUpdate(l.carts, cart, l'.carts[cart], c);
    HasWithout(l.carts[cart].applied, id, c);
    CapOfUsed(l.coupons[c], l'.coupons[c].used);
    if c == id && Has(l.carts[cart].applied, id) {
      assert cart in before && after == before - {cart};
    } else {
      assert cart in before <==> Has(l'.carts[cart].applied, c);
      assert after == before;
    }
  }

  lemma KnownWithout(row: Cart, row': Cart, id: CouponId, coupons: Coupons)
    requires KnownCoupons(row, coupons) && Distinct(row.applied)
    requires row'.tenant == row.tenant && row'.applied == Without(row.applied, id)
    ensures KnownCoupons(row', coupons)
  {
    WithoutEffect(row.applied, id);
    forall i | 0 <= i < |row'.applied| ensures row'.applied[i] in row.applied {
      assert row'.applied[i] in row'.applied;
    }
  }

  lemma HasWithout(applied: seq<Application>, id: CouponId, c: CouponId)
    requires Distinct(applied)
    ensures Has(Without(applied, id), c) <==> Has(applied, c) && c != id
  {
    WithoutEffect(applied, id);
    if Has(applied, c) && c != id {
      var i :| 0 <= i < |applied| && applied[i].coupon == c;
      assert applied[i] in applied && applied[i] in Without(applied, id);
    }
    if Has(Without(applied, id), c) {
      var i :| 0 <= i < |Without(applied, id)| && Without(applied, id)[i].coupon == c;
      assert Without(applied, id)[i] in Without(applied, id);
    }
  }

  /** A change of one cart that keeps its tenant and its coupons keeps the ledger. */
  lemma RowKeepsLedger(policy: Policy, codes: Codes, l: Ledger, cart: CartId, row: Cart)
    requires LedgerOk(policy, codes, l)
    requires cart in l.carts && TotalsOk(row)
    requires row.tenant == l.carts[cart].tenant && row.applied == l.carts[cart].applied
    ensures LedgerOk(policy, codes, Ledger(l.carts[cart := row], l.coupons))
  {
    SameHolders(l, cart, row);
    assert CartOk(policy, l.carts[cart], l.coupons);
    SameCouponsKeepCart(policy, l.carts[cart], row, l.coupons);
  }

  lemma SameCouponsKeepCart(policy: Policy, row: Cart, row': Cart, coupons: Coupons)
    requires CartOk(policy, row, coupons) && TotalsOk(row')
    requires row'.tenant == row.tenant && row'.applied == row.applied
    ensures CartOk(policy, row', coupons)
  {
  }

  lemma SameHolders(l: Ledger, cart: CartId, row: Cart)
    requires UsesOk(l) && cart in l.carts && row.applied == l.carts[cart].applied
    ensures UsesOk(Ledger(l.carts[cart := row], l.coupons))
  {
    forall c | c in l.coupons ensures Holders(l.carts[cart := row], c) == Holders(l.carts, c) {
      HoldersUpdate(l.carts, cart, row, c);
    }
  }

  /** A new cart holds no coupon. */
  lemma NewRowKeepsLedger(policy: Policy, codes: Codes, l: Ledger, cart: CartId, row: Cart)
    requires LedgerOk(policy, codes, l)
    requires cart !in l.carts && TotalsOk(row) && row.applied == []
    ensures LedgerOk(policy, codes, Ledger(l.carts[cart := row], l.coupons))
  {
    forall c | c in l.coupons ensures Holders(l.carts[cart := row], c) == Holders(l.carts, c) {
    }
  }

  /** Revalidation reads only the coupons that are applied. */
  lemma {:induction false} FirstRefusalFrame(rules: Rules, coupons: Coupons, coupons': Coupons, applied: seq<Application>,
                                             ctx: Context)
    requires forall i :: 0 <= i < |applied| ==>
               applied[i].coupon in coupons && applied[i].coupon in coupons'
               && coupons[applied[i].coupon] == coupons'[applied[i].coupon]
    ensures FirstRefusal(rules, coupons, applied, ctx) == FirstRefusal(rules, coupons', applied, ctx)
  {
    if applied != [] {
      assert applied[0].coupon in coupons;
      FirstRefusalFrame(rules, coupons, coupons', applied[1..], ctx);
    }
  }

  /**
   Removing a coupon undoes applying it: the counters are back, and so is the cart but for its version,
   which counts the two changes.
   */
  lemma RemoveUndoesApply(rules: Rules, policy: Policy, codes: Codes, l: Ledger, tenant: TenantId, cart: CartId,
                          code: string, now: int, country: Option<string>)
    requires LedgerOk(policy, codes, l)
    requires Apply(rules, policy, codes, l, tenant, cart, code, now, country).Ok?
    ensures var l1 := Apply(rules, policy, codes, l, tenant, cart, code, now, country).value;
            Unapply(l1, tenant, cart, codes[(tenant, code)])
            == Ok(Ledger(l.carts[cart := l.carts[cart].(version := l.carts[cart].version + 2)], l.coupons))
  {
    ApplyEffect(rules, policy, codes, l, tenant, cart, code, now, country);
    var l1 := Apply(rules, policy, codes, l, tenant, cart, code, now, country).value;
    var id := codes[(tenant, code)];
    var row, row1 := l.carts[cart], l1.carts[cart];
    var n := |row.applied|;
    assert Without(row1.applied, id) == row.applied by {
      assert row1.applied == row.applied + [row1.applied[n]];
      WithoutAt(row1.applied, id, n);
    }
    assert Has(row1.applied, id) by { assert row1.applied[n].coupon == id; }
    UnapplyLast(l, l1, tenant, cart, id);
  }

  lemma UnapplyLast(l: Ledger, l1: Ledger, tenant: TenantId, cart: CartId, id: CouponId)
    requires Owned(l.carts, tenant, cart) && TotalsOk(l.carts[cart])
    requires cart in l1.carts && l1.carts == l.carts[cart := l1.carts[cart]]
    requires id in l.coupons && l.coupons[id].tenant == tenant
    requires l1.coupons == l.coupons[id := l.coupons[id].(used := l.coupons[id].used + 1)]
    requires Has(l1.carts[cart].applied, id) && Without(l1.carts[cart].applied, id) == l.carts[cart].applied
    requires l1.carts[cart] == l.carts[cart].(total := l.carts[cart].total, discount := l1.carts[cart].discount,
                                              payable := l1.carts[cart].payable, applied := l1.carts[cart].applied,
                                              version := l.carts[cart].version + 1)
    ensures Unapply(l1, tenant, cart, id)
         == Ok(Ledger(l.carts[cart := l.carts[cart].(version := l.carts[cart].version + 2)], l.coupons))
  {
    var row, row1 := l.carts[cart], l1.carts[cart];
    assert Released(l1.coupons, tenant, id) == l.coupons;
    assert Recalculated(row1.(applied := row.applied)) == Ok(row.(version := row.version + 2));
    assert l1.carts[cart := row.(version := row.version + 2)] == l.carts[cart := row.(version := row.version + 2)];
  }

  // --------------------------------------------------------- revalidation

  lemma {:induction false} FirstRefusalMeaning(rules: Rules, coupons: Coupons, applied: seq<Application>, ctx: Context)
    ensures FirstRefusal(rules, coupons, applied, ctx).None? <==>
              forall a :: a in applied && a.coupon in coupons ==> Verdict(rules, coupons[a.coupon], ctx).None?
  {
    if applied != [] {
      FirstRefusalMeaning(rules, coupons, applied[1..], ctx);
      assert applied == [applied[0]] + applied[1..];
    }
  }

  /** One more use changes the built-in verdict on a coupon only through the cap. */
  lemma OneMoreUse(coupon: Coupon, ctx: Context)
    requires DistinctKeys(coupon.constraints)
    requires Verdict(BuiltInRules(), coupon, ctx).None?
    ensures Verdict(BuiltInRules(), coupon.(used := coupon.used + 1), ctx).None?
            <==> (CapOf(coupon).Limit? ==> coupon.used + 1 < CapOf(coupon).cap)
  {
    var rules, used := BuiltInRules(), coupon.(used := coupon.used + 1);
    VerdictMeaning(rules, coupon, ctx);
    VerdictMeaning(rules, used, ctx);
    CapOfUsed(coupon, used.used);
    LookupMember(coupon.constraints, "usage_limit");
    forall entry | entry in coupon.constraints && (CapOf(coupon).Limit? ==> used.used < CapOf(coupon).cap)
      ensures EntryError(rules, used, ctx, entry).None?
    {
      assert EntryError(rules, coupon, ctx, entry).None?;
      if entry.0 == "usage_limit" && coupon.usageLimit.None? {
        assert Lookup(coupon.constraints, "usage_limit") == Some(entry.1);
      }
    }
  }

  /**
   Revalidating right after applying, with nothing drifted, does not always accept: the validator asks
   for room for one more use although the cart's own use is already counted.  It accepts exactly when
   the coupon had no cap or room for two.
   */
  lemma RevalidationWithoutDrift(policy: Policy, codes: Codes, l: Ledger, tenant: TenantId, cart: CartId,
                                 code: string, now: int, country: Option<string>)
    requires LedgerOk(policy, codes, l)
    requires Apply(BuiltInRules(), policy, codes, l, tenant, cart, code, now, country).Ok?
    requires DistinctKeys(l.coupons[codes[(tenant, code)]].constraints)
    requires FirstRefusal(BuiltInRules(), l.coupons, l.carts[cart].applied, ContextOf(l.carts[cart], now, country)).None?
    ensures var l1 := Apply(BuiltInRules(), policy, codes, l, tenant, cart, code, now, country).value;
            var coupon := l.coupons[codes[(tenant, code)]];
            Revalidate(BuiltInRules(), l1, tenant, cart, now, country).Ok?
            <==> (CapOf(coupon).Limit? ==> coupon.used + 2 <= CapOf(coupon).cap)
  {
    var rules := BuiltInRules();
    ApplyEffect(rules, policy, codes, l, tenant, cart, code, now, country);
    var l1 := Apply(rules, policy, codes, l, tenant, cart, code, now, country).value;
    var id := codes[(tenant, code)];
    var row, row1 := l.carts[cart], l1.carts[cart];
    var ctx := ContextOf(row, now, country);
    FirstRefusalMeaning(rules, l.coupons, row.applied, ctx);
    FirstRefusalMeaning(rules, l1.coupons, row1.applied, ctx);
    assert Verdict(rules, l.coupons[id], ctx).None?;
    OneMoreUse(l.coupons[id], ctx);
    var last := row1.applied[|row.applied|];
    assert last in row1.applied && last.coupon == id;
    forall a | a in row1.applied && a.coupon in l1.coupons && a.coupon != id
      ensures Verdict(rules, l1.coupons[a.coupon], ctx).None?
    {
      assert a in row.applied && l1.coupons[a.coupon] == l.coupons[a.coupon];
    }
    assert Recalculated(row1).Ok?;
  }

  /** A cart holding a coupon whose counter has reached its cap cannot be revalidated, whoever used it up. */
  lemma CouponAtItsCapIsRefused(rules: Rules, policy: Policy, codes: Codes, l: Ledger, tenant: TenantId,
                                cart: CartId, id: CouponId, now: int, country: Option<string>)
    requires LedgerOk(policy, codes, l)
    requires Owned(l.carts, tenant, cart) && Has(l.carts[cart].applied, id)
    requires CapOf(l.coupons[id]) == Limit(|Holders(l.carts, id)|)
    ensures Revalidate(rules, l, tenant, cart, now, country).Err?
  {
    var row := l.carts[cart];
    FirstRefusalMeaning(rules, l.coupons, row.applied, ContextOf(row, now, country));
    VerdictMeaning(rules, l.coupons[id], ContextOf(row, now, country));
    var i :| 0 <= i < |row.applied| && row.applied[i].coupon == id;
    assert row.applied[i] in row.applied;
  }

  // -------------------------------------- what the services do, to the letter

  /**
   A snapshot that a coupon may take: of a fixed coupon never more than its value nor than what is left of
   the subtotal, and no less than both allow; of a percentage coupon its share, rounded half up.
   */
  ghost predicate TakesOff(coupon: Coupon, total: nat, already: nat, snapshot: nat)
  {
    match coupon.discountType
    case Fixed =>
      && snapshot <= coupon.value
      && (already >= total ==> snapshot == 0)
      && (already < total ==> already + snapshot <= total && (snapshot == coupon.value || already + snapshot == total))
    case Percentage =>
      total < MONEY_BOUND && coupon.value <= 1_000_000_000_000 ==>
        2 * Money.WHOLE * snapshot <= 2 * (total * coupon.value) + Money.WHOLE < 2 * Money.WHOLE * snapshot + 2 * Money.WHOLE
  }

  lemma DiscountMeans(coupon: Coupon, total: nat, already: nat)
    ensures TakesOff(coupon, total, already, ComputeDiscount(coupon, total, already))
  {
    if coupon.discountType.Percentage? && total < MONEY_BOUND && coupon.value <= 1_000_000_000_000 {
      Money.PercentageRoundsOnce(total, coupon.value);
      HalfUpBounds(total * coupon.value);
    }
  }

  lemma HalfUpBounds(n: nat)
    ensures var r := Money.HalfUp(n, Money.WHOLE);
            2 * Money.WHOLE * r <= 2 * n + Money.WHOLE < 2 * Money.WHOLE * r + 2 * Money.WHOLE
  {
  }

  /** What the stacking policy forbids. */
  ghost predicate Forbidden(policy: Policy, coupons: Coupons, applied: seq<Application>, candidate: Coupon)
  {
    || (policy.SingleOnly? && |applied| >= 1)
    || (policy.OnePerDiscountType?
        && exists a :: a in applied && a.coupon in coupons && coupons[a.coupon].discountType == candidate.discountType)
  }

  lemma ConflictMeans(policy: Policy, coupons: Coupons, applied: seq<Application>, candidate: Coupon)
    ensures Conflict(policy, coupons, applied, candidate) <==> Forbidden(policy, coupons, applied, candidate)
  {
    if Conflict(policy, coupons, applied, candidate) && policy.OnePerDiscountType? {
      var i :| 0 <= i < |applied| && applied[i].coupon in coupons
               && coupons[applied[i].coupon].discountType == candidate.discountType;
      assert applied[i] in applied;
    }
  }

  lemma HasMeans(applied: seq<Application>, id: CouponId)
    ensures Has(applied, id) <==> exists a :: a in applied && a.coupon == id
  {
    if Has(applied, id) {
      var i :| 0 <= i < |applied| && applied[i].coupon == id;
      assert applied[i] in applied;
    }
  }

  /** The coupon of an active code of the tenant. */
  ghost predicate CodeOf(codes: Codes, coupons: Coupons, tenant: TenantId, code: string, id: CouponId)
  {
    (tenant, code) in codes && codes[(tenant, code)] == id && id in coupons && coupons[id].active
  }

  /** Every check that an application passes before its discount is worked out. */
  ghost predicate PassesChecks(rules: Rules, policy: Policy, l: Ledger, tenant: TenantId, cart: CartId, id: CouponId,
                               now: int, country: Option<string>)
    requires id in l.coupons
  {
    && cart in l.carts && l.carts[cart].tenant == tenant
    && (forall a :: a in l.carts[cart].applied ==> a.coupon != id)
    && !Forbidden(policy, l.coupons, l.carts[cart].applied, l.coupons[id])
    && Verdict(rules, l.coupons[id], Context(l.carts[cart].total, country, now)).None?
  }

  /** The checks of an application in their order, each with its error. */
  lemma ApplyRefusals(rules: Rules, policy: Policy, codes: Codes, l: Ledger, tenant: TenantId, cart: CartId,
                      code: string, now: int, country: Option<string>, id: CouponId)
    ensures var r := Apply(rules, policy, codes, l, tenant, cart, code, now, country);
            && ((forall k :: !CodeOf(codes, l.coupons, tenant, code, k)) ==> r == Err(Refused(CouponNotFound)))
            && (CodeOf(codes, l.coupons, tenant, code, id) ==>
                  if !(cart in l.carts && l.carts[cart].tenant == tenant) then r == Err(OnCart(CartMissing))
                  else
                    var row := l.carts[cart];
                    var verdict := Verdict(rules, l.coupons[id], Context(row.total, country, now));
                    if exists a :: a in row.applied && a.coupon == id then r == Err(Refused(CouponAlreadyApplied))
                    else if Forbidden(policy, l.coupons, row.applied, l.coupons[id]) then r == Err(Refused(CouponStackingViolation))
                    else if verdict.Some? then r == Err(Refused(verdict.value))
                    else r.Err? ==> r == Err(OnCart(AmountOverflow)))
  {
    if (tenant, code) in codes && codes[(tenant, code)] in l.coupons && l.coupons[codes[(tenant, code)]].active {
      assert CodeOf(codes, l.coupons, tenant, code, codes[(tenant, code)]);
    }
    if CodeOf(codes, l.coupons, tenant, code, id) && cart in l.carts && l.carts[cart].tenant == tenant {
      HasMeans(l.carts[cart].applied, id);
      ConflictMeans(policy, l.coupons, l.carts[cart].applied, l.coupons[id]);
      VerdictMeaning(rules, l.coupons[id], Context(l.carts[cart].total, country, now));
    }
  }

  /** All that a successful application does: one new row with its snapshot, one use more, the amounts re-derived. */
  lemma ApplyExactly(rules: Rules, policy: Policy, codes: Codes, l: Ledger, tenant: TenantId, cart: CartId,
                     code: string, now: int, country: Option<string>, id: CouponId)
    requires CodeOf(codes, l.coupons, tenant, code, id)
    ensures var r := Apply(rules, policy, codes, l, tenant, cart, code, now, country);
            && (r.Ok? ==> PassesChecks(rules, policy, l, tenant, cart, id, now, country))
            && (r.Ok? ==>
                  && cart in r.value.carts && r.value.carts == l.carts[cart := r.value.carts[cart]]
                  && r.value.coupons == l.coupons[id := l.coupons[id].(used := l.coupons[id].used + 1)]
                  && var row, row' := l.carts[cart], r.value.carts[cart];
                  && Rederived(row, row') && row'.items == row.items
                  && exists snapshot :: && TakesOff(l.coupons[id], row.total, SumApplied(row.applied), snapshot)
                                        && row'.applied == row.applied + [Application(id, snapshot)])
            && (r.Err? && PassesChecks(rules, policy, l, tenant, cart, id, now, country) ==>
                  var row := l.carts[cart];
                  || SumItems(row.items) >= MONEY_BOUND
                  || exists snapshot :: && TakesOff(l.coupons[id], row.total, SumApplied(row.applied), snapshot)
                                        && SumApplied(row.applied) + snapshot >= MONEY_BOUND)
  {
    if cart in l.carts {
      var row := l.carts[cart];
      var snapshot := ComputeDiscount(l.coupons[id], row.total, SumApplied(row.applied));
      HasMeans(row.applied, id);
      ConflictMeans(policy, l.coupons, row.applied, l.coupons[id]);
      VerdictMeaning(rules, l.coupons[id], Context(row.total, country, now));
      DiscountMeans(l.coupons[id], row.total, SumApplied(row.applied));
      SumAppliedAppend(row.applied, Application(id, snapshot));
    }
  }

  /** With the built-in rules, every constraint of an applied coupon is met by the cart it was applied to. */
  lemma AppliedCouponsWereEarned(policy: Policy, codes: Codes, l: Ledger, tenant: TenantId, cart: CartId,
                                 code: string, now: int, country: Option<string>, id: CouponId)
    requires CodeOf(codes, l.coupons, tenant, code, id) && DistinctKeys(l.coupons[id].constraints)
    requires Apply(BuiltInRules(), policy, codes, l, tenant, cart, code, now, country).Ok?
    ensures cart in l.carts && InWindow(l.coupons[id], now) && HasRoom(l.coupons[id])
    ensures forall key, value :: (key, value) in l.coupons[id].constraints ==>
              (key == "usage_limit" && l.coupons[id].usageLimit.Some?)
              || Holds(l.coupons[id], Context(l.carts[cart].total, country, now), key, value)
  {
    ApplyExactly(BuiltInRules(), policy, codes, l, tenant, cart, code, now, country, id);
    CouponAcceptedExactly(l.coupons[id], Context(l.carts[cart].total, country, now));
  }

  /** A removal deletes the row of the coupon, if there is one, and takes one use off; all else is re-derived. */
  lemma UnapplyExactly(l: Ledger, tenant: TenantId, cart: CartId, id: CouponId, i: nat)
    requires Owned(l.carts, tenant, cart) ==>
               && i <= |l.carts[cart].applied|
               && (forall j :: 0 <= j < i ==> l.carts[cart].applied[j].coupon != id)
               && (i < |l.carts[cart].applied| ==> l.carts[cart].applied[i].coupon == id)
    ensures var r := Unapply(l, tenant, cart, id);
            && (r == Err(OnCart(CartMissing)) <==> !(cart in l.carts && l.carts[cart].tenant == tenant))
            && (r.Err? && Owned(l.carts, tenant, cart) ==> r == Err(OnCart(AmountOverflow)))
            && (r.Ok? ==>
                  && cart in r.value.carts && r.value.carts == l.carts[cart := r.value.carts[cart]]
                  && var row, row' := l.carts[cart], r.value.carts[cart];
                  && Rederived(row, row') && row'.items == row.items
                  && row'.applied == (if i < |row.applied| then row.applied[..i] + row.applied[i + 1..] else row.applied)
                  && r.value.coupons == if i < |row.applied| && id in l.coupons && l.coupons[id].tenant == tenant && l.coupons[id].used > 0
                                        then l.coupons[id := l.coupons[id].(used := l.coupons[id].used - 1)] else l.coupons)
  {
    if Owned(l.carts, tenant, cart) {
      WithoutAt(l.carts[cart].applied, id, i);
    }
  }

  /** The refusal of the first coupon, in order of application, that fails. */
  lemma {:induction false} FirstRefusalIsFirst(rules: Rules, coupons: Coupons, applied: seq<Application>, ctx: Context)
    ensures var r := FirstRefusal(rules, coupons, applied, ctx);
            r.Some? ==> exists i :: && 0 <= i < |applied| && applied[i].coupon in coupons
                                    && Verdict(rules, coupons[applied[i].coupon], ctx) == r
                                    && forall j :: 0 <= j < i && applied[j].coupon in coupons ==>
                                         Verdict(rules, coupons[applied[j].coupon], ctx).None?
  {
    if applied != [] && FirstRefusal(rules, coupons, applied, ctx).Some? {
      if applied[0].coupon !in coupons || Verdict(rules, coupons[applied[0].coupon], ctx).None? {
        FirstRefusalIsFirst(rules, coupons, applied[1..], ctx);
        var rest := applied[1..];
        var i :| 0 <= i < |rest| && rest[i].coupon in coupons
                 && Verdict(rules, coupons[rest[i].coupon], ctx) == FirstRefusal(rules, coupons, applied, ctx)
                 && forall j :: 0 <= j < i && rest[j].coupon in coupons ==> Verdict(rules, coupons[rest[j].coupon], ctx).None?;
        assert applied[i + 1] == rest[i];
        assert forall j :: 0 < j <= i ==> applied[j] == rest[j - 1];
      }
    }
  }

  /** Revalidating re-derives a cart whose coupons all pass, or refuses with the first that does not. */
  lemma RevalidateExactly(rules: Rules, l: Ledger, tenant: TenantId, cart: CartId, now: int, country: Option<string>)
    ensures var r := Revalidate(rules, l, tenant, cart, now, country);
            if !(cart in l.carts && l.carts[cart].tenant == tenant) then r == Err(OnCart(CartMissing))
            else
              var row, ctx := l.carts[cart], Context(l.carts[cart].total, country, now);
              if forall a :: a in row.applied && a.coupon in l.coupons ==> Verdict(rules, l.coupons[a.coupon], ctx).None?
              then
                && (r.Err? ==> r == Err(OnCart(AmountOverflow)))
                && (r.Ok? ==>
                      && r.value.coupons == l.coupons && cart in r.value.carts
                      && r.value.carts == l.carts[cart := r.value.carts[cart]]
                      && Rederived(row, r.value.carts[cart])
                      && r.value.carts[cart].items == row.items && r.value.carts[cart].applied == row.applied)
              else
                && r.Err? && r.error.Refused?
                && exists i :: && 0 <= i < |row.applied| && row.applied[i].coupon in l.coupons
                               && Verdict(rules, l.coupons[row.applied[i].coupon], ctx) == Some(r.error.reason)
                               && forall j :: 0 <= j < i && row.applied[j].coupon in l.coupons ==>
                                    Verdict(rules, l.coupons[row.applied[j].coupon], ctx).None?
  {
    if Owned(l.carts, tenant, cart) {
      FirstRefusalMeaning(rules, l.coupons, l.carts[cart].applied, Context(l.carts[cart].total, country, now));
      FirstRefusalIsFirst(rules, l.coupons, l.carts[cart].applied, Context(l.carts[cart].total, country, now));
    }
  }
}
