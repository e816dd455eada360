/** In which orders a list of coupon calls is admitted: the checks do not see the order, only a money column may. */
module CouponOrder {
  import opened Schema
  import opened CartRules
  import opened Validation
  import opened CouponRules
  import opened CouponLaws
  import Money

  /** Where the calls are made. */
  datatype Desk = Desk(rules: Rules, policy: Policy, codes: Codes, tenant: TenantId, cart: CartId)

  function ApplyOne(desk: Desk, l: Ledger, call: Call): Result<Ledger, ApplyError>
  {
    Apply(desk.rules, desk.policy, desk.codes, l, desk.tenant, desk.cart, call.code, call.now, call.country)
  }

  /** One call after the other, up to the first that is refused. */
  function ApplyAll(desk: Desk, l: Ledger, calls: seq<Call>): Result<Ledger, ApplyError>
    decreases |calls|
  {
    if calls == [] then Ok(l)
    else
      match ApplyOne(desk, l, calls[0])
      case Err(e) => Err(e)
      case Ok(l') => ApplyAll(desk, l', calls[1..])
  }

  function IdOf(desk: Desk, call: Call): CouponId
  {
    if (desk.tenant, call.code) in desk.codes then desk.codes[(desk.tenant, call.code)] else 0
  }

  function Ids(desk: Desk, calls: seq<Call>): seq<CouponId>
  {
    if calls == [] then [] else [IdOf(desk, calls[0])] + Ids(desk, calls[1..])
  }

  /** Everything a call is checked for but the room in the discount column, with no other call before it. */
  predicate PassesAlone(desk: Desk, l: Ledger, call: Call)
  {
    && (desk.tenant, call.code) in desk.codes
    && var id := desk.codes[(desk.tenant, call.code)];
    && id in l.coupons && l.coupons[id].active
    && Owned(l.carts, desk.tenant, desk.cart)
    && var row := l.carts[desk.cart];
    && !Has(row.applied, id)
    && !Conflict(desk.policy, l.coupons, row.applied, l.coupons[id])
    && Verdict(desk.rules, l.coupons[id], ContextOf(row, call.now, call.country)).None?
    && (l.coupons[id].usageLimit.Some? ==> l.coupons[id].used < l.coupons[id].usageLimit.value)
  }

  /** Two calls for different coupons that the policy lets stand on one cart. */
  predicate Compatible(desk: Desk, coupons: Coupons, call: Call, call': Call)
  {
    var id, id' := IdOf(desk, call), IdOf(desk, call');
    && id != id'
    && match desk.policy
       case AnyNumber => true
       case SingleOnly => false
       case OnePerDiscountType =>
         id in coupons && id' in coupons ==> coupons[id].discountType != coupons[id'].discountType
  }

  ghost predicate Together(desk: Desk, l: Ledger, calls: seq<Call>)
  {
    && (forall i :: 0 <= i < |calls| ==> PassesAlone(desk, l, calls[i]))
    && (forall i, j :: 0 <= i < j < |calls| ==> Compatible(desk, l.coupons, calls[i], calls[j]))
  }

  /** The discount a cart would carry after the calls, from the coupons' terms alone. */
  function DiscountAfter(desk: Desk, coupons: Coupons, calls: seq<Call>, total: nat, discount: nat): nat
  {
    if calls == [] then discount
    else
      var id := IdOf(desk, calls[0]);
      DiscountAfter(desk, coupons, calls[1..], total,
                    discount + if id in coupons then ComputeDiscount(coupons[id], total, discount) else 0)
  }

  // ------------------------------------------------------------- one call

  lemma ApplyOneExactly(desk: Desk, l: Ledger, call: Call)
    requires desk.cart in l.carts && TotalsOk(l.carts[desk.cart])
    ensures var row := l.carts[desk.cart];
            ApplyOne(desk, l, call).Ok?
            <==> PassesAlone(desk, l, call)
                 && row.discount + ComputeDiscount(l.coupons[IdOf(desk, call)], row.total, row.discount) < MONEY_BOUND
  {
    if PassesAlone(desk, l, call) {
      var row, id := l.carts[desk.cart], IdOf(desk, call);
      SumAppliedAppend(row.applied, Application(id, ComputeDiscount(l.coupons[id], row.total, row.discount)));
    }
  }

  /** What one successful call leaves for the next ones. */
  ghost predicate OneApplied(desk: Desk, l: Ledger, l': Ledger, call: Call)
  {
    var id := IdOf(desk, call);
    && id in l.coupons && desk.cart in l.carts && desk.cart in l'.carts
    && TotalsOk(l'.carts[desk.cart])
    && SameTerms(l.coupons, l'.coupons) && (forall k :: k in l.coupons && k != id ==> l'.coupons[k] == l.coupons[k])
    && var row, row' := l.carts[desk.cart], l'.carts[desk.cart];
    && row'.tenant == row.tenant && row'.total == row.total
    && row'.discount == row.discount + ComputeDiscount(l.coupons[id], row.total, row.discount)
    && |row'.applied| == |row.applied| + 1 && row'.applied[..|row.applied|] == row.applied
    && row'.applied[|row.applied|].coupon == id
  }

  lemma ApplyOneLeaves(desk: Desk, l: Ledger, call: Call)
    requires desk.cart in l.carts && TotalsOk(l.carts[desk.cart]) && ApplyOne(desk, l, call).Ok?
    ensures OneApplied(desk, l, ApplyOne(desk, l, call).value, call)
  {
    ApplyEffect(desk.rules, desk.policy, desk.codes, l, desk.tenant, desk.cart, call.code, call.now, call.country);
  }

  lemma ConflictAfter(policy: Policy, coupons: Coupons, coupons': Coupons, applied: seq<Application>, last: Application,
                      candidate: Coupon)
    requires SameTerms(coupons, coupons') && last.coupon in coupons
    ensures Conflict(policy, coupons', applied + [last], candidate)
            <==> Conflict(policy, coupons, applied, candidate) || policy.SingleOnly?
                 || (policy.OnePerDiscountType? && coupons[last.coupon].discountType == candidate.discountType)
  {
    var applied' := applied + [last];
    assert forall i :: 0 <= i < |applied'| ==> applied'[i] == if i < |applied| then applied[i] else last;
    forall k | k in coupons ensures coupons'[k].discountType == coupons[k].discountType {
      SameTermsOf(coupons, coupons', k);
    }
    if policy.OnePerDiscountType? {
      assert applied'[|applied|] == last;
      if TypeTaken(coupons, applied, candidate.discountType) {
        var i :| 0 <= i < |applied| && applied[i].coupon in coupons
                 && coupons[applied[i].coupon].discountType == candidate.discountType;
        assert applied'[i] == applied[i];
      }
    }
  }

  /** After one call, another one passes exactly if it passed before and is compatible with it. */
  lemma PassesAfter(desk: Desk, l: Ledger, l': Ledger, call: Call, next: Call)
    requires OneApplied(desk, l, l', call)
    ensures PassesAlone(desk, l', next) <==> PassesAlone(desk, l, next) && Compatible(desk, l.coupons, call, next)
  {
    var row, row' := l.carts[desk.cart], l'.carts[desk.cart];
    var last := row'.applied[|row.applied|];
    var id := IdOf(desk, next);
    assert row'.applied == row.applied + [last];
    HasAppend(row.applied, last, id);
    if id in l.coupons {
      SameTermsOf(l.coupons, l'.coupons, id);
      ConflictAfter(desk.policy, l.coupons, l'.coupons, row.applied, last, l.coupons[id]);
      ConflictTerms(desk.policy, l'.coupons, row'.applied, l.coupons[id], l'.coupons[id]);
    }
  }

  lemma ConflictTerms(policy: Policy, coupons: Coupons, applied: seq<Application>, candidate: Coupon, candidate': Coupon)
    requires candidate'.discountType == candidate.discountType
    ensures Conflict(policy, coupons, applied, candidate') <==> Conflict(policy, coupons, applied, candidate)
  {
  }

  lemma CompatibleTerms(desk: Desk, coupons: Coupons, coupons': Coupons, call: Call, call': Call)
    requires SameTerms(coupons, coupons')
    ensures Compatible(desk, coupons', call, call') <==> Compatible(desk, coupons, call, call')
  {
    var id, id' := IdOf(desk, call), IdOf(desk, call');
    if id in coupons && id' in coupons {
      SameTermsOf(coupons, coupons', id);
      SameTermsOf(coupons, coupons', id');
    }
  }

  lemma {:induction false} DiscountTerms(desk: Desk, coupons: Coupons, coupons': Coupons, calls: seq<Call>, total: nat, discount: nat)
    requires SameTerms(coupons, coupons')
    ensures DiscountAfter(desk, coupons', calls, total, discount) == DiscountAfter(desk, coupons, calls, total, discount)
  {
    if calls != [] {
      var id := IdOf(desk, calls[0]);
      if id in coupons {
        SameTermsOf(coupons, coupons', id);
      }
      DiscountTerms(desk, coupons, coupons', calls[1..], total,
                    discount + if id in coupons then ComputeDiscount(coupons[id], total, discount) else 0);
    }
  }

  lemma {:induction false} DiscountGrows(desk: Desk, coupons: Coupons, calls: seq<Call>, total: nat, discount: nat)
    ensures DiscountAfter(desk, coupons, calls, total, discount) >= discount
  {
    if calls != [] {
      var id := IdOf(desk, calls[0]);
      DiscountGrows(desk, coupons, calls[1..], total,
                    discount + if id in coupons then ComputeDiscount(coupons[id], total, discount) else 0);
    }
  }

  // --------------------------------------------------------- all the calls

  lemma TogetherAfter(desk: Desk, l: Ledger, l': Ledger, calls: seq<Call>)
    requires calls != [] && OneApplied(desk, l, l', calls[0]) && PassesAlone(desk, l, calls[0])
    ensures Together(desk, l', calls[1..]) <==> Together(desk, l, calls)
  {
    var rest := calls[1..];
    forall i | 0 <= i < |rest|
      ensures PassesAlone(desk, l', rest[i]) <==> PassesAlone(desk, l, calls[i + 1]) && Compatible(desk, l.coupons, calls[0], calls[i + 1])
    {
      PassesAfter(desk, l, l', calls[0], rest[i]);
    }
    forall i, j | 0 <= i < j < |rest|
      ensures Compatible(desk, l'.coupons, rest[i], rest[j]) <==> Compatible(desk, l.coupons, calls[i + 1], calls[j + 1])
    {
      CompatibleTerms(desk, l.coupons, l'.coupons, rest[i], rest[j]);
    }
    if Together(desk, l', rest) {
      TogetherFirst(desk, l, l', calls);
    }
    if Together(desk, l, calls) {
      forall i | 0 <= i < |rest| ensures PassesAlone(desk, l', rest[i]) {
        assert PassesAlone(desk, l, calls[i + 1]);
      }
    }
  }

  lemma TogetherFirst(desk: Desk, l: Ledger, l': Ledger, calls: seq<Call>)
    requires calls != [] && PassesAlone(desk, l, calls[0]) && Together(desk, l', calls[1..])
    requires forall i :: 0 <= i < |calls| - 1 ==>
               (PassesAlone(desk, l', calls[1..][i])
                <==> PassesAlone(desk, l, calls[i + 1]) && Compatible(desk, l.coupons, calls[0], calls[i + 1]))
    requires forall i, j :: 0 <= i < j < |calls| - 1 ==>
               (Compatible(desk, l'.coupons, calls[1..][i], calls[1..][j])
                <==> Compatible(desk, l.coupons, calls[i + 1], calls[j + 1]))
    ensures Together(desk, l, calls)
  {
    var rest := calls[1..];
    forall i | 0 <= i < |calls| ensures PassesAlone(desk, l, calls[i]) {
      if i > 0 {
        assert PassesAlone(desk, l', rest[i - 1]);
      }
    }
    forall i, j | 0 <= i < j < |calls| ensures Compatible(desk, l.coupons, calls[i], calls[j]) {
      assert PassesAlone(desk, l', rest[j - 1]);
      if i > 0 {
        assert Compatible(desk, l'.coupons, rest[i - 1], rest[j - 1]);
      }
    }
  }

  /** Each call passes alone, each two are compatible, and the discount fits its column. */
  ghost predicate Admitted(desk: Desk, l: Ledger, calls: seq<Call>)
    requires desk.cart in l.carts
  {
    var row := l.carts[desk.cart];
    Together(desk, l, calls) && DiscountAfter(desk, l.coupons, calls, row.total, row.discount) < MONEY_BOUND
  }

  lemma AdmittedAfter(desk: Desk, l: Ledger, l': Ledger, calls: seq<Call>)
    requires calls != [] && OneApplied(desk, l, l', calls[0]) && PassesAlone(desk, l, calls[0])
    ensures Admitted(desk, l', calls[1..]) <==> Admitted(desk, l, calls)
  {
    TogetherAfter(desk, l, l', calls);
    DiscountTerms(desk, l.coupons, l'.coupons, calls[1..], l.carts[desk.cart].total, l'.carts[desk.cart].discount);
  }

  lemma FirstRefusedIsNotAdmitted(desk: Desk, l: Ledger, calls: seq<Call>)
    requires calls != [] && desk.cart in l.carts && TotalsOk(l.carts[desk.cart]) && ApplyOne(desk, l, calls[0]).Err?
    ensures !Admitted(desk, l, calls)
  {
    var row := l.carts[desk.cart];
    ApplyOneExactly(desk, l, calls[0]);
    if PassesAlone(desk, l, calls[0]) {
      DiscountGrows(desk, l.coupons, calls[1..], row.total,
                    row.discount + ComputeDiscount(l.coupons[IdOf(desk, calls[0])], row.total, row.discount));
    }
  }

  /** The calls all succeed exactly if they are admitted together. */
  lemma {:induction false} ApplyAllExactly(desk: Desk, l: Ledger, calls: seq<Call>)
    requires desk.cart in l.carts && TotalsOk(l.carts[desk.cart])
    ensures ApplyAll(desk, l, calls).Ok? <==> Admitted(desk, l, calls)
    decreases |calls|
  {
    if calls != [] {
      if ApplyOne(desk, l, calls[0]).Ok? {
        ApplyOneExactly(desk, l, calls[0]);
        ApplyOneLeaves(desk, l, calls[0]);
        ApplyAllExactly(desk, ApplyOne(desk, l, calls[0]).value, calls[1..]);
        AdmittedAfter(desk, l, ApplyOne(desk, l, calls[0]).value, calls);
      } else {
        FirstRefusedIsNotAdmitted(desk, l, calls);
      }
    }
  }

  // ---------------------------------------------------------- permutations

  lemma TwiceCounted<T>(s: seq<T>, i: nat, j: nat)
    requires i < j < |s| && s[i] == s[j]
    ensures multiset(s)[s[i]] >= 2
  {
    assert s == s[..j] + s[j..];
    assert s[i] == s[..j][i] && s[j] == s[j..][0];
    assert s[i] in multiset(s[..j]) && s[i] in multiset(s[j..]);
  }

  lemma {:induction false} OnceCounted<T>(s: seq<T>, x: T)
    requires forall i, j :: 0 <= i < j < |s| ==> s[i] != s[j]
    ensures multiset(s)[x] <= 1
  {
    if s != [] {
      assert s == [s[0]] + s[1..];
      OnceCounted(s[1..], x);
      assert forall j :: 0 <= j < |s[1..]| ==> s[1..][j] == s[j + 1];
      assert s[0] !in s[1..];
    }
  }

  lemma Elsewhere<T>(s: seq<T>, s': seq<T>, i: nat) returns (k: nat)
    requires multiset(s) == multiset(s') && i < |s'|
    ensures k < |s| && s[k] == s'[i]
  {
    assert s'[i] in multiset(s);
    k :| 0 <= k < |s| && s[k] == s'[i];
  }

  /** None of the checks sees the order of the calls. */
  lemma TogetherPermutes(desk: Desk, l: Ledger, calls: seq<Call>, calls': seq<Call>)
    requires Together(desk, l, calls) && multiset(calls) == multiset(calls')
    ensures Together(desk, l, calls')
  {
    forall i | 0 <= i < |calls'| ensures PassesAlone(desk, l, calls'[i]) {
      var k := Elsewhere(calls, calls', i);
    }
    forall i, j | 0 <= i < j < |calls'| ensures Compatible(desk, l.coupons, calls'[i], calls'[j]) {
      var k := Elsewhere(calls, calls', i);
      var m := Elsewhere(calls, calls', j);
      if calls'[i] == calls'[j] {
        TwiceCounted(calls', i, j);
        OnceCounted(calls, calls'[i]);
        assert false;
      }
      if k < m {
        assert Compatible(desk, l.coupons, calls[k], calls[m]);
      } else {
        assert Compatible(desk, l.coupons, calls[m], calls[k]);
      }
    }
  }

  // ------------------------------------------------------------------ price

  /** The ledgers before, between and after the calls. */
  function Trace(desk: Desk, l: Ledger, calls: seq<Call>): (ls: seq<Ledger>)
    requires ApplyAll(desk, l, calls).Ok?
    ensures |ls| == |calls| + 1 && ls[0] == l && ls[|calls|] == ApplyAll(desk, l, calls).value
    decreases |calls|
  {
    if calls == [] then [l] else [l] + Trace(desk, ApplyOne(desk, l, calls[0]).value, calls[1..])
  }

  lemma {:induction false} TraceIsInTurn(desk: Desk, l: Ledger, calls: seq<Call>)
    requires ApplyAll(desk, l, calls).Ok?
    ensures AppliedInTurn(desk.rules, desk.policy, desk.codes, Trace(desk, l, calls), desk.tenant, desk.cart, calls, Ids(desk, calls))
    decreases |calls|
  {
    if calls != [] {
      var l', rest := ApplyOne(desk, l, calls[0]).value, calls[1..];
      TraceIsInTurn(desk, l', rest);
      var ls, ids := Trace(desk, l', rest), Ids(desk, rest);
      assert forall i :: 0 < i <= |rest| ==> calls[i] == rest[i - 1];
      assert Ids(desk, calls) == [IdOf(desk, calls[0])] + ids && Trace(desk, l, calls) == [l] + ls;
    }
  }

  lemma {:induction false} IdsCat(desk: Desk, calls: seq<Call>, more: seq<Call>)
    ensures Ids(desk, calls + more) == Ids(desk, calls) + Ids(desk, more)
  {
    if calls == [] {
      assert calls + more == more;
    } else {
      assert (calls + more)[1..] == calls[1..] + more;
      IdsCat(desk, calls[1..], more);
    }
  }

  lemma IdsAt(desk: Desk, calls: seq<Call>, i: nat)
    requires i < |calls|
    ensures multiset(Ids(desk, calls)) == multiset(Ids(desk, calls[..i] + calls[i + 1..])) + multiset{IdOf(desk, calls[i])}
  {
    var before, after := calls[..i], calls[i + 1..];
    assert calls == before + ([calls[i]] + after);
    IdsCat(desk, before, [calls[i]] + after);
    IdsCat(desk, [calls[i]], after);
    IdsCat(desk, before, after);
  }

  lemma {:induction false} IdsPermute(desk: Desk, calls: seq<Call>, calls': seq<Call>)
    requires multiset(calls) == multiset(calls')
    ensures multiset(Ids(desk, calls)) == multiset(Ids(desk, calls'))
    decreases |calls|
  {
    if calls == [] {
      assert |multiset(calls')| == 0;
    } else {
      var i := PositionOf(calls[0], calls, calls');
      IdsPermute(desk, calls[1..], calls'[..i] + calls'[i + 1..]);
      IdsAt(desk, calls', i);
      assert Ids(desk, calls) == [IdOf(desk, calls[0])] + Ids(desk, calls[1..]);
    }
  }

  /**
   When a list of coupons has been admitted in one order, any other order is admitted if and only if the
   discount it would come to, from the coupons' terms alone, fits its column; the same validations,
   stacking rule and caps hold in every order.  And then the customer pays the same.
   */
  lemma PermutedOrderSucceedsExactlyWhenItFits(desk: Desk, l: Ledger, calls: seq<Call>, calls': seq<Call>)
    requires desk.cart in l.carts && TotalsOk(l.carts[desk.cart])
    requires ApplyAll(desk, l, calls).Ok? && multiset(calls) == multiset(calls')
    ensures var row := l.carts[desk.cart];
            ApplyAll(desk, l, calls').Ok? <==> DiscountAfter(desk, l.coupons, calls', row.total, row.discount) < MONEY_BOUND
    ensures ApplyAll(desk, l, calls').Ok? ==>
              var after, after' := ApplyAll(desk, l, calls).value, ApplyAll(desk, l, calls').value;
              && desk.cart in after.carts && desk.cart in after'.carts
              && after.carts[desk.cart].payable == after'.carts[desk.cart].payable
  {
    ApplyAllExactly(desk, l, calls);
    ApplyAllExactly(desk, l, calls');
    TogetherPermutes(desk, l, calls, calls');
    if ApplyAll(desk, l, calls').Ok? {
      TraceIsInTurn(desk, l, calls);
      TraceIsInTurn(desk, l, calls');
      IdsPermute(desk, calls, calls');
      OrderOfCouponsDoesNotChangeThePrice(desk.rules, desk.policy, desk.codes, Trace(desk, l, calls), Trace(desk, l, calls'),
                                          desk.tenant, desk.cart, calls, calls', Ids(desk, calls), Ids(desk, calls'));
    }
  }

  /** The column does make a difference: a cent off and all off fit a cart of the largest total in one order only. */
  lemma OneOrderOverflows(cent: Coupon, all: Coupon)
    requires cent.discountType.Fixed? && cent.value == 1
    requires all.discountType.Percentage? && all.value == 10_000
    ensures var total := MONEY_BOUND - 1;
            var allFirst, centFirst := ComputeDiscount(all, total, 0), ComputeDiscount(cent, total, 0);
            && allFirst + ComputeDiscount(cent, total, allFirst) < MONEY_BOUND
            && centFirst + ComputeDiscount(all, total, centFirst) == MONEY_BOUND
  {
    Money.PercentageRoundsOnce(MONEY_BOUND - 1, 10_000);
    assert Money.HalfUp((MONEY_BOUND - 1) * 10_000, Money.WHOLE) == MONEY_BOUND - 1;
  }
}
