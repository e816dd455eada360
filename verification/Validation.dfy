/**
 The coupon validator: built-in checks, then the JSON constraints of the coupon in insertion order,
 each handled by the rule registered for its key.
 */
module Validation {
  import opened Schema
  import opened Text

  /** What the rules may look at besides the coupon.  `country` is that of the default address. */
  datatype Context = Context(total: nat, country: Option<string>, now: int)

  type Rule = (Coupon, Value, Context) -> Option<CouponError>

  type Rules = map<string, Rule>

  // ------------------------------------------------------- built-in checks

  function WindowError(coupon: Coupon, now: int): Option<CouponError>
  {
    if coupon.startsAt.Some? && now < coupon.startsAt.value then Some(CouponExpired)
    else if coupon.endsAt.Some? && now > coupon.endsAt.value then Some(CouponExpired)
    else None
  }

  function Lookup(constraints: seq<(string, Value)>, key: string): Option<Value>
  {
    if constraints == [] then None
    else if constraints[0].0 == key then Some(constraints[0].1)
    else Lookup(constraints[1..], key)
  }

  datatype Cap = Unlimited | Limit(cap: int) | Malformed

  /** The usage cap: the column when set, else the `usage_limit` constraint unless absent or null. */
  function CapOf(coupon: Coupon): Cap
  {
    if coupon.usageLimit.Some? then Limit(coupon.usageLimit.value)
    else
      match Lookup(coupon.constraints, "usage_limit")
      case None => Unlimited
      case Some(v) => if v.Null? then Unlimited else if v.integer.None? then Malformed else Limit(v.integer.value)
  }

  function CapError(coupon: Coupon): Option<CouponError>
  {
    match CapOf(coupon)
    case Unlimited => None
    case Malformed => Some(CouponConstraintFailed("usage_limit"))
    case Limit(cap) => if coupon.used >= cap then Some(CouponLimitReached) else None
  }

  // ------------------------------------------------------ registered rules

  function MinTotal(coupon: Coupon, value: Value, ctx: Context): Option<CouponError>
  {
    if value.Null? || value.decimal.None? || ctx.total as real < value.decimal.value * 100.0
    then Some(CouponConstraintFailed("min_total")) else None
  }

  function AllowedCountries(coupon: Coupon, value: Value, ctx: Context): Option<CouponError>
  {
    var failed := Some(CouponConstraintFailed("allowed_countries"));
    if value.Null? || value.list.None? || value.list.value == [] || ctx.country.None? || ctx.country.value == "" then failed
    else if exists i :: 0 <= i < |value.list.value| && Upper(value.list.value[i]) == Upper(ctx.country.value) then None
    else failed
  }

  function UsageLimitJson(coupon: Coupon, value: Value, ctx: Context): Option<CouponError>
  {
    if value.Null? || value.integer.None? then Some(CouponConstraintFailed("usage_limit"))
    else if coupon.used >= value.integer.value then Some(CouponLimitReached)
    else None
  }

  function BuiltInRules(): Rules
  {
    map["min_total" := MinTotal, "allowed_countries" := AllowedCountries, "usage_limit" := UsageLimitJson]
  }

  // --------------------------------------------------------------- verdict

  /** What one constraint says; a key without a rule fails, a JSON cap overridden by the column is skipped. */
  function EntryError(rules: Rules, coupon: Coupon, ctx: Context, entry: (string, Value)): Option<CouponError>
  {
    if entry.0 == "usage_limit" && coupon.usageLimit.Some? then None
    else if entry.0 !in rules then Some(CouponConstraintFailed(entry.0))
    else rules[entry.0](coupon, entry.1, ctx)
  }

  function FirstError(rules: Rules, coupon: Coupon, ctx: Context, entries: seq<(string, Value)>): Option<CouponError>
  {
    if entries == [] then None
    else
      match EntryError(rules, coupon, ctx, entries[0])
      case Some(e) => Some(e)
      case None => FirstError(rules, coupon, ctx, entries[1..])
  }

  /** The error a coupon is rejected with, if any. */
  function Verdict(rules: Rules, coupon: Coupon, ctx: Context): Option<CouponError>
  {
    if !coupon.active then Some(CouponInactive)
    else
      match WindowError(coupon, ctx.now)
      case Some(e) => Some(e)
      case None =>
        match CapError(coupon)
        case Some(e) => Some(e)
        case None => FirstError(rules, coupon, ctx, coupon.constraints)
  }

  class CouponValidator {
    var rules: Rules

    constructor ()
      ensures rules == BuiltInRules()
    {
      rules := map[];
      new;
      Register("min_total", MinTotal);
      Register("allowed_countries", AllowedCountries);
      Register("usage_limit", UsageLimitJson);
    }

    /** Registering a key again replaces its rule. */
    method Register(key: string, rule: Rule)
      modifies this
      ensures rules == old(rules)[key := rule]
    {
      rules := rules[key := rule];
    }

    method Validate(coupon: Coupon, ctx: Context) returns (r: Option<CouponError>)
      ensures r == Verdict(rules, coupon, ctx)
    {
      if !coupon.active {
        return Some(CouponInactive);
      }
      r := WindowError(coupon, ctx.now);
      if r.Some? {
        return;
      }
      r := CapError(coupon);
      if r.Some? {
        return;
      }
      for i := 0 to |coupon.constraints|
        invariant FirstError(rules, coupon, ctx, coupon.constraints)
               == FirstError(rules, coupon, ctx, coupon.constraints[i..])
      {
        assert coupon.constraints[i..][1..] == coupon.constraints[i + 1..];
        var (key, value) := coupon.constraints[i];
        if key == "usage_limit" && coupon.usageLimit.Some? {
          continue;
        }
        if key !in rules {
          return Some(CouponConstraintFailed(key));
        }
        r := rules[key](coupon, value, ctx);
        if r.Some? {
          return;
        }
      }
      r := None;
    }
  }

  // ---------------------------------------------------------------- lemmas

  /** Inside the validity window, both ends included; under the cap that applies. */
  ghost predicate Eligible(coupon: Coupon, now: int)
  {
    && coupon.active
    && (coupon.startsAt.Some? ==> coupon.startsAt.value <= now)
    && (coupon.endsAt.Some? ==> now <= coupon.endsAt.value)
    && !CapOf(coupon).Malformed?
    && (CapOf(coupon).Limit? ==> coupon.used < CapOf(coupon).cap)
  }

  /** The keys of a JSON object are distinct. */
  ghost predicate DistinctKeys(entries: seq<(string, Value)>)
  {
    forall i, j :: 0 <= i < j < |entries| ==> entries[i].0 != entries[j].0
  }

  lemma {:induction false} FirstErrorIsFirst(rules: Rules, coupon: Coupon, ctx: Context, entries: seq<(string, Value)>)
    returns (i: nat)
    ensures i <= |entries|
    ensures forall j :: 0 <= j < i ==> EntryError(rules, coupon, ctx, entries[j]).None?
    ensures FirstError(rules, coupon, ctx, entries)
         == if i < |entries| then EntryError(rules, coupon, ctx, entries[i]) else None
    ensures i < |entries| ==> EntryError(rules, coupon, ctx, entries[i]).Some?
  {
    if entries == [] || EntryError(rules, coupon, ctx, entries[0]).Some? {
      i := 0;
    } else {
      var k := FirstErrorIsFirst(rules, coupon, ctx, entries[1..]);
      i := k + 1;
    }
  }

  /**
   A coupon is accepted exactly when it is eligible and every constraint is registered and holds;
   an eligible coupon is rejected with the error of its first failing constraint.
   */
  lemma VerdictMeaning(rules: Rules, coupon: Coupon, ctx: Context)
    ensures Verdict(rules, coupon, ctx).None? <==>
              && Eligible(coupon, ctx.now)
              && forall entry :: entry in coupon.constraints ==> EntryError(rules, coupon, ctx, entry).None?
    ensures Eligible(coupon, ctx.now) && Verdict(rules, coupon, ctx).Some? ==>
              exists i :: && 0 <= i < |coupon.constraints|
                          && Verdict(rules, coupon, ctx) == EntryError(rules, coupon, ctx, coupon.constraints[i])
                          && forall j :: 0 <= j < i ==> EntryError(rules, coupon, ctx, coupon.constraints[j]).None?
  {
    var i := FirstErrorIsFirst(rules, coupon, ctx, coupon.constraints);
    if i < |coupon.constraints| {
      assert coupon.constraints[i] in coupon.constraints;
    }
  }

  /** Rules judge a coupon by its row and the value handed to them, not by its other constraints. */
  ghost predicate Blind(rules: Rules)
  {
    forall key, coupon: Coupon, entries, value, ctx :: key in rules ==>
      rules[key](coupon.(constraints := entries), value, ctx) == rules[key](coupon, value, ctx)
  }

  lemma BuiltInRulesAreBlind()
    ensures Blind(BuiltInRules())
  {
  }

  lemma {:induction false} LookupMember(entries: seq<(string, Value)>, key: string)
    requires DistinctKeys(entries)
    ensures forall value :: Lookup(entries, key) == Some(value) <==> (key, value) in entries
  {
    if entries != [] {
      LookupMember(entries[1..], key);
      assert entries == [entries[0]] + entries[1..];
      forall j | 0 <= j < |entries[1..]| ensures entries[1..][j].0 != entries[0].0 {
        assert entries[1..][j] == entries[j + 1];
      }
    }
  }

  /**
   A coupon whose constraints include all those of another accepts no more: adding a constraint never
   widens a coupon, and the order of the constraints does not matter to acceptance.
   */
  lemma MoreConstraintsAcceptLess(rules: Rules, coupon: Coupon, more: seq<(string, Value)>, ctx: Context)
    requires Blind(rules)
    requires DistinctKeys(coupon.constraints) && DistinctKeys(more)
    requires forall entry :: entry in coupon.constraints ==> entry in more
    requires Verdict(rules, coupon.(constraints := more), ctx).None?
    ensures Verdict(rules, coupon, ctx).None?
  {
    var stricter := coupon.(constraints := more);
    VerdictMeaning(rules, stricter, ctx);
    VerdictMeaning(rules, coupon, ctx);
    LookupMember(coupon.constraints, "usage_limit");
    LookupMember(more, "usage_limit");
    forall entry | entry in coupon.constraints
      ensures EntryError(rules, coupon, ctx, entry).None?
    {
      assert EntryError(rules, stricter, ctx, entry).None?;
    }
  }

  lemma OrderOfConstraintsIsIrrelevant(rules: Rules, coupon: Coupon, permuted: seq<(string, Value)>, ctx: Context)
    requires Blind(rules)
    requires DistinctKeys(coupon.constraints) && DistinctKeys(permuted)
    requires multiset(coupon.constraints) == multiset(permuted)
    ensures Verdict(rules, coupon, ctx).None? <==> Verdict(rules, coupon.(constraints := permuted), ctx).None?
  {
    forall entry ensures entry in coupon.constraints <==> entry in permuted {
      assert entry in multiset(coupon.constraints) <==> entry in multiset(permuted);
    }
    var other := coupon.(constraints := permuted);
    if Verdict(rules, other, ctx).None? {
      MoreConstraintsAcceptLess(rules, coupon, permuted, ctx);
    }
    if Verdict(rules, coupon, ctx).None? {
      assert other.(constraints := coupon.constraints) == coupon;
      MoreConstraintsAcceptLess(rules, other, coupon.constraints, ctx);
    }
  }

  /** The rejection itself does depend on the order: two failing constraints, two different errors. */
  lemma OrderDecidesTheError(ctx: Context)
    requires ctx.country == None
    ensures exists coupon: Coupon, permuted ::
              && DistinctKeys(coupon.constraints)
              && multiset(coupon.constraints) == multiset(permuted)
              && Verdict(BuiltInRules(), coupon, ctx) != Verdict(BuiltInRules(), coupon.(constraints := permuted), ctx)
  {
    var bad := Null;
    var a, b := ("min_total", bad), ("allowed_countries", bad);
    var coupon := Coupon(0, "", Fixed, 1, None, 0, true, None, None, [a, b]);
    var permuted := [b, a];
    assert multiset(coupon.constraints) == multiset{a, b} == multiset(permuted);
    LookupMember([a, b], "usage_limit");
    LookupMember([b, a], "usage_limit");
    assert Verdict(BuiltInRules(), coupon, ctx) == Some(CouponConstraintFailed("min_total"));
    assert Verdict(BuiltInRules(), coupon.(constraints := permuted), ctx) == Some(CouponConstraintFailed("allowed_countries"));
  }

  // --------------------------------------------- what the built-in rules ask

  /** What a constraint of the three known kinds asks of a cart; an unknown kind is never met. */
  ghost predicate Holds(coupon: Coupon, ctx: Context, key: string, value: Value)
  {
    if key == "min_total" then value.Json? && value.decimal.Some? && ctx.total as real >= 100.0 * value.decimal.value
    else if key == "allowed_countries" then
      && value.Json? && value.list.Some? && ctx.country.Some? && ctx.country.value != ""
      && exists i :: 0 <= i < |value.list.value| && SameText(value.list.value[i], ctx.country.value)
    else key == "usage_limit" && value.Json? && value.integer.Some? && coupon.used < value.integer.value
  }

  lemma KeysAreDistinct()
    ensures "min_total" != "allowed_countries" && "min_total" != "usage_limit" && "allowed_countries" != "usage_limit"
  {
    assert |"min_total"| == 9 && |"allowed_countries"| == 17 && |"usage_limit"| == 11;
  }

  /**
   The built-in rules, each in the units of its constraint: a minimum total in currency units against the
   cart's cents, country codes up to case, a cap against the uses so far; and the error of each.
   */
  lemma BuiltInRulesMean(coupon: Coupon, value: Value, ctx: Context)
    ensures var rules := BuiltInRules();
            && rules.Keys == {"min_total", "allowed_countries", "usage_limit"}
            && (forall key :: key in rules ==> (rules[key](coupon, value, ctx).None? <==> Holds(coupon, ctx, key, value)))
            && (forall key :: key in rules && rules[key](coupon, value, ctx).Some? ==>
                  rules[key](coupon, value, ctx).value
                  == if key == "usage_limit" && value.Json? && value.integer.Some? then CouponLimitReached
                     else CouponConstraintFailed(key))
  {
    KeysAreDistinct();
    if value.Json? && value.list.Some? && ctx.country.Some? {
      forall i | 0 <= i < |value.list.value|
        ensures Upper(value.list.value[i]) == Upper(ctx.country.value) <==> SameText(value.list.value[i], ctx.country.value)
      {
        UpperCompares(value.list.value[i], ctx.country.value);
      }
    }
  }

  /** The validity window, both ends included and both optional. */
  ghost predicate InWindow(coupon: Coupon, now: int)
  {
    (coupon.startsAt.Some? ==> now >= coupon.startsAt.value) && (coupon.endsAt.Some? ==> now <= coupon.endsAt.value)
  }

  /** There is room under the cap: the column's when it is set, whatever the JSON says, else that of the JSON. */
  ghost predicate HasRoom(coupon: Coupon)
  {
    if coupon.usageLimit.Some? then coupon.used < coupon.usageLimit.value
    else forall value :: ("usage_limit", value) in coupon.constraints && value.Json? ==>
           value.integer.Some? && coupon.used < value.integer.value
  }

  lemma CapErrorMeans(coupon: Coupon)
    requires DistinctKeys(coupon.constraints)
    ensures CapError(coupon).None? <==> HasRoom(coupon)
    ensures CapError(coupon).Some? ==>
              CapError(coupon).value
              == if coupon.usageLimit.None? && (exists value :: ("usage_limit", value) in coupon.constraints
                                                                && value.Json? && value.integer.None?)
                 then CouponConstraintFailed("usage_limit") else CouponLimitReached
  {
    LookupMember(coupon.constraints, "usage_limit");
    var found := Lookup(coupon.constraints, "usage_limit");
    if found.Some? {
      assert ("usage_limit", found.value) in coupon.constraints;
    }
  }

  /**
   When the built-in validator accepts a coupon, to the letter: active, inside its window, with room under
   its cap, and every constraint met, where a JSON cap beside a column cap is not looked at.
   */
  lemma CouponAcceptedExactly(coupon: Coupon, ctx: Context)
    requires DistinctKeys(coupon.constraints)
    ensures Verdict(BuiltInRules(), coupon, ctx).None? <==>
              && coupon.active && InWindow(coupon, ctx.now) && HasRoom(coupon)
              && forall key, value :: (key, value) in coupon.constraints ==>
                   (key == "usage_limit" && coupon.usageLimit.Some?) || Holds(coupon, ctx, key, value)
  {
    var rules := BuiltInRules();
    VerdictMeaning(rules, coupon, ctx);
    CapErrorMeans(coupon);
    forall key, value | (key, value) in coupon.constraints
      ensures EntryError(rules, coupon, ctx, (key, value)).None?
              <==> (key == "usage_limit" && coupon.usageLimit.Some?) || Holds(coupon, ctx, key, value)
    {
      BuiltInRulesMean(coupon, value, ctx);
    }
    assert forall entry :: entry in coupon.constraints ==> entry == (entry.0, entry.1);
  }

  /** The error of a rejection: the first of activity, window, cap and constraints that fails. */
  lemma RejectionsInOrder(rules: Rules, coupon: Coupon, ctx: Context)
    requires DistinctKeys(coupon.constraints)
    ensures !coupon.active ==> Verdict(rules, coupon, ctx) == Some(CouponInactive)
    ensures coupon.active && !InWindow(coupon, ctx.now) ==> Verdict(rules, coupon, ctx) == Some(CouponExpired)
    ensures coupon.active && InWindow(coupon, ctx.now) && !HasRoom(coupon) ==>
              Verdict(rules, coupon, ctx)
              == if coupon.usageLimit.None? && (exists value :: ("usage_limit", value) in coupon.constraints
                                                                && value.Json? && value.integer.None?)
                 then Some(CouponConstraintFailed("usage_limit")) else Some(CouponLimitReached)
    ensures coupon.active && InWindow(coupon, ctx.now) && HasRoom(coupon) && Verdict(rules, coupon, ctx).Some? ==>
              exists i :: && 0 <= i < |coupon.constraints|
                          && !(coupon.constraints[i].0 == "usage_limit" && coupon.usageLimit.Some?)
                          && Verdict(rules, coupon, ctx)
                             == (if coupon.constraints[i].0 in rules
                                 then rules[coupon.constraints[i].0](coupon, coupon.constraints[i].1, ctx)
                                 else Some(CouponConstraintFailed(coupon.constraints[i].0)))
                          && forall j :: 0 <= j < i ==> EntryError(rules, coupon, ctx, coupon.constraints[j]).None?
  {
    CapErrorMeans(coupon);
    if coupon.active && InWindow(coupon, ctx.now) && HasRoom(coupon) && Verdict(rules, coupon, ctx).Some? {
      var i := FirstErrorIsFirst(rules, coupon, ctx, coupon.constraints);
      assert EntryError(rules, coupon, ctx, coupon.constraints[i]).Some?;
      assert forall j :: 0 <= j < i ==> EntryError(rules, coupon, ctx, coupon.constraints[j]).None?;
    }
  }
}
