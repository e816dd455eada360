/**
 The cart aggregate: line items, denormalised totals, optimistic version.  Every mutator locks the
 cart row, changes it and, where lines change, re-derives the totals as its last step.
 */
module CartRules {
  import opened Schema

  datatype CartError = CartMissing | BadQuantity | AmountOverflow

  // ------------------------------------------------------------ line items

  function SumItems(items: seq<Item>): nat
  {
    if items == [] then 0 else items[0].quantity * items[0].price + SumItems(items[1..])
  }

  function SumApplied(applied: seq<Application>): nat
  {
    if applied == [] then 0 else applied[0].discount + SumApplied(applied[1..])
  }

  /** The quantity of a product over all lines. */
  function QuantityOf(items: seq<Item>, product: ProductId): nat
  {
    if items == [] then 0
    else (if items[0].product == product then items[0].quantity else 0) + QuantityOf(items[1..], product)
  }

  /** The position of the first line for a product; the number of lines if there is none. */
  function LineFor(items: seq<Item>, product: ProductId): (i: nat)
    ensures i <= |items|
    ensures i < |items| ==> items[i].product == product
    ensures forall j :: 0 <= j < i ==> items[j].product != product
  {
    if items == [] || items[0].product == product then 0 else 1 + LineFor(items[1..], product)
  }

  /** The unique constraint on (cart, product) and the CHECK on quantities. */
  ghost predicate LinesOk(items: seq<Item>)
  {
    && (forall i, j :: 0 <= i < j < |items| ==> items[i].product != items[j].product)
    && (forall i :: 0 <= i < |items| ==> items[i].quantity >= 1)
  }

  /** The lines after `quantity` of a product is added: a top-up of its line, or a new line at `price`. */
  function WithProduct(items: seq<Item>, product: ProductId, price: nat, quantity: nat): seq<Item>
  {
    var i := LineFor(items, product);
    if i < |items| then items[i := items[i].(quantity := items[i].quantity + quantity)]
    else items + [Item(product, quantity, price)]
  }

  /** The lines after every line for a product is deleted. */
  function WithoutProduct(items: seq<Item>, product: ProductId): seq<Item>
  {
    if items == [] then []
    else if items[0].product == product then WithoutProduct(items[1..], product)
    else [items[0]] + WithoutProduct(items[1..], product)
  }

  // ---------------------------------------------------------------- totals

  /** The unique constraint on (cart, coupon). */
  ghost predicate Distinct(applied: seq<Application>)
  {
    forall i, j :: 0 <= i < j < |applied| ==> applied[i].coupon != applied[j].coupon
  }

  /** What the payable amount is for the lines and discount snapshots of a cart. */
  function Payable(total: nat, discount: nat): nat
  {
    if discount <= total then total - discount else 0
  }

  /** The three denormalised columns agree with the lines and snapshots they summarise. */
  ghost predicate TotalsOk(cart: Cart)
  {
    && LinesOk(cart.items)
    && Distinct(cart.applied)
    && cart.total == SumItems(cart.items) < MONEY_BOUND
    && cart.discount == SumApplied(cart.applied) < MONEY_BOUND
    && cart.payable == Payable(cart.total, cart.discount)
  }

  /** The cart re-derived from its lines and snapshots; an amount beyond its column is refused. */
  function Recalculated(cart: Cart): Result<Cart, CartError>
  {
    var total, discount := SumItems(cart.items), SumApplied(cart.applied);
    if total >= MONEY_BOUND || discount >= MONEY_BOUND then Err(AmountOverflow)
    else
      var payable: int := total - discount;
      Ok(cart.(total := total, discount := discount, payable := if payable < 0 then 0 else payable,
               version := cart.version + 1))
  }

  predicate Owned(carts: Carts, tenant: TenantId, cart: CartId)
  {
    cart in carts && carts[cart].tenant == tenant
  }

  // ------------------------------------------------- mutators, as functions

  function Add(carts: Carts, tenant: TenantId, cart: CartId, product: ProductId, price: nat, quantity: int)
    : Result<Carts, CartError>
  {
    if quantity < 1 then Err(BadQuantity)
    else if !Owned(carts, tenant, cart) then Err(CartMissing)
    else
      var row := carts[cart];
      match Recalculated(row.(items := WithProduct(row.items, product, price, quantity)))
      case Err(e) => Err(e)
      case Ok(row') => Ok(carts[cart := row'])
  }

  function Remove(carts: Carts, tenant: TenantId, cart: CartId, product: ProductId): Result<Carts, CartError>
  {
    if !Owned(carts, tenant, cart) then Err(CartMissing)
    else
      var row := carts[cart];
      match Recalculated(row.(items := WithoutProduct(row.items, product)))
      case Err(e) => Err(e)
      case Ok(row') => Ok(carts[cart := row'])
  }

  /** What a checkout-details mutator sets. */
  datatype Detail = SetBuyer(buyer: Buyer) | SetAddress(address: AddressId) | SetMethod(paymentMethod: MethodId)

  function SetDetail(carts: Carts, tenant: TenantId, cart: CartId, detail: Detail): Result<Carts, CartError>
  {
    if !Owned(carts, tenant, cart) then Err(CartMissing)
    else
      var row := carts[cart].(version := carts[cart].version + 1);
      var row' := match detail
        case SetBuyer(b) => row.(buyer := b)
        case SetAddress(a) => row.(address := Some(a))
        case SetMethod(m) => row.(paymentMethod := Some(m));
      Ok(carts[cart := row'])
  }

  // --------------------------------------------- mutators, step by step

  /** The last step of every mutator: one UPDATE of the totals and the version of a locked row. */
  method RecalculateCart(d: Database, cart: CartId) returns (r: Result<Cart, CartError>)
    requires cart in d.carts
    modifies d`carts
    ensures r == Recalculated(old(d.carts[cart]))
    ensures d.carts == if r.Ok? then old(d.carts)[cart := r.value] else old(d.carts)
  {
    var row := d.carts[cart];
    var itemsTotal, couponsTotal := SumItems(row.items), SumApplied(row.applied);
    var payable: int := itemsTotal - couponsTotal;
    if payable < 0 {
      payable := 0;
    }
    if itemsTotal >= MONEY_BOUND || couponsTotal >= MONEY_BOUND {
      return Err(AmountOverflow);
    }
    var row' := row.(total := itemsTotal, discount := couponsTotal, payable := payable, version := row.version + 1);
    d.carts := d.carts[cart := row'];
    r := Ok(row');
  }

  /** The outcome of a mutator whose effect on the carts is `spec`: its cart, or an error and no effect. */
  ghost predicate Effect(before: Carts, after: Carts, spec: Result<Carts, CartError>, r: Result<Cart, CartError>,
                         cart: CartId)
  {
    match spec
    case Ok(carts) => after == carts && cart in carts && r == Ok(carts[cart])
    case Err(e) => after == before && r == Err(e)
  }

  method AddProductToCart(d: Database, tenant: TenantId, cart: CartId, product: ProductId, price: nat, quantity: int)
    returns (r: Result<Cart, CartError>)
    modifies d`carts
    ensures Effect(old(d.carts), d.carts, Add(old(d.carts), tenant, cart, product, price, quantity), r, cart)
  {
    if quantity < 1 {
      return Err(BadQuantity);
    }
    if cart !in d.carts || d.carts[cart].tenant != tenant {
      return Err(CartMissing);
    }
    var saved := d.carts;
    var locked := d.carts[cart];
    var i := LineFor(locked.items, product);
    if i == |locked.items| {
      d.carts := d.carts[cart := locked.(items := locked.items + [Item(product, quantity, price)])];
    } else {
      var topped := locked.items[i].(quantity := locked.items[i].quantity + quantity);
      d.carts := d.carts[cart := locked.(items := locked.items[i := topped])];
    }
    r := RecalculateCart(d, cart);
    if r.Err? {
      d.carts := saved;
    }
  }

  method RemoveProductFromCart(d: Database, tenant: TenantId, cart: CartId, product: ProductId)
    returns (r: Result<Cart, CartError>)
    modifies d`carts
    ensures Effect(old(d.carts), d.carts, Remove(old(d.carts), tenant, cart, product), r, cart)
  {
    if cart !in d.carts || d.carts[cart].tenant != tenant {
      return Err(CartMissing);
    }
    var saved := d.carts;
    var locked := d.carts[cart];
    d.carts := d.carts[cart := locked.(items := WithoutProduct(locked.items, product))];
    r := RecalculateCart(d, cart);
    if r.Err? {
      d.carts := saved;
    }
  }

  method SetBusinessDetails(d: Database, tenant: TenantId, cart: CartId, buyer: Buyer)
    returns (r: Result<Cart, CartError>)
    modifies d`carts
    ensures Effect(old(d.carts), d.carts, SetDetail(old(d.carts), tenant, cart, SetBuyer(buyer)), r, cart)
  {
    r := SetCartDetail(d, tenant, cart, SetBuyer(buyer));
  }

  /** The three details mutators: lock the row, write one group of fields, bump the version. */
  method SetCartDetail(d: Database, tenant: TenantId, cart: CartId, detail: Detail)
    returns (r: Result<Cart, CartError>)
    modifies d`carts
    ensures Effect(old(d.carts), d.carts, SetDetail(old(d.carts), tenant, cart, detail), r, cart)
  {
    if cart !in d.carts || d.carts[cart].tenant != tenant {
      return Err(CartMissing);
    }
    var locked := d.carts[cart];
    match detail {
      case SetBuyer(b) => locked := locked.(buyer := b);
      case SetAddress(a) => locked := locked.(address := Some(a));
      case SetMethod(m) => locked := locked.(paymentMethod := Some(m));
    }
    locked := locked.(version := locked.version + 1);
    d.carts := d.carts[cart := locked];
    r := Ok(locked);
  }

  // ---------------------------------------------------------------- lemmas

  lemma {:induction false} SumUpdate(items: seq<Item>, i: nat, item: Item)
    requires i < |items|
    ensures SumItems(items[i := item]) + items[i].quantity * items[i].price
         == SumItems(items) + item.quantity * item.price
  {
    if i > 0 {
      assert items[i := item][1..] == items[1..][i - 1 := item];
      SumUpdate(items[1..], i - 1, item);
    }
  }

  lemma {:induction false} SumAppend(items: seq<Item>, item: Item)
    ensures SumItems(items + [item]) == SumItems(items) + item.quantity * item.price
  {
    if items != [] {
      assert (items + [item])[1..] == items[1..] + [item];
      SumAppend(items[1..], item);
    }
  }

  lemma {:induction false} QuantityUpdate(items: seq<Item>, i: nat, quantity: nat, product: ProductId)
    requires i < |items|
    ensures QuantityOf(items[i := items[i].(quantity := items[i].quantity + quantity)], product)
         == QuantityOf(items, product) + if items[i].product == product then quantity else 0
  {
    var item := items[i].(quantity := items[i].quantity + quantity);
    if i > 0 {
      assert items[i := item][1..] == items[1..][i - 1 := item];
      QuantityUpdate(items[1..], i - 1, quantity, product);
    }
  }

  lemma {:induction false} QuantityAppend(items: seq<Item>, item: Item, product: ProductId)
    ensures QuantityOf(items + [item], product)
         == QuantityOf(items, product) + if item.product == product then item.quantity else 0
  {
    if items != [] {
      assert (items + [item])[1..] == items[1..] + [item];
      QuantityAppend(items[1..], item, product);
    }
  }

  /** Adding keeps one line per product and every price snapshot already taken. */
  lemma AddKeepsLines(items: seq<Item>, product: ProductId, price: nat, quantity: nat)
    requires LinesOk(items) && quantity >= 1
    ensures var items' := WithProduct(items, product, price, quantity);
            && LinesOk(items')
            && |items| <= |items'|
            && forall j :: 0 <= j < |items| ==> items'[j].product == items[j].product && items'[j].price == items[j].price
  {
    var i := LineFor(items, product);
    if i < |items| {
      var items' := items[i := items[i].(quantity := items[i].quantity + quantity)];
      assert forall j :: 0 <= j < |items| ==> items'[j].product == items[j].product;
    }
  }

  /**
   Adding adds exactly the quantity asked for to that product and nothing to the others; the total
   grows by the quantity at the price of the product's line, which is the price given only when the
   line is new.
   */
  lemma AddEffect(items: seq<Item>, product: ProductId, price: nat, quantity: nat, other: ProductId)
    ensures var items' := WithProduct(items, product, price, quantity);
            var i := LineFor(items, product);
            && QuantityOf(items', other) == QuantityOf(items, other) + (if other == product then quantity else 0)
            && SumItems(items') == SumItems(items) + quantity * (if i < |items| then items[i].price else price)
  {
    var i := LineFor(items, product);
    if i < |items| {
      var item := items[i].(quantity := items[i].quantity + quantity);
      SumUpdate(items, i, item);
      QuantityUpdate(items, i, quantity, other);
      Distribute(items[i].quantity, quantity, items[i].price);
    } else {
      SumAppend(items, Item(product, quantity, price));
      QuantityAppend(items, Item(product, quantity, price), other);
    }
  }

  lemma Distribute(a: nat, b: nat, c: nat)
    ensures (a + b) * c == a * c + b * c
  {
  }

  lemma {:induction false} WithoutMembers(items: seq<Item>, product: ProductId)
    ensures forall item :: item in WithoutProduct(items, product) <==> item in items && item.product != product
  {
    if items != [] {
      WithoutMembers(items[1..], product);
      assert items == [items[0]] + items[1..];
    }
  }

  /** What the lines of a product cost. */
  function CostOf(items: seq<Item>, product: ProductId): nat
  {
    if items == [] then 0
    else (if items[0].product == product then items[0].quantity * items[0].price else 0) + CostOf(items[1..], product)
  }

  /** Removing deletes the product's lines, keeps the quantity of every other, and lowers the total by their cost. */
  lemma {:induction false} RemoveEffect(items: seq<Item>, product: ProductId, other: ProductId)
    ensures var items' := WithoutProduct(items, product);
            && QuantityOf(items', other) == (if other == product then 0 else QuantityOf(items, other))
            && SumItems(items') == SumItems(items) - CostOf(items, product)
  {
    if items != [] {
      RemoveEffect(items[1..], product, other);
      var kept := WithoutProduct(items[1..], product);
      assert ([items[0]] + kept)[1..] == kept;
    }
  }

  /** With one line per product, that cost is the line's quantity at its price. */
  lemma {:induction false} CostOfLine(items: seq<Item>, product: ProductId)
    requires LinesOk(items)
    ensures var i := LineFor(items, product);
            CostOf(items, product) == if i < |items| then items[i].quantity * items[i].price else 0
  {
    if items != [] {
      CostOfLine(items[1..], product);
      if items[0].product == product {
        NoLineNoCost(items[1..], product);
      }
    }
  }

  lemma {:induction false} NoLineNoCost(items: seq<Item>, product: ProductId)
    requires forall i :: 0 <= i < |items| ==> items[i].product != product
    ensures CostOf(items, product) == 0
  {
    if items != [] {
      NoLineNoCost(items[1..], product);
    }
  }

  lemma {:induction false} RemoveKeepsLines(items: seq<Item>, product: ProductId)
    requires LinesOk(items)
    ensures LinesOk(WithoutProduct(items, product))
  {
    if items != [] {
      var rest := items[1..];
      RemoveKeepsLines(rest, product);
      WithoutMembers(rest, product);
      var kept := WithoutProduct(rest, product);
      forall j | 0 <= j < |kept| ensures kept[j].product != items[0].product {
        assert kept[j] in kept && kept[j] in rest;
        var k :| 0 <= k < |rest| && rest[k] == kept[j];
        assert items[k + 1] == rest[k];
      }
    }
  }

  /**
   One cart row changed: its totals agree, its version strictly grew, its owner and status are as
   they were, and no other row moved.
   */
  ghost predicate OnlyCart(carts: Carts, carts': Carts, cart: CartId)
  {
    && cart in carts
    && cart in carts'
    && carts' == carts[cart := carts'[cart]]
    && SameOwner(carts[cart], carts'[cart])
    && carts'[cart].version > carts[cart].version
    && TotalsOk(carts'[cart])
  }

  ghost predicate SameOwner(c: Cart, c': Cart)
  {
    c'.tenant == c.tenant && c'.user == c.user && c'.status == c.status
  }

  lemma AddKeepsTotals(carts: Carts, tenant: TenantId, cart: CartId, product: ProductId, price: nat, quantity: int)
    requires cart in carts ==> TotalsOk(carts[cart])
    ensures var r := Add(carts, tenant, cart, product, price, quantity);
            r.Ok? ==> OnlyCart(carts, r.value, cart) && r.value[cart].applied == carts[cart].applied
  {
    if Owned(carts, tenant, cart) && quantity >= 1 {
      AddKeepsLines(carts[cart].items, product, price, quantity);
    }
  }

  lemma RemoveKeepsTotals(carts: Carts, tenant: TenantId, cart: CartId, product: ProductId)
    requires cart in carts ==> TotalsOk(carts[cart])
    ensures var r := Remove(carts, tenant, cart, product);
            r.Ok? ==> OnlyCart(carts, r.value, cart) && r.value[cart].applied == carts[cart].applied
  {
    if Owned(carts, tenant, cart) {
      RemoveKeepsLines(carts[cart].items, product);
    }
  }

  lemma SetDetailKeepsTotals(carts: Carts, tenant: TenantId, cart: CartId, detail: Detail)
    requires cart in carts ==> TotalsOk(carts[cart])
    ensures var r := SetDetail(carts, tenant, cart, detail);
            r.Ok? ==>
              && OnlyCart(carts, r.value, cart)
              && r.value[cart].items == carts[cart].items
              && r.value[cart].applied == carts[cart].applied
              && r.value[cart].payable == carts[cart].payable
              && r.value[cart].version == carts[cart].version + 1
  {
  }

  // -------------------------------------- what the mutators do, to the letter

  /** Quantity times price, summed over the lines; quantities of one product; snapshots: nothing counts for nothing. */
  lemma {:induction false} SumsAreAdditive(items: seq<Item>, more: seq<Item>, product: ProductId)
    ensures SumItems([]) == 0 && QuantityOf([], product) == 0
    ensures forall item :: SumItems([item]) == item.quantity * item.price
    ensures forall item :: QuantityOf([item], product) == if item.product == product then item.quantity else 0
    ensures SumItems(items + more) == SumItems(items) + SumItems(more)
    ensures QuantityOf(items + more, product) == QuantityOf(items, product) + QuantityOf(more, product)
  {
    forall item ensures SumItems([item]) == item.quantity * item.price {
      assert [item][1..] == [];
    }
    forall item ensures QuantityOf([item], product) == if item.product == product then item.quantity else 0 {
      assert [item][1..] == [];
    }
    if items == [] {
      assert items + more == more;
    } else {
      assert (items + more)[1..] == items[1..] + more;
      SumsAreAdditive(items[1..], more, product);
    }
  }

  lemma {:induction false} SnapshotsAdd(applied: seq<Application>, more: seq<Application>)
    ensures SumApplied([]) == 0
    ensures forall a :: SumApplied([a]) == a.discount
    ensures SumApplied(applied + more) == SumApplied(applied) + SumApplied(more)
  {
    forall a ensures SumApplied([a]) == a.discount {
      assert [a][1..] == [];
    }
    if applied == [] {
      assert applied + more == more;
    } else {
      assert (applied + more)[1..] == applied[1..] + more;
      SnapshotsAdd(applied[1..], more);
    }
  }

  /** Removing a product drops its lines and leaves the others in their order. */
  lemma {:induction false} WithoutKeepsOrder(items: seq<Item>, more: seq<Item>, product: ProductId)
    ensures WithoutProduct(items + more, product) == WithoutProduct(items, product) + WithoutProduct(more, product)
  {
    if items == [] {
      assert items + more == more;
    } else {
      assert (items + more)[1..] == items[1..] + more;
      WithoutKeepsOrder(items[1..], more, product);
      KeptFirst(items, more, product);
    }
  }

  lemma KeptFirst(items: seq<Item>, more: seq<Item>, product: ProductId)
    requires items != [] && (items + more)[1..] == items[1..] + more
    requires WithoutProduct(items[1..] + more, product) == WithoutProduct(items[1..], product) + WithoutProduct(more, product)
    ensures WithoutProduct(items + more, product) == WithoutProduct(items, product) + WithoutProduct(more, product)
  {
    var kept, rest := WithoutProduct(items[1..], product), WithoutProduct(more, product);
    assert (items + more)[0] == items[0];
    assert [items[0]] + (kept + rest) == [items[0]] + kept + rest;
  }

  lemma WithoutOne(item: Item, product: ProductId)
    ensures WithoutProduct([], product) == []
    ensures WithoutProduct([item], product) == if item.product == product then [] else [item]
  {
    assert [item][1..] == [];
  }

  /** One row is recalculated: its three amounts follow from its lines and snapshots, and nothing else moves. */
  ghost predicate Rederived(row: Cart, row': Cart)
  {
    && row'.total == SumItems(row'.items) < MONEY_BOUND
    && row'.discount == SumApplied(row'.applied) < MONEY_BOUND
    && row'.payable == (if row'.discount <= row'.total then row'.total - row'.discount else 0)
    && row' == row.(items := row'.items, applied := row'.applied, total := row'.total, discount := row'.discount,
                    payable := row'.payable, version := row.version + 1)
  }

  /** The total after `quantity` more of a product, at the price of its first line or, if it has none, at `price`. */
  ghost predicate Costs(items: seq<Item>, product: ProductId, price: nat, quantity: nat, total: nat)
  {
    if forall i :: 0 <= i < |items| ==> items[i].product != product then total == SumItems(items) + quantity * price
    else exists i :: && 0 <= i < |items| && items[i].product == product
                     && (forall j :: 0 <= j < i ==> items[j].product != product)
                     && total == SumItems(items) + quantity * items[i].price
  }

  lemma CostsOnce(items: seq<Item>, product: ProductId, price: nat, quantity: nat)
    ensures Costs(items, product, price, quantity, SumItems(WithProduct(items, product, price, quantity)))
  {
    AddEffect(items, product, price, quantity, product);
    var i := LineFor(items, product);
    if i < |items| {
      assert items[i].product == product;
    }
  }

  /** When adding is refused, and all that it does otherwise. */
  lemma AddExactly(carts: Carts, tenant: TenantId, cart: CartId, product: ProductId, price: nat, quantity: int)
    ensures var r := Add(carts, tenant, cart, product, price, quantity);
            && (r == Err(BadQuantity) <==> quantity < 1)
            && (r == Err(CartMissing) <==> quantity >= 1 && !Owned(carts, tenant, cart))
            && (r.Err? && quantity >= 1 && Owned(carts, tenant, cart) ==>
                  r == Err(AmountOverflow)
                  && (SumApplied(carts[cart].applied) >= MONEY_BOUND
                      || exists total :: total >= MONEY_BOUND && Costs(carts[cart].items, product, price, quantity, total)))
            && (r.Ok? ==>
                  && cart in r.value && r.value == carts[cart := r.value[cart]]
                  && var row, row' := carts[cart], r.value[cart];
                  && Rederived(row, row') && row'.applied == row.applied
                  && Costs(row.items, product, price, quantity, row'.total)
                  && (forall other :: QuantityOf(row'.items, other)
                                      == QuantityOf(row.items, other) + if other == product then quantity else 0)
                  && |row.items| <= |row'.items| <= |row.items| + 1
                  && forall j :: 0 <= j < |row.items| ==>
                       row'.items[j].product == row.items[j].product && row'.items[j].price == row.items[j].price)
  {
    if quantity >= 1 && Owned(carts, tenant, cart) {
      var items := carts[cart].items;
      CostsOnce(items, product, price, quantity);
      forall other
        ensures QuantityOf(WithProduct(items, product, price, quantity), other)
             == QuantityOf(items, other) + if other == product then quantity else 0
      {
        AddEffect(items, product, price, quantity, other);
      }
    }
  }

  /** When removing is refused, and all that it does otherwise. */
  lemma RemoveExactly(carts: Carts, tenant: TenantId, cart: CartId, product: ProductId)
    ensures var r := Remove(carts, tenant, cart, product);
            && (r == Err(CartMissing) <==> !Owned(carts, tenant, cart))
            && (r.Err? && Owned(carts, tenant, cart) ==>
                  r == Err(AmountOverflow)
                  && (SumApplied(carts[cart].applied) >= MONEY_BOUND
                      || SumItems(carts[cart].items) - CostOf(carts[cart].items, product) >= MONEY_BOUND))
            && (r.Ok? ==>
                  && cart in r.value && r.value == carts[cart := r.value[cart]]
                  && var row, row' := carts[cart], r.value[cart];
                  && Rederived(row, row') && row'.applied == row.applied
                  && row'.total == SumItems(row.items) - CostOf(row.items, product)
                  && forall item :: item in row'.items <==> item in row.items && item.product != product)
  {
    if Owned(carts, tenant, cart) {
      RemoveEffect(carts[cart].items, product, product);
      WithoutMembers(carts[cart].items, product);
    }
  }

  /** Setting a detail writes that group of fields, raises the version by one, and leaves all else. */
  lemma SetDetailExactly(carts: Carts, tenant: TenantId, cart: CartId, detail: Detail)
    ensures var r := SetDetail(carts, tenant, cart, detail);
            && (r.Err? <==> !(cart in carts && carts[cart].tenant == tenant))
            && (r.Err? ==> r == Err(CartMissing))
            && (r.Ok? ==>
                  && cart in r.value && r.value == carts[cart := r.value[cart]]
                  && var row, row' := carts[cart], r.value[cart];
                  && row'.version == row.version + 1
                  && row' == row.(buyer := row'.buyer, address := row'.address, paymentMethod := row'.paymentMethod,
                                  version := row'.version)
                  && row'.buyer == (if detail.SetBuyer? then detail.buyer else row.buyer)
                  && row'.address == (if detail.SetAddress? then Some(detail.address) else row.address)
                  && row'.paymentMethod == (if detail.SetMethod? then Some(detail.paymentMethod) else row.paymentMethod))
  {
  }
}
