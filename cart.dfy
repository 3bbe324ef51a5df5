/** The shopping cart view (src/components/Cart.js): the fetched cart items,
    a map from item id to the quantity being edited, per-row saving, removal,
    clearing, and the total computed from the edited quantities. */
module CartView {
  import opened Base
  import opened Js
  import opened Seqs
  import opened Effects
  import Api

  datatype CartItem = CartItem(id: int, artTitle: string, price: real, quantity: int)

  /** The quantity map the load loop leaves behind: every fetched id maps to
      the quantity of the LAST fetched item with that id. */
  function QuantitiesOf(items: seq<CartItem>): map<int, int>
  {
    if items == [] then map[]
    else QuantitiesOf(items[..|items| - 1])[items[|items| - 1].id := items[|items| - 1].quantity]
  }

  /** The keys of the quantity map are exactly the fetched ids. */
  lemma {:induction false} QuantitiesOfKeys(items: seq<CartItem>)
    ensures forall id :: id in QuantitiesOf(items) <==> exists k :: 0 <= k < |items| && items[k].id == id
  {
    if items != [] {
      var init := items[..|items| - 1];
      QuantitiesOfKeys(init);
      forall id | id in QuantitiesOf(items)
        ensures exists k :: 0 <= k < |items| && items[k].id == id
      {
        if id != items[|items| - 1].id {
          assert id in QuantitiesOf(init);
          var k :| 0 <= k < |init| && init[k].id == id;
          assert items[k].id == id;
        }
      }
      forall id | exists k :: 0 <= k < |items| && items[k].id == id
        ensures id in QuantitiesOf(items)
      {
        var k :| 0 <= k < |items| && items[k].id == id;
        if k < |init| {
          assert init[k].id == id;
        }
      }
    }
  }

  /** An item's quantity survives in the map when no later item repeats its id. */
  lemma {:induction false} QuantitiesOfLastWins(items: seq<CartItem>, k: nat)
    requires k < |items|
    requires forall j :: k < j < |items| ==> items[j].id != items[k].id
    ensures items[k].id in QuantitiesOf(items)
    ensures QuantitiesOf(items)[items[k].id] == items[k].quantity
  {
    var init := items[..|items| - 1];
    if k < |items| - 1 {
      assert init[k] == items[k];
      QuantitiesOfLastWins(init, k);
    }
  }

  /** With the server's one-item-per-id guarantee, the loaded map gives every
      fetched item its own quantity. */
  lemma QuantitiesOfUniqueIds(items: seq<CartItem>)
    requires forall i, j :: 0 <= i < j < |items| ==> items[i].id != items[j].id
    ensures forall k :: 0 <= k < |items| ==>
              items[k].id in QuantitiesOf(items) && QuantitiesOf(items)[items[k].id] == items[k].quantity
  {
    forall k | 0 <= k < |items|
      ensures items[k].id in QuantitiesOf(items) && QuantitiesOf(items)[items[k].id] == items[k].quantity
    {
      QuantitiesOfLastWins(items, k);
    }
  }

  /** The load effect's `forEach` loop over the fetched items. */
  method InitialQuantities(items: seq<CartItem>) returns (quantities: map<int, int>)
    ensures quantities == QuantitiesOf(items)
  {
    quantities := map[];
    var i := 0;
    while i < |items|
      invariant 0 <= i <= |items|
      invariant quantities == QuantitiesOf(items[..i])
    {
      assert items[..i + 1][..i] == items[..i];
      quantities := quantities[items[i].id := items[i].quantity];
      i := i + 1;
    }
    assert items[..|items|] == items;
  }

  /** `quantities[id] || 0`. */
  function EditedQuantity(quantities: map<int, int>, id: int): int
  {
    if id in quantities then quantities[id] else 0
  }

  /** One row's contribution: its price times its edited quantity. */
  function Line(item: CartItem, quantities: map<int, int>): real
  {
    item.price * (EditedQuantity(quantities, item.id) as real)
  }

  /** `calculateTotal`: the sum of price times edited quantity over the rows. */
  function Total(items: seq<CartItem>, quantities: map<int, int>): real
  {
    if items == [] then 0.0 else Line(items[0], quantities) + Total(items[1..], quantities)
  }

  function WithId(items: seq<CartItem>, id: int): seq<CartItem>
  {
    Filter(items, (it: CartItem) => it.id == id)
  }

  function WithoutId(items: seq<CartItem>, id: int): seq<CartItem>
  {
    Filter(items, (it: CartItem) => it.id != id)
  }

  lemma TotalCons(a: CartItem, s: seq<CartItem>, quantities: map<int, int>)
    ensures Total([a] + s, quantities) == Line(a, quantities) + Total(s, quantities)
  {
    assert ([a] + s)[1..] == s;
  }

  lemma SplitCons(items: seq<CartItem>, x: int)
    requires items != []
    ensures items[0].id == x ==>
              WithId(items, x) == [items[0]] + WithId(items[1..], x) && WithoutId(items, x) == WithoutId(items[1..], x)
    ensures items[0].id != x ==>
              WithoutId(items, x) == [items[0]] + WithoutId(items[1..], x) && WithId(items, x) == WithId(items[1..], x)
  {
  }

  /** The total splits into the rows with id `x` and all the others; so after
      removing `x` the total is the old one minus the rows of `x`. */
  lemma {:induction false} TotalSplit(items: seq<CartItem>, quantities: map<int, int>, x: int)
    ensures Total(items, quantities) == Total(WithoutId(items, x), quantities) + Total(WithId(items, x), quantities)
  {
    if items != [] {
      TotalSplit(items[1..], quantities, x);
      SplitCons(items, x);
      if items[0].id == x {
        TotalCons(items[0], WithId(items[1..], x), quantities);
      } else {
        TotalCons(items[0], WithoutId(items[1..], x), quantities);
      }
    }
  }

  /** How much an edit of id `x` to `n` changes that id's edited quantity. */
  function QuantityChange(quantities: map<int, int>, x: int, n: int): real
  {
    (n - EditedQuantity(quantities, x)) as real
  }

  /** The combined price of the rows with id `x`. */
  function PriceOfId(items: seq<CartItem>, x: int): real
  {
    if items == [] then 0.0
    else (if items[0].id == x then items[0].price else 0.0) + PriceOfId(items[1..], x)
  }

  /** Editing the quantity of id `x` moves the total by the change in
      quantity times the prices of the rows with id `x`, before any save. */
  lemma {:induction false} TotalAfterEdit(items: seq<CartItem>, quantities: map<int, int>, x: int, n: int)
    ensures Total(items, quantities[x := n])
            == Total(items, quantities) + PriceOfId(items, x) * QuantityChange(quantities, x, n)
    decreases |items|, 1
  {
    if items != [] {
      TotalAfterEdit(items[1..], quantities, x, n);
      if items[0].id == x {
        EditedRowStep(items, quantities, x, n);
      } else {
        OtherRowStep(items, quantities, x, n);
      }
    }
  }

  /** The inductive step when the first row has the edited id: its line
      moves by its price times the change. */
  lemma EditedRowStep(items: seq<CartItem>, quantities: map<int, int>, x: int, n: int)
    requires items != [] && items[0].id == x
    requires Total(items[1..], quantities[x := n])
             == Total(items[1..], quantities) + PriceOfId(items[1..], x) * QuantityChange(quantities, x, n)
    ensures Total(items, quantities[x := n])
            == Total(items, quantities) + PriceOfId(items, x) * QuantityChange(quantities, x, n)
  {
    var q := quantities[x := n];
    assert EditedQuantity(q, x) == n;
    EditedRowArith(Total(items, q), Total(items, quantities), Total(items[1..], q), Total(items[1..], quantities),
                   items[0].price, PriceOfId(items[1..], x), EditedQuantity(quantities, x) as real,
                   QuantityChange(quantities, x, n), n as real, PriceOfId(items, x));
  }

  /** The inductive step when the first row has another id: its line is unchanged. */
  lemma OtherRowStep(items: seq<CartItem>, quantities: map<int, int>, x: int, n: int)
    requires items != [] && items[0].id != x
    requires Total(items[1..], quantities[x := n])
             == Total(items[1..], quantities) + PriceOfId(items[1..], x) * QuantityChange(quantities, x, n)
    ensures Total(items, quantities[x := n])
            == Total(items, quantities) + PriceOfId(items, x) * QuantityChange(quantities, x, n)
  {
    assert Line(items[0], quantities[x := n]) == Line(items[0], quantities);
    assert PriceOfId(items, x) == PriceOfId(items[1..], x);
  }

  /** The arithmetic of the edited row: its line moves from `p * o` to
      `p * n`, and its price joins the others' in the change of the total. */
  lemma EditedRowArith(total: real, total0: real, rest: real, rest0: real,
                       p: real, ps: real, o: real, d: real, n: real, price: real)
    requires total == p * n + rest && total0 == p * o + rest0
    requires rest == rest0 + ps * d
    requires price == p + ps && n == o + d
    ensures total == total0 + price * d
  {
    assert p * n == p * o + p * d;
    assert price * d == p * d + ps * d;
  }

  /** `prevItems.map(item => item.id === itemId ? updatedItem : item)`. */
  function ReplaceId(items: seq<CartItem>, id: int, updated: CartItem): (r: seq<CartItem>)
    ensures |r| == |items|
    ensures forall k :: 0 <= k < |items| && items[k].id != id ==> r[k] == items[k]
    ensures forall k :: 0 <= k < |items| && items[k].id == id ==> r[k] == updated
  {
    seq(|items|, k requires 0 <= k < |items| => if items[k].id == id then updated else items[k])
  }

  /** The cart component's state. `userId` is the session cookie read when
      the component renders; `effects` records the requests sent. */
  class Cart {
    const userId: Option<int>
    var cartItems: seq<CartItem>
    var quantities: map<int, int>
    var effects: seq<Effect>

    constructor (session: Option<int>)
      ensures userId == session && cartItems == [] && quantities == map[] && effects == []
    {
      userId := session;
      cartItems, quantities, effects := [], map[], [];
    }

    /** The load effect. Without a session it returns before any request and
        the cart stays as it is; a failed fetch is only logged. */
    method Load(outcome: Api.AxiosOutcome<seq<CartItem>>)
      modifies this
      ensures userId.None? ==> cartItems == old(cartItems) && quantities == old(quantities) && effects == old(effects)
      ensures userId.Some? ==> effects == old(effects) + [Send(GetUserCartRequest(userId.value))]
      ensures userId.Some? && outcome.Resolved? ==> cartItems == outcome.data && quantities == QuantitiesOf(outcome.data)
      ensures outcome.Rejected? ==> cartItems == old(cartItems) && quantities == old(quantities)
    {
      if userId.None? {
        return;
      }
      var exchange := Api.GetUserCart(userId, outcome);
      effects := effects + [Send(exchange.sent.value)];
      if exchange.result.Success? {
        var items := exchange.result.value;
        cartItems := items;
        quantities := InitialQuantities(items);
      }
    }

    /** `handleUpdateQuantity`: an edited quantity below 1 is not saved. A
        missing entry reads as undefined, which the guard lets through. A
        successful save replaces the rows with that id by the server's item;
        the edited quantities are left alone. */
    method SaveRow(itemId: int, outcome: Api.AxiosOutcome<CartItem>)
      modifies this
      ensures itemId in old(quantities) && old(quantities)[itemId] < 1 ==>
                cartItems == old(cartItems) && effects == old(effects)
      ensures !(itemId in old(quantities) && old(quantities)[itemId] < 1) ==>
                effects == old(effects) + [Send(UpdateCartItemRequest(userId, itemId,
                  if itemId in old(quantities) then Some(old(quantities)[itemId]) else None))]
                && cartItems == (if outcome.Resolved? then ReplaceId(old(cartItems), itemId, outcome.data)
                                 else old(cartItems))
      ensures quantities == old(quantities)
    {
      var quantity := if itemId in quantities then Some(quantities[itemId]) else None;
      if quantity.Some? && quantity.value < 1 {
        return;
      }
      effects := effects + [Send(UpdateCartItemRequest(userId, itemId, quantity))];
      var updated := Api.Call(outcome);
      if updated.Success? {
        cartItems := ReplaceId(cartItems, itemId, updated.value);
      }
    }

    /** `handleRemoveItem`: on success no row with that id is left and the
        others keep their order; the quantity map is not touched. */
    method RemoveItem(itemId: int, outcome: Api.AxiosOutcome<()>)
      modifies this
      ensures effects == old(effects) + [Send(RemoveFromCartRequest(itemId))]
      ensures cartItems == if outcome.Resolved? then WithoutId(old(cartItems), itemId) else old(cartItems)
      ensures quantities == old(quantities)
    {
      effects := effects + [Send(RemoveFromCartRequest(itemId))];
      if Api.Call(outcome).Success? {
        cartItems := WithoutId(cartItems, itemId);
      }
    }

    /** `handleClearCart`: on success both the rows and the quantities are emptied. */
    method ClearCart(outcome: Api.AxiosOutcome<()>)
      modifies this
      ensures effects == old(effects) + [Send(ClearUserCartRequest(userId))]
      ensures outcome.Resolved? ==> cartItems == [] && quantities == map[]
      ensures outcome.Rejected? ==> cartItems == old(cartItems) && quantities == old(quantities)
    {
      effects := effects + [Send(ClearUserCartRequest(userId))];
      if Api.Call(outcome).Success? {
        cartItems := [];
        quantities := map[];
      }
    }

    /** The quantity input's change handler: `parsed` is `parseInt` of the
        field (None for NaN); only a value of at least 0 is stored, and only
        under that item's id. */
    method EditQuantity(itemId: int, parsed: Option<int>)
      modifies this
      ensures parsed.Some? && parsed.value >= 0 ==> quantities == old(quantities)[itemId := parsed.value]
      ensures !(parsed.Some? && parsed.value >= 0) ==> quantities == old(quantities)
      ensures cartItems == old(cartItems) && effects == old(effects)
    {
      if parsed.Some? && parsed.value >= 0 {
        quantities := quantities[itemId := parsed.value];
      }
    }

    function CurrentTotal(): real
      reads this
    {
      Total(cartItems, quantities)
    }
  }

  /** Removing a row takes exactly that row's contribution out of the total. */
  lemma TotalAfterRemove(items: seq<CartItem>, quantities: map<int, int>, x: int)
    ensures Total(WithoutId(items, x), quantities) == Total(items, quantities) - Total(WithId(items, x), quantities)
    ensures forall it :: it in WithoutId(items, x) <==> it in items && it.id != x
    ensures IsSubsequence(WithoutId(items, x), items)
  {
    TotalSplit(items, quantities, x);
    FilterIsSubsequence(items, (it: CartItem) => it.id != x);
  }
}
