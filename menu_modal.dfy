/** The menu dialog of the client: the shopping cart it keeps while the user
    picks items, the total it shows, and the order request it sends. */
module MenuModal {
  import opened Common
  import opened Store
  import opened Records

  /** A cart line: the menu item document as fetched (`...item`) and how many of it. */
  datatype CartEntry = CartEntry(item: Doc<MenuItem>, quantity: int)

  /** The body of `POST /api/orders` as the dialog builds it. */
  datatype OrderRequest = OrderRequest(restaurantId: string, items: seq<OrderItem>, totalAmount: Amount)

  /** Ids are pairwise distinct and every quantity is at least one. */
  predicate WellFormed(cart: seq<CartEntry>) {
    && (forall i, j :: 0 <= i < j < |cart| ==> cart[i].item.id != cart[j].item.id)
    && (forall i :: 0 <= i < |cart| ==> cart[i].quantity >= 1)
  }

  /** `cart.find(cartItem => cartItem.id === id)`: the position of the first entry
      with this id, or `|cart|` when there is none. */
  function Find(cart: seq<CartEntry>, id: string): (k: nat)
    ensures k <= |cart|
    ensures k < |cart| ==> cart[k].item.id == id
    ensures forall j :: 0 <= j < k ==> cart[j].item.id != id
  {
    if cart == [] then 0
    else if cart[0].item.id == id then 0
    else
      assert forall j :: 1 <= j < |cart| ==> cart[j] == cart[1..][j - 1];
      1 + Find(cart[1..], id)
  }

  /** `getItemQuantity(id)`: how many of that item the cart holds. */
  function Quantity(cart: seq<CartEntry>, id: string): (q: int)
    ensures (forall i :: 0 <= i < |cart| ==> cart[i].item.id != id) ==> q == 0
    ensures WellFormed(cart) ==> forall i :: 0 <= i < |cart| && cart[i].item.id == id ==> q == cart[i].quantity
    ensures WellFormed(cart) ==> q >= 0
  {
    var k := Find(cart, id);
    if k < |cart| then cart[k].quantity else 0
  }

  /** `cart.map(...)` changing the quantity of the entries with this id by `delta`. */
  function Bumped(cart: seq<CartEntry>, id: string, delta: int): (r: seq<CartEntry>)
    ensures |r| == |cart|
    ensures forall i :: 0 <= i < |cart| ==> r[i].item == cart[i].item
    ensures forall i :: 0 <= i < |cart| ==>
              r[i].quantity == if cart[i].item.id == id then cart[i].quantity + delta else cart[i].quantity
  {
    seq(|cart|, i requires 0 <= i < |cart| =>
      if cart[i].item.id == id then cart[i].(quantity := cart[i].quantity + delta) else cart[i])
  }

  /** The test `cart.filter` keeps an entry by. */
  function NotId(id: string): CartEntry -> bool {
    (e: CartEntry) => e.item.id != id
  }

  /** The new cart of `addToCart(item)`. */
  function Added(cart: seq<CartEntry>, item: Doc<MenuItem>): seq<CartEntry> {
    if Find(cart, item.id) < |cart| then Bumped(cart, item.id, 1) else cart + [CartEntry(item, 1)]
  }

  /** The new cart of `removeFromCart(id)`. */
  function Removed(cart: seq<CartEntry>, id: string): seq<CartEntry> {
    var k := Find(cart, id);
    if k < |cart| && cart[k].quantity > 1 then Bumped(cart, id, -1) else Filter(cart, NotId(id))
  }

  /** Two carts whose entries carry the same ids at the same places find every id at the same place. */
  lemma {:induction false} FindSameIds(a: seq<CartEntry>, b: seq<CartEntry>, id: string)
    requires |a| == |b| && forall i :: 0 <= i < |a| ==> a[i].item.id == b[i].item.id
    ensures Find(a, id) == Find(b, id)
  {
    if a != [] && a[0].item.id != id {
      FindSameIds(a[1..], b[1..], id);
    }
  }

  /** An appended entry is found only when no earlier entry has its id. */
  lemma FindAppend(cart: seq<CartEntry>, e: CartEntry, id: string)
    ensures Find(cart, id) < |cart| ==> Find(cart + [e], id) == Find(cart, id)
    ensures Find(cart, id) == |cart| ==> Find(cart + [e], id) == if e.item.id == id then |cart| else |cart| + 1
  {
    var c := cart + [e];
    var k := Find(c, id);
    assert forall j :: 0 <= j < |cart| ==> c[j] == cart[j];
    assert c[|cart|] == e;
    if Find(cart, id) < |cart| {
      assert k <= Find(cart, id);
    }
  }

  // ----- adding -----

  /** `addToCart(item)` raises that item's quantity by exactly one: an item not
      yet in the cart is appended with quantity 1, an item already there keeps its
      place; no other entry changes. */
  lemma AddToCartEffect(cart: seq<CartEntry>, item: Doc<MenuItem>, other: string)
    requires other != item.id
    ensures Quantity(Added(cart, item), item.id) == Quantity(cart, item.id) + 1
    ensures Quantity(Added(cart, item), other) == Quantity(cart, other)
    ensures |cart| <= |Added(cart, item)|
    ensures forall i :: 0 <= i < |cart| && cart[i].item.id != item.id ==> Added(cart, item)[i] == cart[i]
    ensures Find(cart, item.id) == |cart| ==> Added(cart, item) == cart + [CartEntry(item, 1)]
  {
    var after := Added(cart, item);
    if Find(cart, item.id) < |cart| {
      FindSameIds(after, cart, item.id);
      FindSameIds(after, cart, other);
      forall i | 0 <= i < |cart| && cart[i].item.id != item.id ensures after[i] == cart[i] {
      }
    } else {
      FindAppend(cart, CartEntry(item, 1), item.id);
      FindAppend(cart, CartEntry(item, 1), other);
    }
  }

  /** `addToCart` keeps ids distinct and quantities positive. */
  lemma AddedWellFormed(cart: seq<CartEntry>, item: Doc<MenuItem>)
    requires WellFormed(cart)
    ensures WellFormed(Added(cart, item))
  {
  }

  // ----- removing -----

  /** `removeFromCart(id)` does nothing for an id not in the cart, lowers a
      quantity above one by exactly one, and drops the entry whose quantity is
      one; no other entry changes. */
  lemma RemoveFromCartEffect(cart: seq<CartEntry>, id: string, other: string)
    requires WellFormed(cart) && other != id
    ensures Find(cart, id) == |cart| ==> Removed(cart, id) == cart
    ensures Quantity(cart, id) > 1 ==> Quantity(Removed(cart, id), id) == Quantity(cart, id) - 1
    ensures Quantity(cart, id) > 1 ==> |Removed(cart, id)| == |cart|
    ensures Quantity(cart, id) <= 1 ==> forall i :: 0 <= i < |Removed(cart, id)| ==> Removed(cart, id)[i].item.id != id
    ensures Quantity(Removed(cart, id), other) == Quantity(cart, other)
    ensures forall e :: e in cart && e.item.id != id ==> e in Removed(cart, id)
    ensures IsSubsequence(Removed(cart, id), cart) || Quantity(cart, id) > 1
  {
    var k := Find(cart, id);
    var after := Removed(cart, id);
    if k < |cart| && cart[k].quantity > 1 {
      FindSameIds(after, cart, id);
      FindSameIds(after, cart, other);
      forall e | e in cart && e.item.id != id ensures e in after {
        var j :| 0 <= j < |cart| && cart[j] == e;
        assert after[j] == e;
      }
    } else {
      forall e ensures e in after <==> e in cart && e.item.id != id {
        FilterMembers(cart, NotId(id), e);
      }
      FilterIsSubsequence(cart, NotId(id));
      if k == |cart| {
        FilterKeepsAll(cart, NotId(id));
      }
      forall i | 0 <= i < |after| ensures after[i].item.id != id {
        assert after[i] in after;
      }
      FilterKeepsOther(cart, id, other);
    }
  }

  /** Dropping the entries of one id leaves the quantity of any other id as it was. */
  lemma {:induction false} FilterKeepsOther(cart: seq<CartEntry>, id: string, other: string)
    requires other != id
    ensures Quantity(Filter(cart, NotId(id)), other) == Quantity(cart, other)
  {
    if cart != [] {
      FilterKeepsOther(cart[1..], id, other);
      var rest := Filter(cart[1..], NotId(id));
      assert cart == [cart[0]] + cart[1..];
      QuantityCons(cart[0], cart[1..], other);
      if cart[0].item.id != id {
        assert Filter(cart, NotId(id)) == [cart[0]] + rest;
        QuantityCons(cart[0], rest, other);
      } else {
        assert Filter(cart, NotId(id)) == rest;
      }
    }
  }

  /** The quantity of an id in a cart is that of its first entry when the ids
      match, and its quantity in the rest of the cart otherwise. */
  lemma QuantityCons(e: CartEntry, rest: seq<CartEntry>, id: string)
    ensures Quantity([e] + rest, id) == if e.item.id == id then e.quantity else Quantity(rest, id)
  {
    var c := [e] + rest;
    assert c[1..] == rest;
  }

  /** `removeFromCart` keeps ids distinct and quantities positive. */
  lemma RemovedWellFormed(cart: seq<CartEntry>, id: string)
    requires WellFormed(cart)
    ensures WellFormed(Removed(cart, id))
  {
    var k := Find(cart, id);
    if !(k < |cart| && cart[k].quantity > 1) {
      FilterIsSubsequence(cart, NotId(id));
      SubsequenceKeepsWellFormed(Filter(cart, NotId(id)), cart);
    }
  }

  lemma {:induction false} SubsequenceKeepsWellFormed(r: seq<CartEntry>, s: seq<CartEntry>)
    requires IsSubsequence(r, s) && WellFormed(s)
    ensures WellFormed(r)
    decreases |s|
  {
    if r != [] && s != [] {
      assert WellFormed(s[1..]) by {
        assert forall i :: 0 <= i < |s[1..]| ==> s[1..][i] == s[i + 1];
      }
      if r[0] == s[0] && IsSubsequence(r[1..], s[1..]) {
        SubsequenceKeepsWellFormed(r[1..], s[1..]);
        forall x | x in r[1..] ensures x in s[1..] {
          SubsequenceMembers(r[1..], s[1..], x);
        }
        assert forall i :: 1 <= i < |r| ==> r[i] == r[1..][i - 1] && r[i] in s[1..];
        forall i, j | 0 <= i < j < |r| ensures r[i].item.id != r[j].item.id {
          if i == 0 {
            var m :| 0 <= m < |s[1..]| && s[1..][m] == r[j];
            assert s[m + 1] == r[j];
          }
        }
      } else {
        SubsequenceKeepsWellFormed(r, s[1..]);
      }
    }
  }

  lemma {:induction false} SubsequenceMembers<T>(r: seq<T>, s: seq<T>, x: T)
    requires IsSubsequence(r, s) && x in r
    ensures x in s
    decreases |s|
  {
    if r[0] == s[0] && IsSubsequence(r[1..], s[1..]) {
      if x != r[0] {
        SubsequenceMembers(r[1..], s[1..], x);
      }
    } else {
      SubsequenceMembers(r, s[1..], x);
    }
  }

  /** Removing an item right after adding it gives back exactly the cart before. */
  lemma RemoveUndoesAdd(cart: seq<CartEntry>, item: Doc<MenuItem>)
    requires WellFormed(cart)
    ensures Removed(Added(cart, item), item.id) == cart
  {
    var k := Find(cart, item.id);
    var added := Added(cart, item);
    if k < |cart| {
      FindSameIds(added, cart, item.id);
      assert added[k].quantity > 1;
      assert Bumped(added, item.id, -1) == cart;
    } else {
      var e := CartEntry(item, 1);
      FindAppend(cart, e, item.id);
      FilterAppend(cart, [e], NotId(item.id));
      FilterKeepsAll(cart, NotId(item.id));
      assert Filter([e], NotId(item.id)) == [];
    }
  }

  // ----- the total and the request -----

  function Subtotal(e: CartEntry): Amount {
    e.item.data.price * e.quantity
  }

  /** `getTotalAmount()`: `cart.reduce((total, item) => total + item.price * item.quantity, 0)`. */
  function Total(cart: seq<CartEntry>): (t: Amount)
    ensures (forall i :: 0 <= i < |cart| ==> cart[i].item.data.price >= 0 && cart[i].quantity >= 0) ==> t >= 0
  {
    if cart == [] then 0 else Total(cart[..|cart| - 1]) + Subtotal(cart[|cart| - 1])
  }

  lemma SubtotalOneMore(e: CartEntry)
    ensures Subtotal(e.(quantity := e.quantity + 1)) == Subtotal(e) + e.item.data.price
  {
    var price, q := e.item.data.price, e.quantity;
    assert price * (q + 1) == price * q + price;
  }

  /** Changing one entry changes the total by the difference of that entry's subtotals. */
  lemma {:induction false} TotalUpdate(cart: seq<CartEntry>, k: nat, e: CartEntry)
    requires k < |cart|
    ensures Total(cart[k := e]) == Total(cart) - Subtotal(cart[k]) + Subtotal(e)
  {
    var n := |cart|;
    var c := cart[k := e];
    if k < n - 1 {
      assert c[..n - 1] == cart[..n - 1][k := e];
      TotalUpdate(cart[..n - 1], k, e);
    } else {
      assert c[..n - 1] == cart[..n - 1];
    }
  }

  /** In a well-formed cart only the one entry with the id is bumped. */
  lemma BumpedSingle(cart: seq<CartEntry>, id: string, delta: int, k: nat, e: CartEntry)
    requires WellFormed(cart) && k == Find(cart, id) && k < |cart|
    requires e == cart[k].(quantity := cart[k].quantity + delta)
    ensures Bumped(cart, id, delta) == cart[k := e]
  {
    var r := Bumped(cart, id, delta);
    forall i | 0 <= i < |cart| ensures r[i] == cart[k := e][i] {
      if i != k {
        assert cart[i].item.id != cart[k].item.id;
      }
    }
  }

  /** Adding an item raises the total by the price of one such item: the price
      the cart already holds for it, or the menu's price for a new entry. */
  lemma TotalAfterAdd(cart: seq<CartEntry>, item: Doc<MenuItem>)
    requires WellFormed(cart)
    ensures Find(cart, item.id) < |cart| ==>
              Total(Added(cart, item)) == Total(cart) + cart[Find(cart, item.id)].item.data.price
    ensures Find(cart, item.id) == |cart| ==> Total(Added(cart, item)) == Total(cart) + item.data.price
  {
    var k := Find(cart, item.id);
    if k < |cart| {
      BumpedSingle(cart, item.id, 1, k, cart[k].(quantity := cart[k].quantity + 1));
      TotalAfterBump(cart, k);
    } else {
      TotalAppend(cart, CartEntry(item, 1));
    }
  }

  /** One more of the `k`-th entry adds its price to the total. */
  lemma TotalAfterBump(cart: seq<CartEntry>, k: nat)
    requires k < |cart|
    ensures Total(cart[k := cart[k].(quantity := cart[k].quantity + 1)]) == Total(cart) + cart[k].item.data.price
  {
    TotalUpdate(cart, k, cart[k].(quantity := cart[k].quantity + 1));
    SubtotalOneMore(cart[k]);
  }

  /** A new last entry adds its subtotal to the total. */
  lemma TotalAppend(cart: seq<CartEntry>, e: CartEntry)
    ensures Total(cart + [e]) == Total(cart) + Subtotal(e)
  {
    assert (cart + [e])[..|cart|] == cart;
  }

  /** The line sent for a cart entry: `{ id, name, price, quantity }`. */
  function Line(e: CartEntry): OrderItem {
    OrderItem(e.item.id, e.item.data.name, e.item.data.price, e.quantity)
  }

  function Lines(cart: seq<CartEntry>): (items: seq<OrderItem>)
    ensures |items| == |cart|
    ensures forall i :: 0 <= i < |cart| ==> items[i] == Line(cart[i])
  {
    seq(|cart|, i requires 0 <= i < |cart| => Line(cart[i]))
  }

  /** The dialog's total is the sum the server's order lines add up to. */
  lemma {:induction false} TotalIsItemsTotal(cart: seq<CartEntry>)
    ensures Total(cart) == ItemsTotal(Lines(cart))
  {
    if cart != [] {
      var n := |cart|;
      TotalIsItemsTotal(cart[..n - 1]);
      assert Lines(cart)[..n - 1] == Lines(cart[..n - 1]);
    }
  }

  /** `handleCreateOrder`'s request: none for an empty cart; otherwise the
      restaurant, one line per cart entry in cart order, and the displayed total. */
  function Payload(restaurantId: string, cart: seq<CartEntry>): (r: Option<OrderRequest>)
    ensures r.None? <==> cart == []
    ensures r.Some? ==> r.value.restaurantId == restaurantId && r.value.totalAmount == Total(cart)
    ensures r.Some? ==> |r.value.items| == |cart|
    ensures r.Some? ==> forall i :: 0 <= i < |cart| ==>
              r.value.items[i].id == cart[i].item.id && r.value.items[i].quantity == cart[i].quantity
              && r.value.items[i].price == cart[i].item.data.price
    ensures r.Some? ==> r.value.totalAmount == ItemsTotal(r.value.items)
  {
    if cart == [] then None
    else
      TotalIsItemsTotal(cart);
      Some(OrderRequest(restaurantId, Lines(cart), Total(cart)))
  }

  /** For a non-empty cart the request carries exactly the cart's lines and its total. */
  lemma PayloadOfCart(restaurantId: string, cart: seq<CartEntry>)
    requires cart != []
    ensures Payload(restaurantId, cart) == Some(OrderRequest(restaurantId, Lines(cart), Total(cart)))
  {
  }

  /** `canCreateOrder`: whether the order button is offered. */
  predicate CanCreateOrder(role: Option<string>) {
    Includes(["admin", "manager", "member"], role)
  }

  /** The dialog's cart state. */
  class CartState {
    var cart: seq<CartEntry>

    ghost predicate Valid()
      reads this
    {
      WellFormed(cart)
    }

    constructor ()
      ensures cart == [] && Valid()
    {
      cart := [];
    }

    /** `addToCart(item)`. */
    method AddToCart(item: Doc<MenuItem>)
      requires Valid()
      modifies this
      ensures Valid()
      ensures cart == Added(old(cart), item)
    {
      AddedWellFormed(cart, item);
      var existing := Find(cart, item.id);
      if existing < |cart| {
        cart := Bumped(cart, item.id, 1);
      } else {
        cart := cart + [CartEntry(item, 1)];
      }
    }

    /** `removeFromCart(id)`. */
    method RemoveFromCart(id: string)
      requires Valid()
      modifies this
      ensures Valid()
      ensures cart == Removed(old(cart), id)
    {
      RemovedWellFormed(cart, id);
      var existing := Find(cart, id);
      if existing < |cart| && cart[existing].quantity > 1 {
        cart := Bumped(cart, id, -1);
      } else {
        cart := Filter(cart, NotId(id));
      }
    }

    /** `handleCreateOrder`: the request sent, if any; `succeeded` is whether the
        server accepted it, and only then is the cart emptied. */
    method CreateOrder(restaurantId: string, succeeded: bool) returns (request: Option<OrderRequest>)
      requires Valid()
      modifies this
      ensures Valid()
      ensures request == Payload(restaurantId, old(cart))
      ensures cart == if request.Some? && succeeded then [] else old(cart)
    {
      if |cart| == 0 {
        return None;
      }
      request := Payload(restaurantId, cart);
      if succeeded {
        cart := [];
      }
    }
  }
}
