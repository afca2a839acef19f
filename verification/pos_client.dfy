/**
 * The point-of-sale screen (src/app/pos/components/POSClient.tsx).
 *
 * The screen lists the products in stock, filtered by a case-insensitive
 * search on their names, and keeps a cart. Adding a product already in the
 * cart raises that line's quantity by one; adding a new one appends a line
 * with quantity one. Lines can be removed or given a new quantity (below one
 * removes them). Checkout sends the cart to the backend and empties it when
 * the backend accepts the sale.
 *
 * Prices are integer cents. Loading the products and the sale call are
 * backend I/O: the products are a field and the sale's acceptance a parameter.
 */
module POSClient {
  import opened Common

  /** A product from the inventory, and a cart line (the same record, with the ordered quantity). */
  datatype Item = Item(id: string, name: string, price: int, quantity: int)

  /** One line of the sale sent at checkout. */
  datatype SaleLine = SaleLine(productId: string, quantity: int, price: int)

  function Ids(items: seq<Item>): (ids: seq<string>)
    ensures |ids| == |items|
    ensures forall i :: 0 <= i < |items| ==> ids[i] == items[i].id
  {
    Project(items, (x: Item) => x.id)
  }

  /** No product id appears on two lines. */
  predicate UniqueIds(items: seq<Item>) {
    forall i, j :: 0 <= i < j < |items| ==> items[i].id != items[j].id
  }

  /** `cart.map(item => item.id === id ? { ...item, quantity: item.quantity + 1 } : item)`. */
  function Bump(cart: seq<Item>, id: string): (r: seq<Item>)
    ensures |r| == |cart|
    ensures forall i :: 0 <= i < |cart| ==>
              r[i] == if cart[i].id == id then cart[i].(quantity := cart[i].quantity + 1) else cart[i]
  {
    if cart == [] then []
    else [if cart[0].id == id then cart[0].(quantity := cart[0].quantity + 1) else cart[0]] + Bump(cart[1..], id)
  }

  /** `cart.map(item => item.id === id ? { ...item, quantity: q } : item)`. */
  function SetQuantity(cart: seq<Item>, id: string, q: int): (r: seq<Item>)
    ensures |r| == |cart|
    ensures forall i :: 0 <= i < |cart| ==> r[i] == if cart[i].id == id then cart[i].(quantity := q) else cart[i]
  {
    if cart == [] then []
    else [if cart[0].id == id then cart[0].(quantity := q) else cart[0]] + SetQuantity(cart[1..], id, q)
  }

  /** The cart after `addToCart(p)`. */
  function AddItem(cart: seq<Item>, p: Item): (r: seq<Item>)
    ensures p.id in Ids(r)
    ensures forall id :: id in Ids(r) <==> id in Ids(cart) || id == p.id
  {
    if p.id in Ids(cart) then Bump(cart, p.id)
    else
      var r := cart + [p.(quantity := 1)];
      IdsAppend(cart, [p.(quantity := 1)]);
      assert Ids([p.(quantity := 1)]) == [p.id];
      r
  }

  /** The cart after `removeFromCart(id)`. */
  function RemoveItem(cart: seq<Item>, id: string): (r: seq<Item>)
    ensures forall x :: x in r <==> x in cart && x.id != id
    ensures forall x :: multiset(r)[x] == if x.id != id then multiset(cart)[x] else 0
    ensures IsSubsequence(r, cart)
  {
    Filter(cart, (x: Item) => x.id != id)
  }

  /** The cart after `updateQuantity(id, q)`. */
  function UpdateItem(cart: seq<Item>, id: string, q: int): seq<Item> {
    if q < 1 then RemoveItem(cart, id) else SetQuantity(cart, id, q)
  }

  /** `cart.reduce((sum, item) => sum + item.price * item.quantity, 0)`. */
  function Total(cart: seq<Item>): int {
    if cart == [] then 0 else cart[0].price * cart[0].quantity + Total(cart[1..])
  }

  /** `filteredProducts`: the products whose name contains the query, ignoring case. */
  function Filtered(products: seq<Item>, query: string): (r: seq<Item>)
    ensures forall p :: p in r <==> p in products && MatchesQuery(p.name, query)
    ensures forall p :: multiset(r)[p] == if MatchesQuery(p.name, query) then multiset(products)[p] else 0
    ensures IsSubsequence(r, products)
  {
    Filter(products, (p: Item) => MatchesQuery(p.name, query))
  }

  /** The lines handed to the sale call: one per cart line, in cart order. */
  function SaleLines(cart: seq<Item>): (lines: seq<SaleLine>)
    ensures |lines| == |cart|
    ensures forall i :: 0 <= i < |cart| ==>
              lines[i] == SaleLine(cart[i].id, cart[i].quantity, cart[i].price)
  {
    if cart == [] then [] else [SaleLine(cart[0].id, cart[0].quantity, cart[0].price)] + SaleLines(cart[1..])
  }

  /** The screen's state. */
  class POSScreen {
    var products: seq<Item>
    var cart: seq<Item>
    var searchQuery: string

    /** No product appears on two cart lines. */
    ghost predicate Valid()
      reads this
    {
      UniqueIds(cart)
    }

    constructor ()
      ensures Valid() && products == [] && cart == [] && searchQuery == ""
    {
      products, cart, searchQuery := [], [], "";
    }

    method AddToCart(p: Item)
      requires Valid()
      modifies this`cart
      ensures Valid() && cart == AddItem(old(cart), p)
    {
      AddKeepsIdsDistinct(cart, p);
      if p.id in Ids(cart) {
        cart := Bump(cart, p.id);
      } else {
        cart := cart + [p.(quantity := 1)];
      }
    }

    method RemoveFromCart(id: string)
      requires Valid()
      modifies this`cart
      ensures Valid() && cart == RemoveItem(old(cart), id)
    {
      RemoveKeepsIdsDistinct(cart, id);
      cart := RemoveItem(cart, id);
    }

    method UpdateQuantity(id: string, q: int)
      requires Valid()
      modifies this`cart
      ensures Valid() && cart == UpdateItem(old(cart), id, q)
    {
      if q < 1 {
        RemoveFromCart(id);
        return;
      }
      assert Ids(SetQuantity(cart, id, q)) == Ids(cart);
      cart := SetQuantity(cart, id, q);
    }

    /**
     * `handleCheckout`, offered only while the cart has lines: the lines sent
     * are the cart's, and the cart is emptied exactly when the sale is accepted.
     */
    method HandleCheckout(accepted: bool) returns (sent: seq<SaleLine>)
      requires Valid() && cart != []
      modifies this`cart
      ensures Valid()
      ensures sent == SaleLines(old(cart))
      ensures cart == if accepted then [] else old(cart)
    {
      sent := SaleLines(cart);
      if accepted {
        cart := [];
      }
    }

    /** The products shown for the current query. */
    function ShownProducts(): (r: seq<Item>)
      reads this
      ensures forall p :: p in r <==> p in products && MatchesQuery(p.name, searchQuery)
    {
      Filtered(products, searchQuery)
    }
  }

  // ---------------------------------------------------------------------------
  // Properties

  lemma {:induction false} IdsAppend(a: seq<Item>, b: seq<Item>)
    ensures Ids(a + b) == Ids(a) + Ids(b)
  {
    if a == [] {
      assert a + b == b;
    } else {
      assert (a + b)[1..] == a[1..] + b;
      IdsAppend(a[1..], b);
    }
  }

  lemma UniqueTail(items: seq<Item>)
    requires items != [] && UniqueIds(items)
    ensures UniqueIds(items[1..])
    ensures forall i :: 0 <= i < |items[1..]| ==> items[1..][i].id != items[0].id
  {
  }

  /** Adding keeps the cart's product ids distinct. */
  lemma AddKeepsIdsDistinct(cart: seq<Item>, p: Item)
    requires UniqueIds(cart)
    ensures UniqueIds(AddItem(cart, p))
  {
    if p.id !in Ids(cart) {
      var r := AddItem(cart, p);
      forall i, j | 0 <= i < j < |r| ensures r[i].id != r[j].id {
        if j == |cart| {
          assert Ids(cart)[i] == r[i].id;
        }
      }
    }
  }

  lemma {:induction false} RemoveKeepsIdsDistinct(cart: seq<Item>, id: string)
    requires UniqueIds(cart)
    ensures UniqueIds(RemoveItem(cart, id))
  {
    if cart != [] {
      var keep := (x: Item) => x.id != id;
      var t := cart[1..];
      UniqueTail(cart);
      RemoveKeepsIdsDistinct(t, id);
      if keep(cart[0]) {
        var r' := RemoveItem(t, id);
        assert RemoveItem(cart, id) == [cart[0]] + r';
        forall j | 0 <= j < |r'| ensures r'[j].id != cart[0].id {
          assert r'[j] in t;
        }
      } else {
        assert RemoveItem(cart, id) == RemoveItem(t, id);
      }
    }
  }

  /**
   * Adding a product already in the cart raises that line's quantity by one
   * and leaves every other line, and the order, as it was.
   */
  lemma AddExistingBumps(cart: seq<Item>, p: Item, k: nat)
    requires k < |cart| && cart[k].id == p.id
    ensures var r := AddItem(cart, p);
            |r| == |cart| && r[k] == cart[k].(quantity := cart[k].quantity + 1) &&
            forall i :: 0 <= i < |cart| && cart[i].id != p.id ==> r[i] == cart[i]
  {
    assert Ids(cart)[k] == p.id;
  }

  /** Adding a product not in the cart appends a line with quantity one, whatever its stock quantity. */
  lemma AddNewAppends(cart: seq<Item>, p: Item)
    requires p.id !in Ids(cart)
    ensures AddItem(cart, p) == cart + [Item(p.id, p.name, p.price, 1)]
  {
  }

  lemma {:induction false} TotalAppend(a: seq<Item>, b: seq<Item>)
    ensures Total(a + b) == Total(a) + Total(b)
  {
    if a == [] {
      assert a + b == b;
    } else {
      assert (a + b)[1..] == a[1..] + b;
      TotalAppend(a[1..], b);
    }
  }

  lemma BumpAbsent(cart: seq<Item>, id: string)
    requires forall i :: 0 <= i < |cart| ==> cart[i].id != id
    ensures Bump(cart, id) == cart
  {
  }

  lemma {:induction false} TotalBump(cart: seq<Item>, id: string, k: nat)
    requires UniqueIds(cart) && k < |cart| && cart[k].id == id
    ensures Total(Bump(cart, id)) == Total(cart) + cart[k].price
  {
    var t := cart[1..];
    UniqueTail(cart);
    assert Bump(cart, id)[1..] == Bump(t, id);
    if k == 0 {
      BumpAbsent(t, id);
    } else {
      TotalBump(t, id, k - 1);
    }
  }

  /** Adding a product not yet in the cart raises the total by the product's price. */
  lemma TotalAfterAddNew(cart: seq<Item>, p: Item)
    requires p.id !in Ids(cart)
    ensures Total(AddItem(cart, p)) == Total(cart) + p.price
  {
    TotalAppend(cart, [p.(quantity := 1)]);
  }

  /** Adding a product already on line k raises the total by that line's price (not the product's). */
  lemma TotalAfterAddExisting(cart: seq<Item>, p: Item, k: nat)
    requires UniqueIds(cart) && k < |cart| && cart[k].id == p.id
    ensures Total(AddItem(cart, p)) == Total(cart) + cart[k].price
  {
    assert Ids(cart)[k] == p.id;
    TotalBump(cart, p.id, k);
  }

  /** The empty cart totals 0, and a total is the sum of the lines' price times quantity. */
  lemma TotalOfLines(a: seq<Item>, x: Item)
    ensures Total([]) == 0
    ensures Total(a + [x]) == Total(a) + x.price * x.quantity
  {
    TotalAppend(a, [x]);
  }

  /**
   * A quantity below one removes the product's lines; any other quantity
   * replaces the quantity of the product's lines only, keeping the length and
   * every other line.
   */
  lemma UpdateQuantityEffect(cart: seq<Item>, id: string, q: int)
    ensures q < 1 ==> UpdateItem(cart, id, q) == RemoveItem(cart, id) && id !in Ids(UpdateItem(cart, id, q))
    ensures q >= 1 ==>
              var r := UpdateItem(cart, id, q);
              |r| == |cart| &&
              forall i :: 0 <= i < |cart| ==>
                r[i].id == cart[i].id && r[i].name == cart[i].name && r[i].price == cart[i].price &&
                r[i].quantity == (if cart[i].id == id then q else cart[i].quantity)
  {
    if q < 1 {
      var r := RemoveItem(cart, id);
      forall i | 0 <= i < |r| ensures Ids(r)[i] != id {
        assert r[i] in r;
      }
    }
  }

  /** An empty query shows every product. */
  lemma EmptyQueryShowsAll(products: seq<Item>)
    ensures Filtered(products, "") == products
  {
    forall p | p in products ensures MatchesQuery(p.name, "") {
      assert Lower("") == "";
      ContainsTrivial(Lower(p.name));
    }
    FilterAll(products, (p: Item) => MatchesQuery(p.name, ""));
  }
}
