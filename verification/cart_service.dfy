/**
 * The cart store: an ordered list of cart items with add, remove, clear and
 * update-quantity transitions. Each operation is a pure function from the
 * current list to the next one (the list the service would emit).
 */
module CartService {
  import opened Wrappers
  import opened Products

  /** True when some item of the cart holds the product `id`. */
  predicate HasProduct(items: seq<CartItem>, id: string) {
    exists i :: 0 <= i < |items| && items[i].product.id == id
  }

  /** The cart invariant: no two items hold the same product id. */
  predicate UniqueIds(items: seq<CartItem>) {
    forall i, j :: 0 <= i < j < |items| ==> items[i].product.id != items[j].product.id
  }

  /** Sum of the quantities, in list order. */
  function TotalQuantity(items: seq<CartItem>): int {
    if |items| == 0 then 0 else items[0].quantity + TotalQuantity(items[1..])
  }

  /** `findIndex` on the product id: the first position holding `id`, or None. */
  function FindIndex(items: seq<CartItem>, id: string): (r: Option<nat>)
    ensures r.None? <==> !HasProduct(items, id)
    ensures r.Some? ==> r.value < |items| && items[r.value].product.id == id
    ensures r.Some? ==> forall j :: 0 <= j < r.value ==> items[j].product.id != id
  {
    if |items| == 0 then None
    else if items[0].product.id == id then Some(0)
    else
      match FindIndex(items[1..], id)
      case None =>
        assert forall i :: 1 <= i < |items| ==> items[i] == items[1..][i - 1];
        None
      case Some(k) => Some(k + 1)
  }

  /**
   * `addToCart`: bump the quantity of the first item holding the product,
   * or append a new item at the end when the product is absent.
   */
  function AddToCart(items: seq<CartItem>, product: Product, quantity: int): (r: seq<CartItem>)
    ensures HasProduct(items, product.id) ==> |r| == |items|
    ensures !HasProduct(items, product.id) ==> r == items + [CartItem(product, quantity)]
    ensures HasProduct(r, product.id)
    ensures forall i :: 0 <= i < |items| && items[i].product.id != product.id ==> r[i] == items[i]
    ensures forall i :: 0 <= i < |items| && items[i].product.id == product.id && UniqueIds(items) ==>
              r[i] == items[i].(quantity := items[i].quantity + quantity)
  {
    match FindIndex(items, product.id)
    case Some(i) =>
      var r := items[i := items[i].(quantity := items[i].quantity + quantity)];
      assert r[i].product.id == product.id;
      r
    case None =>
      var r := items + [CartItem(product, quantity)];
      assert r[|items|].product.id == product.id;
      r
  }

  /** `addToCart` with the default quantity of one. */
  function AddOneToCart(items: seq<CartItem>, product: Product): (r: seq<CartItem>)
    ensures r == AddToCart(items, product, 1)
    ensures !HasProduct(items, product.id) ==> r == items + [CartItem(product, 1)]
    ensures TotalQuantity(r) == TotalQuantity(items) + 1
  {
    AddToCartTotal(items, product, 1);
    AddToCart(items, product, 1)
  }

  /** `removeFromCart`: keep exactly the items not holding `id`, in their order. */
  function RemoveFromCart(items: seq<CartItem>, id: string): (r: seq<CartItem>)
    ensures !HasProduct(r, id)
    ensures |r| <= |items|
    ensures forall it :: it in r <==> it in items && it.product.id != id
    ensures !HasProduct(items, id) ==> r == items
  {
    if |items| == 0 then []
    else if items[0].product.id == id then RemoveFromCart(items[1..], id)
    else
      assert forall it :: it in items <==> it == items[0] || it in items[1..];
      [items[0]] + RemoveFromCart(items[1..], id)
  }

  /** `clearCart`: the next list holds no product at all, and nothing is counted. */
  function ClearCart(items: seq<CartItem>): (r: seq<CartItem>)
    ensures forall id :: !HasProduct(r, id)
    ensures TotalQuantity(r) == 0
  {
    []
  }

  /** `updateQuantity`: every item holding `id` gets `quantity`; all others are kept. */
  function UpdateQuantity(items: seq<CartItem>, id: string, quantity: int): (r: seq<CartItem>)
    ensures |r| == |items|
    ensures forall i :: 0 <= i < |items| ==> r[i].product == items[i].product
    ensures forall i :: 0 <= i < |items| && items[i].product.id == id ==> r[i].quantity == quantity
    ensures forall i :: 0 <= i < |items| && items[i].product.id != id ==> r[i] == items[i]
  {
    seq(|items|, i requires 0 <= i < |items| =>
      if items[i].product.id == id then items[i].(quantity := quantity) else items[i])
  }

  /** After a clear, adding a product gives a cart holding just that product. */
  lemma AddAfterClear(items: seq<CartItem>, product: Product, quantity: int)
    ensures AddToCart(ClearCart(items), product, quantity) == [CartItem(product, quantity)]
  {
  }

  /** Replacing one item's quantity moves the total by the difference. */
  lemma {:induction false} TotalQuantityUpdate(items: seq<CartItem>, i: nat, q: int)
    requires i < |items|
    ensures TotalQuantity(items[i := items[i].(quantity := q)]) == TotalQuantity(items) - items[i].quantity + q
  {
    if i == 0 {
      assert items[i := items[i].(quantity := q)][1..] == items[1..];
    } else {
      assert items[i := items[i].(quantity := q)][1..] == items[1..][i - 1 := items[i].(quantity := q)];
      TotalQuantityUpdate(items[1..], i - 1, q);
    }
  }

  /** Appending one item adds its quantity to the total. */
  lemma {:induction false} TotalQuantityAppend(items: seq<CartItem>, it: CartItem)
    ensures TotalQuantity(items + [it]) == TotalQuantity(items) + it.quantity
  {
    if |items| > 0 {
      assert (items + [it])[1..] == items[1..] + [it];
      TotalQuantityAppend(items[1..], it);
    }
  }

  /** After `addToCart(p, q)` the quantities sum to the old sum plus `q`. */
  lemma AddToCartTotal(items: seq<CartItem>, product: Product, quantity: int)
    ensures TotalQuantity(AddToCart(items, product, quantity)) == TotalQuantity(items) + quantity
  {
    match FindIndex(items, product.id)
    case Some(i) => TotalQuantityUpdate(items, i, items[i].quantity + quantity);
    case None => TotalQuantityAppend(items, CartItem(product, quantity));
  }

  /** `addToCart` keeps the product ids pairwise distinct. */
  lemma AddToCartKeepsUnique(items: seq<CartItem>, product: Product, quantity: int)
    requires UniqueIds(items)
    ensures UniqueIds(AddToCart(items, product, quantity))
  {
    var r := AddToCart(items, product, quantity);
    if HasProduct(items, product.id) {
      forall i, j | 0 <= i < j < |r|
        ensures r[i].product.id != r[j].product.id
      {
        assert r[i].product.id == items[i].product.id;
        assert r[j].product.id == items[j].product.id;
      }
    }
  }

  /** An existing product is bumped in place: same length, and only its item changes. */
  lemma AddExistingProduct(items: seq<CartItem>, product: Product, quantity: int, k: nat)
    requires UniqueIds(items)
    requires k < |items| && items[k].product.id == product.id
    ensures AddToCart(items, product, quantity) == items[k := items[k].(quantity := items[k].quantity + quantity)]
  {
  }

  /** Removing a product that was just appended gives back the original cart. */
  lemma {:induction false} RemoveUndoesAddOfNewProduct(items: seq<CartItem>, product: Product, quantity: int)
    requires !HasProduct(items, product.id)
    ensures RemoveFromCart(AddToCart(items, product, quantity), product.id) == items
  {
    RemoveAppended(items, CartItem(product, quantity));
  }

  lemma {:induction false} RemoveAppended(items: seq<CartItem>, it: CartItem)
    requires !HasProduct(items, it.product.id)
    ensures RemoveFromCart(items + [it], it.product.id) == items
  {
    if |items| == 0 {
      assert RemoveFromCart([it][1..], it.product.id) == [];
    } else {
      assert (items + [it])[1..] == items[1..] + [it];
      assert items[0].product.id != it.product.id;
      assert !HasProduct(items[1..], it.product.id) by {
        forall i | 0 <= i < |items[1..]| ensures items[1..][i].product.id != it.product.id {
          assert items[1..][i] == items[i + 1];
        }
      }
      RemoveAppended(items[1..], it);
    }
  }

  /** `removeFromCart` keeps the order of the items it keeps: the result is a subsequence. */
  lemma {:induction false} RemoveIsFilter(items: seq<CartItem>, id: string)
    ensures RemoveFromCart(items, id) == Filter(items, id)
  {
    if |items| > 0 {
      RemoveIsFilter(items[1..], id);
      FilterCons(items[0], items[1..], id);
      assert items == [items[0]] + items[1..];
    }
  }

  lemma {:induction false} FilterCons(x: CartItem, s: seq<CartItem>, id: string)
    ensures Filter([x] + s, id) == (if x.product.id != id then [x] else []) + Filter(s, id)
  {
    if |s| > 0 {
      var t := [x] + s;
      assert t[..|t| - 1] == [x] + s[..|s| - 1];
      assert t[|t| - 1] == s[|s| - 1];
      FilterCons(x, s[..|s| - 1], id);
    } else {
      assert ([x] + s)[..0] == [];
    }
  }

  /** Reference definition of the filter: items not holding `id`, built from the back. */
  function Filter(items: seq<CartItem>, id: string): seq<CartItem> {
    if |items| == 0 then []
    else Filter(items[..|items| - 1], id) + (if items[|items| - 1].product.id != id then [items[|items| - 1]] else [])
  }

  /** `removeFromCart` and `updateQuantity` keep the product ids pairwise distinct. */
  lemma RemoveAndUpdateKeepUnique(items: seq<CartItem>, id: string, quantity: int)
    requires UniqueIds(items)
    ensures UniqueIds(UpdateQuantity(items, id, quantity))
    ensures UniqueIds(RemoveFromCart(items, id))
  {
    RemoveKeepsUnique(items, id);
  }

  lemma {:induction false} RemoveKeepsUnique(items: seq<CartItem>, id: string)
    requires UniqueIds(items)
    ensures UniqueIds(RemoveFromCart(items, id))
  {
    if |items| > 0 {
      RemoveKeepsUnique(items[1..], id);
      if items[0].product.id != id {
        var rest := RemoveFromCart(items[1..], id);
        forall it | it in rest ensures it.product.id != items[0].product.id {
          assert it in items[1..];
        }
      }
    }
  }

  /** With unique ids, removal lowers the total by exactly the removed item's quantity. */
  lemma {:induction false} RemoveFromCartTotal(items: seq<CartItem>, k: nat)
    requires UniqueIds(items)
    requires k < |items|
    ensures TotalQuantity(RemoveFromCart(items, items[k].product.id)) == TotalQuantity(items) - items[k].quantity
  {
    var id := items[k].product.id;
    if k == 0 {
      assert !HasProduct(items[1..], id) by {
        forall i | 0 <= i < |items[1..]| ensures items[1..][i].product.id != id {
          assert items[1..][i] == items[i + 1];
        }
      }
    } else {
      assert items[1..][k - 1] == items[k];
      RemoveFromCartTotal(items[1..], k - 1);
    }
  }
}
