/**
 * The cart page's pricing rules: per-item totals and savings against the
 * catalog, the cart summary (subtotal, discount, shipping, tax, total), the
 * free-shipping helpers, the quantity sanitiser and the checkout guard.
 *
 * The page computes with JavaScript doubles and rounds with
 * `Math.round(x * 100) / 100`. Here every amount is an integer number of
 * cents and `JsRound` is the explicit rounding step.
 */
module CartPricing {
  import opened Wrappers
  import opened Products
  import CartService

  /** 8.5 % written as parts per thousand. */
  const TaxRatePerMille: int := 85
  const ShippingThreshold: Cents := 10000
  const ShippingCost: Cents := 999

  /**
   * `Math.round(n / d)` for a positive denominator: the integer nearest to
   * n / d, with halves rounded up (towards +infinity), as JavaScript does.
   */
  function JsRound(n: int, d: int): (r: int)
    requires d > 0
    ensures 2 * d * r <= 2 * n + d < 2 * d * r + 2 * d
  {
    var q := (2 * n + d) / (2 * d);
    assert 2 * n + d == 2 * d * q + (2 * n + d) % (2 * d);
    q
  }

  /**
   * Rounding an amount that is already whole cents changes nothing. This is
   * why the item totals, the item savings and the cart total, which the page
   * rounds to the cent, are exact products and sums of cents here.
   */
  lemma JsRoundWhole(n: int)
    ensures JsRound(n, 1) == n
  {
  }

  /**
   * The discount test of `getItemTotal`: the catalog entry `c` has an original
   * price that is present, non-zero and above `price`, the item's own price.
   */
  predicate Undercuts(c: Product, price: Cents) {
    c.originalPrice.Some? && c.originalPrice.value != 0 && c.originalPrice.value > price
  }

  /**
   * The unit price `getItemTotal` charges: the catalog price when the catalog
   * entry's original price is present, non-zero and above the item's own
   * price; the item's own price otherwise (also when the id is not in the catalog).
   */
  function UnitPrice(item: CartItem): (r: Cents)
    ensures forall c :: GetProductById(item.product.id) == Some(c) && Undercuts(c, item.product.price) ==> r == c.price
    ensures forall c :: GetProductById(item.product.id) == Some(c) && !Undercuts(c, item.product.price) ==> r == item.product.price
    ensures GetProductById(item.product.id).None? ==> r == item.product.price
  {
    match GetProductById(item.product.id)
    case Some(c) =>
      if Undercuts(c, item.product.price) then c.price else item.product.price
    case None => item.product.price
  }

  /** `getItemTotal`: unit price times quantity (whole cents, so the rounding is exact). */
  function ItemTotal(item: CartItem): (r: Cents)
    ensures r == UnitPrice(item) * item.quantity
    ensures GetProductById(item.product.id).None? ==> r == item.product.price * item.quantity
    ensures item.quantity >= 0 && item.product.price >= 0 ==> r >= 0
  {
    CatalogAllOnSale();
    MulNonNegative(UnitPrice(item), item.quantity);
    UnitPrice(item) * item.quantity
  }

  /**
   * `getItemSavings`: when the catalog entry is on sale, the gap between its
   * original price and its price times the quantity, rounded to the cent; else 0.
   */
  function ItemSavings(item: CartItem): (r: Cents)
    ensures GetProductById(item.product.id).None? || !OnSale(GetProductById(item.product.id).value) ==> r == 0
    ensures forall c :: GetProductById(item.product.id) == Some(c) && OnSale(c) ==>
              r == (c.originalPrice.value - c.price) * item.quantity
    ensures item.quantity >= 0 ==> r >= 0
    ensures item.quantity > 0 && r > 0 ==> GetProductById(item.product.id).Some?
  {
    match GetProductById(item.product.id)
    case Some(c) =>
      if OnSale(c) then
        var perItem := c.originalPrice.value - c.price;
        MulNonNegative(perItem, item.quantity);
        perItem * item.quantity
      else 0
    case None => 0
  }

  /**
   * Whenever the catalog entry's original price is above the price the item
   * carries, the catalog price is charged, whatever the item's own price: an
   * item holding a stale product record is charged the current sale price.
   */
  lemma CatalogPriceCharged(item: CartItem, c: Product)
    requires GetProductById(item.product.id) == Some(c)
    ensures c.originalPrice.value > item.product.price ==> ItemTotal(item) == c.price * item.quantity
    ensures c.originalPrice.value <= item.product.price ==> ItemTotal(item) == item.product.price * item.quantity
  {
    CatalogAllOnSale();
  }

  /** A stale record of product "1" priced at 50 dollars is charged the catalog's 65 dollars. */
  lemma StaleCheapItemChargedCatalogPrice()
    ensures ItemTotal(CartItem(Product("1", 5000, None), 1)) == 6500
  {
    CatalogLookup();
    CatalogPriceCharged(CartItem(Product("1", 5000, None), 1), Catalog[0]);
  }

  /**
   * For a positive quantity, an item saves money exactly when `isItemOnSale`
   * holds for its id; the savings depend on the id alone, never on the
   * price the item carries.
   */
  lemma SavingsIffOnSale(p: Product, q: int)
    requires q > 0
    ensures IsItemOnSale(p.id) <==> ItemSavings(CartItem(p, q)) > 0
  {
    match GetProductById(p.id)
    case Some(c) =>
      if OnSale(c) {
        PositiveProduct(c.originalPrice.value - c.price, q);
      }
    case None =>
  }

  lemma PositiveProduct(a: int, b: int)
    requires a > 0 && b > 0
    ensures a * b > 0
  {
  }

  lemma MulNonNegative(a: int, b: int)
    ensures a >= 0 && b >= 0 ==> a * b >= 0
  {
  }

  /** For an item carrying its own catalog entry, total plus savings is the original price times the quantity. */
  lemma TotalPlusSavingsIsOriginal(item: CartItem)
    requires item.product in Catalog && OnSale(item.product)
    ensures ItemTotal(item) + ItemSavings(item) == item.product.originalPrice.value * item.quantity
  {
    CatalogLookup();
    TotalPlusSavingsOfEntry(item);
  }

  /** The same, for an item whose own product is what the catalog returns for its id. */
  lemma TotalPlusSavingsOfEntry(item: CartItem)
    requires GetProductById(item.product.id) == Some(item.product) && OnSale(item.product)
    ensures ItemTotal(item) + ItemSavings(item) == item.product.originalPrice.value * item.quantity
  {
    var c := item.product;
    var q := item.quantity;
    assert UnitPrice(item) == c.price;
    assert ItemSavings(item) == (c.originalPrice.value - c.price) * q;
    Distribute(c.price, c.originalPrice.value - c.price, q);
  }

  lemma Distribute(a: int, b: int, c: int)
    ensures a * c + b * c == (a + b) * c
  {
  }

  /** Reference sum of the item totals, built from the last item back. */
  function SumTotals(items: seq<CartItem>): Cents {
    if |items| == 0 then 0 else SumTotals(items[..|items| - 1]) + ItemTotal(items[|items| - 1])
  }

  /** Reference sum of the item savings, built from the last item back. */
  function SumSavings(items: seq<CartItem>): Cents {
    if |items| == 0 then 0 else SumSavings(items[..|items| - 1]) + ItemSavings(items[|items| - 1])
  }

  /** The computed fields of the cart page. */
  datatype Summary = Summary(subtotal: Cents, discountAmount: Cents, shippingCost: Cents, taxAmount: Cents, total: Cents)

  /** The shipping rule: free from the threshold on, and free for an empty cart. */
  function Shipping(subtotal: Cents, itemCount: nat): (r: Cents)
    ensures r == 0 <==> subtotal >= ShippingThreshold || itemCount == 0
    ensures r == 0 || r == ShippingCost
  {
    if subtotal >= ShippingThreshold || itemCount == 0 then 0 else ShippingCost
  }

  /** Tax on the subtotal at 8.5 %, rounded to the cent. */
  function Tax(subtotal: Cents): (r: Cents)
    ensures 2000 * r <= 2 * TaxRatePerMille * subtotal + 1000 < 2000 * r + 2000
    ensures subtotal >= 0 ==> 0 <= r <= subtotal
  {
    JsRound(subtotal * TaxRatePerMille, 1000)
  }

  /** The summary `calculateCartSummary` produces for a list of items. */
  function CartSummary(items: seq<CartItem>): (s: Summary)
    ensures s.subtotal == SumTotals(items) && s.discountAmount == SumSavings(items)
    ensures s.shippingCost == 0 <==> s.subtotal >= ShippingThreshold || |items| == 0
    ensures s.shippingCost != 0 ==> s.shippingCost == ShippingCost
    ensures 2000 * s.taxAmount <= 2 * TaxRatePerMille * s.subtotal + 1000 < 2000 * s.taxAmount + 2000
    ensures s.total == s.subtotal + s.shippingCost + s.taxAmount
  {
    var subtotal := SumTotals(items);
    var shipping := Shipping(subtotal, |items|);
    var tax := Tax(subtotal);
    Summary(subtotal, SumSavings(items), shipping, tax, subtotal + shipping + tax)
  }

  /**
   * `calculateCartSummary` as the page runs it: two left-to-right `reduce`
   * passes, then shipping, tax and total.
   */
  method CalculateCartSummary(items: seq<CartItem>) returns (s: Summary)
    ensures s == CartSummary(items)
  {
    var subtotal := ReduceTotals(items);
    var discount := ReduceSavings(items);
    var shipping := if subtotal >= ShippingThreshold || |items| == 0 then 0 else ShippingCost;
    var tax := JsRound(subtotal * TaxRatePerMille, 1000);
    s := Summary(subtotal, discount, shipping, tax, subtotal + shipping + tax);
  }

  /** The subtotal `reduce`: item totals added left to right. */
  method ReduceTotals(items: seq<CartItem>) returns (sum: Cents)
    ensures sum == SumTotals(items)
  {
    sum := 0;
    for i := 0 to |items|
      invariant sum == SumTotals(items[..i])
    {
      assert items[..i + 1][..i] == items[..i];
      sum := sum + ItemTotal(items[i]);
    }
    assert items[..|items|] == items;
  }

  /** The discount `reduce`: item savings added left to right. */
  method ReduceSavings(items: seq<CartItem>) returns (sum: Cents)
    ensures sum == SumSavings(items)
  {
    sum := 0;
    for i := 0 to |items|
      invariant sum == SumSavings(items[..i])
    {
      assert items[..i + 1][..i] == items[..i];
      sum := sum + ItemSavings(items[i]);
    }
    assert items[..|items|] == items;
  }

  /** `hasFreeShipping`: the subtotal has reached the threshold. */
  function HasFreeShipping(items: seq<CartItem>): (r: bool)
    ensures |items| == 0 ==> !r
    ensures r <==> SumTotals(items) >= ShippingThreshold
    ensures r ==> CartSummary(items).shippingCost == 0
    ensures !r && |items| > 0 ==> CartSummary(items).shippingCost == ShippingCost
  {
    CartSummary(items).subtotal >= ShippingThreshold
  }

  /** `getRemainingForFreeShipping`: what must still be added to ship for free. */
  function RemainingForFreeShipping(items: seq<CartItem>): (r: Cents)
    ensures r >= 0
    ensures r == 0 <==> CartSummary(items).shippingCost == 0
    ensures r > 0 ==> CartSummary(items).subtotal + r == ShippingThreshold
  {
    if HasFreeShipping(items) || |items| == 0 then 0
    else
      var gap := ShippingThreshold - CartSummary(items).subtotal;
      if gap > 0 then gap else 0
  }

  /** `getTotalItems`: the quantities summed, as a left-to-right `reduce`. */
  method GetTotalItems(items: seq<CartItem>) returns (n: int)
    ensures n == CartService.TotalQuantity(items)
    ensures (forall i :: 0 <= i < |items| ==> items[i].quantity >= 1) ==> n >= |items|
  {
    n := 0;
    for i := 0 to |items|
      invariant n + CartService.TotalQuantity(items[i..]) == CartService.TotalQuantity(items)
      invariant (forall j :: 0 <= j < |items| ==> items[j].quantity >= 1) ==> n >= i
    {
      assert items[i..][1..] == items[i + 1..];
      n := n + items[i].quantity;
    }
    assert items[|items|..] == [];
  }

  /** Where `proceedToCheckout` sends the user. */
  datatype Navigation = StayOnCart | NavigateTo(route: string)

  /** `proceedToCheckout`: an empty cart stays put; otherwise go to the checkout page. */
  function ProceedToCheckout(items: seq<CartItem>): (r: Navigation)
    ensures r.StayOnCart? <==> |items| == 0
    ensures r.NavigateTo? ==> r.route == "/checkout"
  {
    if |items| == 0 then StayOnCart else NavigateTo("/checkout")
  }

  /**
   * The page's quantity sanitiser `max(1, floor(q))`. The input is a number
   * that may be NaN (None); NaN gives None, meaning nothing is forwarded.
   */
  function SanitizeQuantity(q: Option<real>): (r: Option<int>)
    ensures r.None? <==> q.None?
    ensures r.Some? ==> r.value >= 1
    ensures r.Some? ==> (r.value as real) <= q.value + 1.0 || r.value == 1
    ensures r.Some? && q.value >= 1.0 ==> (r.value as real) <= q.value < (r.value as real) + 1.0
  {
    match q
    case None => None
    case Some(x) => Some(if x.Floor > 1 then x.Floor else 1)
  }

  /** The page's `updateQuantity`: sanitise, then forward to the cart store unless NaN. */
  function UpdateQuantityFromInput(items: seq<CartItem>, id: string, q: Option<real>): (r: seq<CartItem>)
    ensures q.None? ==> r == items
    ensures |r| == |items|
    ensures forall i :: 0 <= i < |items| && items[i].product.id == id && q.Some? ==> r[i].quantity >= 1
    ensures forall i :: 0 <= i < |items| && items[i].product.id == id && q.Some? ==>
              r[i] == items[i].(quantity := SanitizeQuantity(q).value)
    ensures forall i :: 0 <= i < |items| && items[i].product.id != id ==> r[i] == items[i]
  {
    match SanitizeQuantity(q)
    case None => items
    case Some(n) => CartService.UpdateQuantity(items, id, n)
  }

  /** `isItemOnSale`: the catalog entry for `id` exists and is on sale. */
  function IsItemOnSale(id: string): (r: bool)
    ensures r <==> exists c :: c in Catalog && c.id == id && OnSale(c) && GetProductById(id) == Some(c)
  {
    match GetProductById(id)
    case Some(c) => OnSale(c)
    case None => false
  }

  /** `getItemDiscountPercentage`: the catalog discount as a whole percentage, or 0. */
  function ItemDiscountPercentage(id: string): (r: int)
    ensures !IsItemOnSale(id) ==> r == 0
    ensures IsItemOnSale(id) ==> 0 <= r <= 100
    ensures forall c :: GetProductById(id) == Some(c) && OnSale(c) ==>
              2 * c.originalPrice.value * r <= 200 * (c.originalPrice.value - c.price) + c.originalPrice.value
              < 2 * c.originalPrice.value * r + 2 * c.originalPrice.value
  {
    match GetProductById(id)
    case Some(c) =>
      if OnSale(c) then
        CatalogAllOnSale();
        var op := c.originalPrice.value;
        var r := JsRound((op - c.price) * 100, op);
        PercentageBounds(op, c.price, r);
        r
      else 0
    case None => 0
  }

  lemma PercentageBounds(op: int, p: int, r: int)
    requires 0 < p < op
    requires 2 * op * r <= 2 * ((op - p) * 100) + op < 2 * op * r + 2 * op
    ensures 0 <= r <= 100
  {
    MulBelowAbove(op, r);
  }

  lemma MulBelowAbove(a: int, b: int)
    requires a > 0
    ensures b <= -1 ==> a * b <= -a
    ensures b >= 101 ==> a * b >= 101 * a
  {
  }
}
