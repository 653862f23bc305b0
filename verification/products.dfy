/**
 * The product and cart-item records of the storefront, and the fixed mock
 * catalog the cart page looks products up in. Money is held in integer cents
 * throughout: a price of 65 dollars is 6500.
 */
module Products {
  import opened Wrappers

  type Cents = int

  /** The fields of a product the cart logic reads; display fields are not modelled. */
  datatype Product = Product(id: string, price: Cents, originalPrice: Option<Cents>)

  /** What the cart service stores: a product and how many of it. */
  datatype CartItem = CartItem(product: Product, quantity: int)

  /** The mock catalog, in declaration order. */
  const Catalog: seq<Product> := [
    Product("1", 6500, Some(8500)),
    Product("2", 8900, Some(12000)),
    Product("3", 12000, Some(15000)),
    Product("4", 4500, Some(6000))
  ]

  /** The first product of `ps` whose id is `id`, as `Array.prototype.find` returns it. */
  function FindProduct(ps: seq<Product>, id: string): (r: Option<Product>)
    ensures r.Some? ==> r.value in ps && r.value.id == id
    ensures r.None? <==> forall p :: p in ps ==> p.id != id
    ensures r.Some? ==> exists k :: 0 <= k < |ps| && ps[k] == r.value && forall j :: 0 <= j < k ==> ps[j].id != id
  {
    if |ps| == 0 then None
    else if ps[0].id == id then Some(ps[0])
    else
      var r := FindProduct(ps[1..], id);
      assert forall p :: p in ps[1..] ==> p in ps;
      assert r.Some? ==> exists k :: 0 <= k < |ps[1..]| && ps[1..][k] == r.value && forall j :: 0 <= j < k ==> ps[1..][j].id != id;
      if r.Some? then
        var k :| 0 <= k < |ps[1..]| && ps[1..][k] == r.value && forall j :: 0 <= j < k ==> ps[1..][j].id != id;
        assert ps[k + 1] == r.value && forall j :: 0 <= j < k + 1 ==> ps[j].id != id;
        r
      else r
  }

  /** Catalog lookup by id; `None` plays the part of `undefined`. */
  function GetProductById(id: string): (r: Option<Product>)
    ensures r.Some? ==> r.value in Catalog && r.value.id == id
    ensures r.None? <==> forall p :: p in Catalog ==> p.id != id
  {
    FindProduct(Catalog, id)
  }

  /**
   * The source's sale test `p.originalPrice && p.originalPrice > p.price`:
   * an original price that is present, non-zero (zero is falsy) and above the price.
   */
  predicate OnSale(p: Product) {
    p.originalPrice.Some? && p.originalPrice.value != 0 && p.originalPrice.value > p.price
  }

  /** Every catalog product is on sale and has a positive price. */
  lemma CatalogAllOnSale()
    ensures forall p :: p in Catalog ==> OnSale(p) && p.price > 0
  {
  }

  /** No two catalog products share an id. */
  predicate DistinctIds(ps: seq<Product>) {
    forall i, j :: 0 <= i < j < |ps| ==> ps[i].id != ps[j].id
  }

  /** In a list with distinct ids, looking up an element's id finds that element. */
  lemma {:induction false} FindDistinct(ps: seq<Product>, k: nat)
    requires DistinctIds(ps) && k < |ps|
    ensures FindProduct(ps, ps[k].id) == Some(ps[k])
  {
    if k > 0 {
      assert ps[1..][k - 1] == ps[k];
      FindDistinct(ps[1..], k - 1);
    }
  }

  /** Looking up a catalog product's own id finds that very product. */
  lemma CatalogLookup()
    ensures forall p :: p in Catalog ==> GetProductById(p.id) == Some(p)
  {
    assert DistinctIds(Catalog);
    forall p | p in Catalog ensures GetProductById(p.id) == Some(p) {
      var k :| 0 <= k < |Catalog| && Catalog[k] == p;
      FindDistinct(Catalog, k);
    }
  }
}
