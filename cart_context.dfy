/** The cart store (ecommerce-client/src/components/contexts/CartContext.tsx): the
    updater logic of addToCart and removeFromCart over the cart list, and the store
    object whose `cart` cell those updaters replace. */
module CartContext {
  import opened Wrappers
  import opened CartHandlers

  /** Some line of the cart carries product id `id` (the `find` of addToCart). */
  predicate HasId(cart: seq<Product>, id: Option<int>) {
    exists i :: 0 <= i < |cart| && cart[i].id == id
  }

  /** At most one line per product id. */
  predicate DistinctIds(cart: seq<Product>) {
    forall i, j :: 0 <= i < j < |cart| ==> cart[i].id != cart[j].id
  }

  /** How many lines carry product id `id`. */
  function CountId(cart: seq<Product>, id: Option<int>): nat {
    if cart == [] then 0 else (if cart[0].id == id then 1 else 0) + CountId(cart[1..], id)
  }

  /** A line after one more unit of its product was added: `(p.quantity || 1) + 1`. */
  function Incremented(p: Product): Product {
    p.(quantity := Some(EffectiveQuantity(p) + 1))
  }

  /** The `map` of addToCart's merge branch: every line with id `id` gains one unit,
      every other line is kept as it is, and the order of the lines is kept. */
  function IncrementMatching(cart: seq<Product>, id: Option<int>): (r: seq<Product>)
    ensures |r| == |cart|
    ensures forall i :: 0 <= i < |cart| ==>
      && r[i].id == cart[i].id
      && (cart[i].id == id ==> r[i] == Incremented(cart[i]))
      && (cart[i].id != id ==> r[i] == cart[i])
  {
    if cart == [] then []
    else [if cart[0].id == id then Incremented(cart[0]) else cart[0]] + IncrementMatching(cart[1..], id)
  }

  /** addToCart's updater. If the product's id is already in the cart, the cart keeps
      its length, the matching line gains one unit and every other line is untouched;
      otherwise the product is appended with quantity 1 after the unchanged cart.
      Either way the product's id is in the result. */
  function AddToCart(cart: seq<Product>, product: Product): (r: seq<Product>)
    ensures HasId(r, product.id)
    ensures HasId(cart, product.id) ==>
      && |r| == |cart|
      && forall i :: 0 <= i < |cart| ==>
           && (cart[i].id == product.id ==> r[i] == Incremented(cart[i]))
           && (cart[i].id != product.id ==> r[i] == cart[i])
    ensures !HasId(cart, product.id) ==>
      && |r| == |cart| + 1
      && r[..|cart|] == cart
      && r[|cart|] == product.(quantity := Some(1))
  {
    if HasId(cart, product.id) then IncrementMatching(cart, product.id)
    else
      var r := cart + [product.(quantity := Some(1))];
      assert r[|cart|].id == product.id;
      r
  }

  /** removeFromCart's updater: the `filter` that keeps the lines whose id is not `productId`.
      Afterwards no line has that id, exactly the other lines are kept, and a cart
      without that id comes back unchanged. */
  function RemoveFromCart(cart: seq<Product>, productId: int): (r: seq<Product>)
    ensures !HasId(r, Some(productId))
    ensures forall p :: p in r <==> p in cart && p.id != Some(productId)
    ensures !HasId(cart, Some(productId)) ==> r == cart
    ensures |r| <= |cart|
  {
    if cart == [] then []
    else
      var rest := RemoveFromCart(cart[1..], productId);
      assert !HasId(cart, Some(productId)) ==> !HasId(cart[1..], Some(productId)) by {
        if HasId(cart[1..], Some(productId)) {
          var i :| 0 <= i < |cart[1..]| && cart[1..][i].id == Some(productId);
          assert cart[i + 1].id == Some(productId);
        }
      }
      if cart[0].id != Some(productId) then
        assert cart == [cart[0]] + cart[1..];
        [cart[0]] + rest
      else rest
  }

  /** Adding a product keeps the cart at one line per product id. */
  lemma AddToCartKeepsIdsDistinct(cart: seq<Product>, product: Product)
    requires DistinctIds(cart)
    ensures DistinctIds(AddToCart(cart, product))
  {
    var r := AddToCart(cart, product);
    if !HasId(cart, product.id) {
      forall i, j | 0 <= i < j < |r| ensures r[i].id != r[j].id {
        if j == |cart| {
          assert r[i] == cart[i];
        } else {
          assert r[i] == cart[i] && r[j] == cart[j];
        }
      }
    }
  }

  /** In a cart with one line per id, the number of lines with an id is 1 when it is present, else 0. */
  lemma {:induction false} CountIdOfDistinct(cart: seq<Product>, id: Option<int>)
    requires DistinctIds(cart)
    ensures CountId(cart, id) == if HasId(cart, id) then 1 else 0
  {
    if cart != [] {
      assert DistinctIds(cart[1..]) by {
        forall i, j | 0 <= i < j < |cart[1..]| ensures cart[1..][i].id != cart[1..][j].id {
          assert cart[1..][i] == cart[i + 1] && cart[1..][j] == cart[j + 1];
        }
      }
      CountIdOfDistinct(cart[1..], id);
      if cart[0].id == id {
        assert !HasId(cart[1..], id) by {
          forall k | 0 <= k < |cart[1..]| ensures cart[1..][k].id != id {
            assert cart[1..][k] == cart[k + 1];
          }
        }
      } else {
        if HasId(cart, id) {
          var k :| 0 <= k < |cart| && cart[k].id == id;
          assert cart[1..][k - 1].id == id;
        }
      }
    }
  }

  /** After addToCart on a cart with one line per id, exactly one line carries the product. */
  lemma AddToCartYieldsOneLine(cart: seq<Product>, product: Product)
    requires DistinctIds(cart)
    ensures CountId(AddToCart(cart, product), product.id) == 1
  {
    AddToCartKeepsIdsDistinct(cart, product);
    CountIdOfDistinct(AddToCart(cart, product), product.id);
  }

  /** Adding the same product twice to a cart that lacks it yields one new line, with quantity 2. */
  lemma AddTwiceYieldsQuantityTwo(cart: seq<Product>, product: Product)
    requires !HasId(cart, product.id)
    ensures AddToCart(AddToCart(cart, product), product) == cart + [product.(quantity := Some(2))]
  {
    var once := AddToCart(cart, product);
    var twice := AddToCart(once, product);
    assert HasId(once, product.id);
    forall i | 0 <= i < |cart| ensures twice[i] == cart[i] {
      assert once[i] == cart[i];
    }
    assert twice[|cart|] == Incremented(product.(quantity := Some(1)));
  }

  /** The filter distributes over concatenation: lines keep their relative order. */
  lemma {:induction false} RemoveFromCartDistributes(a: seq<Product>, b: seq<Product>, productId: int)
    ensures RemoveFromCart(a + b, productId) == RemoveFromCart(a, productId) + RemoveFromCart(b, productId)
  {
    if a == [] {
      assert a + b == b;
    } else {
      assert (a + b)[1..] == a[1..] + b;
      RemoveFromCartDistributes(a[1..], b, productId);
    }
  }

  /** removeFromCart is idempotent: removing the same id again changes nothing. */
  lemma RemoveFromCartIdempotent(cart: seq<Product>, productId: int)
    ensures RemoveFromCart(RemoveFromCart(cart, productId), productId) == RemoveFromCart(cart, productId)
  {
  }

  /** Removing lines keeps the cart at one line per product id. */
  lemma {:induction false} RemoveFromCartKeepsIdsDistinct(cart: seq<Product>, productId: int)
    requires DistinctIds(cart)
    ensures DistinctIds(RemoveFromCart(cart, productId))
  {
    if cart != [] {
      assert DistinctIds(cart[1..]) by {
        forall i, j | 0 <= i < j < |cart[1..]| ensures cart[1..][i].id != cart[1..][j].id {
          assert cart[1..][i] == cart[i + 1] && cart[1..][j] == cart[j + 1];
        }
      }
      RemoveFromCartKeepsIdsDistinct(cart[1..], productId);
      var rest := RemoveFromCart(cart[1..], productId);
      if cart[0].id != Some(productId) {
        var r := [cart[0]] + rest;
        forall j | 0 < j < |r| ensures r[0].id != r[j].id {
          assert r[j] in rest;
          var k :| 1 <= k < |cart| && cart[k] == r[j];
        }
      }
    }
  }

  /** The cart cell of the store: the list every screen reads, replaced as a whole by
      each operation (`setCart`). */
  class CartStore {
    var cart: seq<Product>

    /** The store starts from the cart saved by an earlier session, or empty. */
    constructor (saved: Option<seq<Product>>)
      ensures cart == saved.GetOr([])
    {
      cart := saved.GetOr([]);
    }

    /** addToCart */
    method Add(product: Product)
      modifies this
      ensures cart == AddToCart(old(cart), product)
      ensures HasId(cart, product.id)
      ensures DistinctIds(old(cart)) ==> DistinctIds(cart) && CountId(cart, product.id) == 1
    {
      ghost var before := cart;
      cart := AddToCart(cart, product);
      if DistinctIds(before) {
        AddToCartYieldsOneLine(before, product);
      }
    }

    /** removeFromCart */
    method Remove(productId: int)
      modifies this
      ensures cart == RemoveFromCart(old(cart), productId)
      ensures !HasId(cart, Some(productId))
      ensures DistinctIds(old(cart)) ==> DistinctIds(cart)
    {
      ghost var before := cart;
      cart := RemoveFromCart(cart, productId);
      if DistinctIds(before) {
        RemoveFromCartKeepsIdsDistinct(before, productId);
      }
    }

    /** setCart: replace the whole list. */
    method SetCart(updated: seq<Product>)
      modifies this
      ensures cart == updated
    {
      cart := updated;
    }
  }
}
