/**
 * The point-of-sale cart of the café screen (frontend/app/routes/Cafe.tsx).
 * Every operation takes the current cart and returns a new one (React's
 * `setCart(prev => ...)` replaces the whole array), so the model is a set of
 * functions on sequences.
 *
 * Prices and quantities are whole numbers (rupiah, items).
 */
module Cafe {
  import opened Wrappers
  import Text

  /** A catalogue entry, restricted to the fields the cart logic reads. */
  datatype Product = Product(id: int, name: string, price: int, categoryId: int)

  /** One cart line: the product id, how many, and the product it was added from. */
  datatype CartItem = CartItem(productId: int, quantity: int, product: Product)

  /** The invariant the cart screen relies on: one line per product, each with at least one unit. */
  ghost predicate WellFormed(cart: seq<CartItem>) {
    && (forall i, j :: 0 <= i < j < |cart| ==> cart[i].productId != cart[j].productId)
    && (forall i :: 0 <= i < |cart| ==> cart[i].quantity >= 1)
  }

  // ---------------------------------------------------------------------
  // Looking things up (`Array.prototype.find`)
  // ---------------------------------------------------------------------

  /** Position of the first line for `productId`, or None when the cart has none. */
  function FindItem(cart: seq<CartItem>, productId: int): (r: Option<nat>)
    ensures r.Some? ==> r.value < |cart| && cart[r.value].productId == productId
    ensures r.Some? ==> forall j :: 0 <= j < r.value ==> cart[j].productId != productId
    ensures r.None? <==> forall j :: 0 <= j < |cart| ==> cart[j].productId != productId
  {
    if cart == [] then None
    else if cart[0].productId == productId then Some(0)
    else match FindItem(cart[1..], productId)
      case None => None
      case Some(k) => Some(k + 1)
  }

  /** The first catalogue entry with id `id`, or None. */
  function FindProduct(products: seq<Product>, id: int): (r: Option<Product>)
    ensures r.Some? ==> r.value in products && r.value.id == id
    ensures r.Some? ==>
      exists i :: 0 <= i < |products| && products[i] == r.value && forall j :: 0 <= j < i ==> products[j].id != id
    ensures r.None? <==> forall p :: p in products ==> p.id != id
  {
    if products == [] then None
    else if products[0].id == id then Some(products[0])
    else FindProduct(products[1..], id)
  }

  // ---------------------------------------------------------------------
  // addToCart (Cafe.tsx:153-165)
  // ---------------------------------------------------------------------

  /** `prev.map(...)`: every line for `productId` gets one more unit. */
  function Increment(cart: seq<CartItem>, productId: int): (r: seq<CartItem>)
    ensures |r| == |cart|
    ensures forall i :: 0 <= i < |cart| && cart[i].productId != productId ==> r[i] == cart[i]
    ensures forall i :: 0 <= i < |cart| && cart[i].productId == productId ==>
      r[i] == cart[i].(quantity := cart[i].quantity + 1)
  {
    seq(|cart|, i requires 0 <= i < |cart| =>
      if cart[i].productId == productId then cart[i].(quantity := cart[i].quantity + 1) else cart[i])
  }

  function AddToCart(cart: seq<CartItem>, product: Product): (r: seq<CartItem>)
  {
    if FindItem(cart, product.id).Some? then Increment(cart, product.id)
    else cart + [CartItem(product.id, 1, product)]
  }

  /** A product already in a well-formed cart: only its line changes, by one unit. */
  lemma AddToCartExisting(cart: seq<CartItem>, product: Product, k: nat)
    requires WellFormed(cart)
    requires k < |cart| && cart[k].productId == product.id
    ensures AddToCart(cart, product) == cart[k := cart[k].(quantity := cart[k].quantity + 1)]
  {
    var r := AddToCart(cart, product);
    assert FindItem(cart, product.id).Some?;
    forall i | 0 <= i < |cart| && i != k
      ensures r[i] == cart[i]
    {
      assert cart[i].productId != cart[k].productId by {
        if i < k {} else {}
      }
    }
  }

  /** A product not yet in the cart: a one-unit line is appended, nothing else moves. */
  lemma AddToCartNew(cart: seq<CartItem>, product: Product)
    requires forall i :: 0 <= i < |cart| ==> cart[i].productId != product.id
    ensures AddToCart(cart, product) == cart + [CartItem(product.id, 1, product)]
  {
  }

  lemma AddToCartWellFormed(cart: seq<CartItem>, product: Product)
    requires WellFormed(cart)
    ensures WellFormed(AddToCart(cart, product))
  {
    match FindItem(cart, product.id)
    case Some(k) =>
      AddToCartExisting(cart, product, k);
    case None =>
      var r := AddToCart(cart, product);
      assert forall i :: 0 <= i < |cart| ==> r[i] == cart[i];
  }

  // ---------------------------------------------------------------------
  // updateCartQuantity (Cafe.tsx:167-177)
  // ---------------------------------------------------------------------

  /** `prev.filter(item => item.productId !== productId)`. */
  function RemoveProduct(cart: seq<CartItem>, productId: int): (r: seq<CartItem>)
    ensures |r| <= |cart|
    ensures forall x :: x in r <==> x in cart && x.productId != productId
  {
    if cart == [] then []
    else if cart[0].productId == productId then RemoveProduct(cart[1..], productId)
    else [cart[0]] + RemoveProduct(cart[1..], productId)
  }

  /** `prev.map(...)`: every line for `productId` gets quantity `quantity`. */
  function SetQuantity(cart: seq<CartItem>, productId: int, quantity: int): (r: seq<CartItem>)
    ensures |r| == |cart|
    ensures forall i :: 0 <= i < |cart| && cart[i].productId != productId ==> r[i] == cart[i]
    ensures forall i :: 0 <= i < |cart| && cart[i].productId == productId ==>
      r[i] == cart[i].(quantity := quantity)
  {
    seq(|cart|, i requires 0 <= i < |cart| =>
      if cart[i].productId == productId then cart[i].(quantity := quantity) else cart[i])
  }

  function UpdateCartQuantity(cart: seq<CartItem>, productId: int, quantity: int): seq<CartItem> {
    if quantity <= 0 then RemoveProduct(cart, productId) else SetQuantity(cart, productId, quantity)
  }

  /** Removing a product the cart does not hold returns the cart as it was. */
  lemma {:induction false} RemoveAbsent(cart: seq<CartItem>, productId: int)
    requires forall i :: 0 <= i < |cart| ==> cart[i].productId != productId
    ensures RemoveProduct(cart, productId) == cart
  {
    if cart != [] {
      RemoveAbsent(cart[1..], productId);
    }
  }

  /** Filtering distributes over concatenation. */
  lemma {:induction false} RemoveAppend(a: seq<CartItem>, b: seq<CartItem>, productId: int)
    ensures RemoveProduct(a + b, productId) == RemoveProduct(a, productId) + RemoveProduct(b, productId)
  {
    if a != [] {
      assert (a + b)[0] == a[0];
      assert (a + b)[1..] == a[1..] + b;
      RemoveAppend(a[1..], b, productId);
    } else {
      assert a + b == b;
    }
  }

  /** Removing the one line of a product in a well-formed cart cuts exactly that line out. */
  lemma RemoveExisting(cart: seq<CartItem>, productId: int, k: nat)
    requires WellFormed(cart)
    requires k < |cart| && cart[k].productId == productId
    ensures RemoveProduct(cart, productId) == cart[..k] + cart[k + 1..]
  {
    var before, after := cart[..k], cart[k + 1..];
    assert cart == before + ([cart[k]] + after);
    forall i | 0 <= i < |before|
      ensures before[i].productId != productId
    {
      assert before[i] == cart[i];
    }
    forall i | 0 <= i < |after|
      ensures after[i].productId != productId
    {
      assert after[i] == cart[k + 1 + i];
    }
    RemoveAppend(before, [cart[k]] + after, productId);
    RemoveAppend([cart[k]], after, productId);
    RemoveAbsent(before, productId);
    RemoveAbsent(after, productId);
    assert RemoveProduct([cart[k]], productId) == [];
  }

  lemma UpdateToZeroRemoves(cart: seq<CartItem>, productId: int, quantity: int)
    requires WellFormed(cart) && quantity <= 0
    ensures FindItem(cart, productId).None? ==> UpdateCartQuantity(cart, productId, quantity) == cart
    ensures FindItem(cart, productId).Some? ==>
      var k := FindItem(cart, productId).value;
      UpdateCartQuantity(cart, productId, quantity) == cart[..k] + cart[k + 1..]
  {
    assert UpdateCartQuantity(cart, productId, quantity) == RemoveProduct(cart, productId);
    match FindItem(cart, productId)
    case None => RemoveAbsent(cart, productId);
    case Some(k) => RemoveExisting(cart, productId, k);
  }

  lemma UpdatePositiveSets(cart: seq<CartItem>, productId: int, quantity: int)
    requires WellFormed(cart) && quantity > 0
    ensures FindItem(cart, productId).None? ==> UpdateCartQuantity(cart, productId, quantity) == cart
    ensures FindItem(cart, productId).Some? ==>
      var k := FindItem(cart, productId).value;
      UpdateCartQuantity(cart, productId, quantity) == cart[k := cart[k].(quantity := quantity)]
  {
    var r := UpdateCartQuantity(cart, productId, quantity);
    match FindItem(cart, productId)
    case None =>
    case Some(k) =>
      forall i | 0 <= i < |cart| && i != k
        ensures r[i] == cart[i]
      {
        assert cart[i].productId != cart[k].productId by {
          if i < k {} else {}
        }
      }
  }

  /** Filtering keeps the relative order of the lines it keeps, so distinctness survives. */
  lemma {:induction false} RemoveWellFormed(cart: seq<CartItem>, productId: int)
    requires WellFormed(cart)
    ensures WellFormed(RemoveProduct(cart, productId))
  {
    if cart != [] {
      assert WellFormed(cart[1..]);
      RemoveWellFormed(cart[1..], productId);
      var rest := RemoveProduct(cart[1..], productId);
      if cart[0].productId != productId {
        ConsWellFormed(cart[0], rest, cart[1..]);
      }
    }
  }

  /** Putting a line in front of a well-formed part of a cart whose tail does not name it stays well-formed. */
  lemma ConsWellFormed(head: CartItem, rest: seq<CartItem>, tail: seq<CartItem>)
    requires WellFormed(rest) && head.quantity >= 1
    requires forall x :: x in rest ==> x in tail
    requires forall j :: 0 <= j < |tail| ==> tail[j].productId != head.productId
    ensures WellFormed([head] + rest)
  {
    var r := [head] + rest;
    forall i, j | 0 <= i < j < |r|
      ensures r[i].productId != r[j].productId
    {
      if i > 0 {
        assert r[i] == rest[i - 1] && r[j] == rest[j - 1];
      } else {
        assert r[j] in tail;
      }
    }
  }

  lemma UpdateWellFormed(cart: seq<CartItem>, productId: int, quantity: int)
    requires WellFormed(cart)
    ensures WellFormed(UpdateCartQuantity(cart, productId, quantity))
  {
    if quantity <= 0 {
      RemoveWellFormed(cart, productId);
    }
  }

  // ---------------------------------------------------------------------
  // getCartTotal (Cafe.tsx:179-184)
  // ---------------------------------------------------------------------

  /** What one line adds to the total: price times quantity, 0 for a product not in the catalogue. */
  function LineTotal(item: CartItem, products: seq<Product>): int {
    match FindProduct(products, item.productId)
    case Some(p) => p.price * item.quantity
    case None => 0
  }

  /** `cart.reduce((total, item) => total + line, 0)`, folding from the left. */
  function CartTotal(cart: seq<CartItem>, products: seq<Product>): int {
    if cart == [] then 0 else CartTotal(cart[..|cart| - 1], products) + LineTotal(cart[|cart| - 1], products)
  }

  /** Sum decomposition: the total of a concatenation is the sum of the totals. */
  lemma {:induction false} CartTotalAppend(a: seq<CartItem>, b: seq<CartItem>, products: seq<Product>)
    ensures CartTotal(a + b, products) == CartTotal(a, products) + CartTotal(b, products)
    decreases |b|
  {
    if b != [] {
      var last := b[|b| - 1];
      assert (a + b)[..|a + b| - 1] == a + b[..|b| - 1];
      CartTotalAppend(a, b[..|b| - 1], products);
    } else {
      assert a + b == a;
    }
  }

  /** Changing one line changes the total by the difference of that line's contributions. */
  lemma CartTotalReplace(cart: seq<CartItem>, k: nat, item: CartItem, products: seq<Product>)
    requires k < |cart|
    ensures CartTotal(cart[k := item], products)
      == CartTotal(cart, products) - LineTotal(cart[k], products) + LineTotal(item, products)
  {
    assert cart == cart[..k] + [cart[k]] + cart[k + 1..];
    assert cart[k := item] == cart[..k] + [item] + cart[k + 1..];
    CartTotalAppend(cart[..k] + [cart[k]], cart[k + 1..], products);
    CartTotalAppend(cart[..k], [cart[k]], products);
    CartTotalAppend(cart[..k] + [item], cart[k + 1..], products);
    CartTotalAppend(cart[..k], [item], products);
    assert CartTotal([item], products) == LineTotal(item, products);
    assert CartTotal([cart[k]], products) == LineTotal(cart[k], products);
  }

  /** The catalogue price of a product, 0 when the catalogue does not list it. */
  function PriceOf(products: seq<Product>, id: int): int {
    match FindProduct(products, id)
    case Some(p) => p.price
    case None => 0
  }

  /** One more unit on line `k` adds the product's catalogue price to the total. */
  lemma IncrementLineTotal(cart: seq<CartItem>, k: nat, products: seq<Product>)
    requires k < |cart|
    ensures CartTotal(cart[k := cart[k].(quantity := cart[k].quantity + 1)], products)
      == CartTotal(cart, products) + PriceOf(products, cart[k].productId)
  {
    var item := cart[k].(quantity := cart[k].quantity + 1);
    CartTotalReplace(cart, k, item, products);
    match FindProduct(products, cart[k].productId)
    case Some(p) =>
      assert p.price * (cart[k].quantity + 1) == p.price * cart[k].quantity + p.price;
    case None =>
  }

  /** Adding a product to a well-formed cart raises the total by that product's catalogue price. */
  lemma AddToCartTotal(cart: seq<CartItem>, product: Product, products: seq<Product>)
    requires WellFormed(cart)
    ensures CartTotal(AddToCart(cart, product), products) == CartTotal(cart, products) + PriceOf(products, product.id)
  {
    match FindItem(cart, product.id)
    case Some(k) =>
      AddToCartExisting(cart, product, k);
      IncrementLineTotal(cart, k, products);
    case None =>
      var line := CartItem(product.id, 1, product);
      AddToCartNew(cart, product);
      CartTotalAppend(cart, [line], products);
      assert CartTotal([line], products) == LineTotal(line, products);
  }

  /** Removing a product's line from a well-formed cart lowers the total by that line's contribution. */
  lemma RemoveTotal(cart: seq<CartItem>, productId: int, k: nat, products: seq<Product>)
    requires WellFormed(cart)
    requires k < |cart| && cart[k].productId == productId
    ensures CartTotal(RemoveProduct(cart, productId), products) == CartTotal(cart, products) - LineTotal(cart[k], products)
  {
    RemoveExisting(cart, productId, k);
    assert cart == cart[..k] + [cart[k]] + cart[k + 1..];
    CartTotalAppend(cart[..k] + [cart[k]], cart[k + 1..], products);
    CartTotalAppend(cart[..k], [cart[k]], products);
    CartTotalAppend(cart[..k], cart[k + 1..], products);
    assert CartTotal([cart[k]], products) == LineTotal(cart[k], products);
  }

  /** An empty cart totals 0, and with non-negative prices no well-formed cart totals less. */
  lemma {:induction false} CartTotalNonNegative(cart: seq<CartItem>, products: seq<Product>)
    requires WellFormed(cart)
    requires forall p :: p in products ==> p.price >= 0
    ensures CartTotal(cart, products) >= 0
    ensures cart == [] ==> CartTotal(cart, products) == 0
    decreases |cart|
  {
    if cart != [] {
      var init := cart[..|cart| - 1];
      assert WellFormed(init);
      CartTotalNonNegative(init, products);
      var item := cart[|cart| - 1];
      if FindProduct(products, item.productId).Some? {
        var p := FindProduct(products, item.productId).value;
        assert p.price * item.quantity >= 0;
      }
    }
  }

  // ---------------------------------------------------------------------
  // filteredProducts (Cafe.tsx:341-345)
  // ---------------------------------------------------------------------

  /**
   * The product-grid filter. `selectedCategory` is `number | null`; a falsy
   * selection (null, or category id 0) means "all categories".
   */
  predicate Matches(product: Product, searchTerm: string, selectedCategory: Option<int>) {
    && Text.Includes(Text.Lower(product.name), Text.Lower(searchTerm))
    && (selectedCategory.Some? && selectedCategory.value != 0 ==> product.categoryId == selectedCategory.value)
  }

  /** `r` is `s` with some elements dropped and the rest in their original order. */
  ghost predicate IsSubsequence<T>(r: seq<T>, s: seq<T>) {
    if r == [] then true
    else if s == [] then false
    else if r[0] == s[0] then IsSubsequence(r[1..], s[1..])
    else IsSubsequence(r, s[1..])
  }

  function FilteredProducts(products: seq<Product>, searchTerm: string, selectedCategory: Option<int>): (r: seq<Product>)
    ensures IsSubsequence(r, products)
    ensures forall p :: p in r ==> p in products && Matches(p, searchTerm, selectedCategory)
    ensures forall p :: p in products && Matches(p, searchTerm, selectedCategory) ==> p in r
    ensures forall p :: multiset(r)[p] == if Matches(p, searchTerm, selectedCategory) then multiset(products)[p] else 0
  {
    if products == [] then []
    else
      var rest := FilteredProducts(products[1..], searchTerm, selectedCategory);
      assert multiset(products) == multiset{products[0]} + multiset(products[1..]) by {
        assert products == [products[0]] + products[1..];
      }
      if Matches(products[0], searchTerm, selectedCategory) then [products[0]] + rest else rest
  }

  /** A kept product's lower-cased name contains the lower-cased search term, in the substring sense. */
  lemma FilteredMatchesSearch(products: seq<Product>, searchTerm: string, selectedCategory: Option<int>, p: Product)
    requires p in FilteredProducts(products, searchTerm, selectedCategory)
    ensures Text.IsSubstring(Text.Lower(searchTerm), Text.Lower(p.name))
    ensures selectedCategory.Some? && selectedCategory.value != 0 ==> p.categoryId == selectedCategory.value
  {
    Text.IncludesCorrect(Text.Lower(p.name), Text.Lower(searchTerm));
  }

  /**
   * The converse: a catalogue product whose lower-cased name contains the
   * lower-cased term, and whose category matches a truthy selection, is shown.
   */
  lemma SearchMatchIsShown(products: seq<Product>, searchTerm: string, selectedCategory: Option<int>, p: Product)
    requires p in products
    requires Text.IsSubstring(Text.Lower(searchTerm), Text.Lower(p.name))
    requires selectedCategory.Some? && selectedCategory.value != 0 ==> p.categoryId == selectedCategory.value
    ensures p in FilteredProducts(products, searchTerm, selectedCategory)
  {
    Text.IncludesCorrect(Text.Lower(p.name), Text.Lower(searchTerm));
  }

  /** With no search term and no category the grid shows the whole catalogue. */
  lemma {:induction false} FilterNothing(products: seq<Product>, selectedCategory: Option<int>)
    requires selectedCategory.None? || selectedCategory.value == 0
    ensures FilteredProducts(products, "", selectedCategory) == products
  {
    if products != [] {
      Text.IncludesEmpty(Text.Lower(products[0].name));
      assert Text.Lower("") == "";
      FilterNothing(products[1..], selectedCategory);
    }
  }

  // ---------------------------------------------------------------------
  // createOrder's guard and request body (Cafe.tsx:186-210)
  // ---------------------------------------------------------------------

  /** One entry of the `items` array posted to the order endpoint. */
  datatype OrderLine = OrderLine(productId: int, quantity: int)

  /** What `createOrder` does first: refuse an empty cart, or post the order. */
  datatype CreateOrderStep =
    | Refused(error: string)
    | Post(customerName: Option<string>, items: seq<OrderLine>)

  function CreateOrder(cart: seq<CartItem>, customerName: string): (r: CreateOrderStep)
    ensures r.Refused? <==> cart == []
    ensures r.Refused? ==> r.error == "Cart is empty"
    ensures r.Post? ==> |r.items| == |cart|
    ensures r.Post? ==> forall i :: 0 <= i < |cart| ==>
      r.items[i].productId == cart[i].productId && r.items[i].quantity == cart[i].quantity
    ensures r.Post? ==> (r.customerName.None? <==> customerName == "")
    ensures r.Post? && customerName != "" ==> r.customerName == Some(customerName)
  {
    if |cart| == 0 then Refused("Cart is empty")
    else Post(if customerName == "" then None else Some(customerName),
              seq(|cart|, i requires 0 <= i < |cart| => OrderLine(cart[i].productId, cart[i].quantity)))
  }

  /** A well-formed cart posts one positive line per distinct product. */
  lemma CreateOrderLinesDistinct(cart: seq<CartItem>, customerName: string)
    requires WellFormed(cart) && cart != []
    ensures CreateOrder(cart, customerName).Post?
    ensures var items := CreateOrder(cart, customerName).items;
      && (forall i, j :: 0 <= i < j < |items| ==> items[i].productId != items[j].productId)
      && (forall i :: 0 <= i < |items| ==> items[i].quantity >= 1)
  {
  }
}
