/**
 * The shopping cart page: the join of cart items with the catalogue and the
 * order total. The checkout page computes the same join and total.
 */
module CartPage {
  import opened Wrappers
  import opened Domain

  /** A cart item together with the catalogue product it refers to. */
  datatype CartLine = CartLine(item: CartItem, product: Product)

  /** `products.find(p => p.id === id)`: the first product with that id. */
  function FindProduct(products: seq<Product>, id: nat): (r: Option<Product>)
    ensures r.None? <==> forall k :: 0 <= k < |products| ==> products[k].id != id
    ensures r.Some? ==> exists k :: 0 <= k < |products| && products[k] == r.value && r.value.id == id &&
                                    forall j :: 0 <= j < k ==> products[j].id != id
  {
    if products == [] then None
    else if products[0].id == id then Some(products[0])
    else
      var r := FindProduct(products[1..], id);
      assert forall k :: 1 <= k < |products| ==> products[k] == products[1..][k - 1];
      r
  }

  /** Each item paired with its product; items whose product is missing are dropped. */
  function JoinLines(items: seq<CartItem>, products: seq<Product>): (r: seq<CartLine>)
    ensures |r| <= |items|
  {
    if items == [] then []
    else
      match FindProduct(products, items[0].productId)
      case None => JoinLines(items[1..], products)
      case Some(p) => [CartLine(items[0], p)] + JoinLines(items[1..], products)
  }

  /** The page's `cartItems`: nothing without a cart or without a catalogue. */
  function CartLines(cart: Option<Cart>, products: seq<Product>): (r: seq<CartLine>)
    ensures cart.None? || |products| == 0 ==> r == []
    ensures cart.Some? && |products| > 0 ==> r == JoinLines(cart.value.items, products)
  {
    if cart.None? || |products| == 0 then [] else JoinLines(cart.value.items, products)
  }

  /** One item's contribution to the join. */
  function LineFor(item: CartItem, products: seq<Product>): seq<CartLine> {
    match FindProduct(products, item.productId)
    case None => []
    case Some(p) => [CartLine(item, p)]
  }

  /** The join keeps cart order: it distributes over concatenation of the item list. */
  lemma {:induction false} JoinLinesAppend(a: seq<CartItem>, b: seq<CartItem>, products: seq<Product>)
    ensures JoinLines(a + b, products) == JoinLines(a, products) + JoinLines(b, products)
    decreases |a|
  {
    if a == [] {
      assert a + b == b;
    } else {
      assert (a + b)[0] == a[0];
      assert (a + b)[1..] == a[1..] + b;
      JoinLinesAppend(a[1..], b, products);
    }
  }

  /** A single item is kept, paired with the first product of its id, exactly when such a product exists. */
  lemma JoinLinesSingle(item: CartItem, products: seq<Product>)
    ensures JoinLines([item], products) == LineFor(item, products)
  {
    assert [item][1..] == [];
  }

  /** Every kept line pairs an item of the cart with the first catalogue product of that id, and every item with a product is kept. */
  lemma {:induction false} JoinLinesMembers(items: seq<CartItem>, products: seq<Product>)
    ensures forall line :: line in JoinLines(items, products) ==>
              line.item in items && FindProduct(products, line.item.productId) == Some(line.product)
    ensures forall item :: item in items && FindProduct(products, item.productId).Some? ==>
              CartLine(item, FindProduct(products, item.productId).value) in JoinLines(items, products)
    decreases |items|
  {
    if items != [] {
      JoinLinesMembers(items[1..], products);
      assert forall item :: item in items ==> item == items[0] || item in items[1..];
    }
  }

  /** `reduce((sum, item) => sum + price * quantity, 0)`, folded from the left. */
  function Total(lines: seq<CartLine>): (t: nat)
  {
    if lines == [] then 0
    else
      var last := lines[|lines| - 1];
      Total(lines[..|lines| - 1]) + last.product.price * last.item.quantity
  }

  /** The total of a concatenation is the sum of the totals. */
  lemma {:induction false} TotalAppend(a: seq<CartLine>, b: seq<CartLine>)
    ensures Total(a + b) == Total(a) + Total(b)
    decreases |b|
  {
    if b == [] {
      assert a + b == a;
    } else {
      var b' := b[..|b| - 1];
      assert (a + b)[..|a + b| - 1] == a + b';
      assert (a + b)[|a + b| - 1] == b[|b| - 1];
      TotalAppend(a, b');
    }
  }

  /** The total is the sum over the lines of price times quantity, and 0 for no lines. */
  lemma TotalOfLines(line: CartLine, rest: seq<CartLine>)
    ensures Total([]) == 0
    ensures Total([line]) == line.product.price * line.item.quantity
    ensures Total([line] + rest) == line.product.price * line.item.quantity + Total(rest)
  {
    assert [line][..0] == [];
    TotalAppend([line], rest);
  }

  /** The total is zero exactly when every line has a zero price or a zero quantity. */
  lemma {:induction false} TotalZero(lines: seq<CartLine>)
    ensures Total(lines) == 0 <==> forall i :: 0 <= i < |lines| ==> lines[i].product.price * lines[i].item.quantity == 0
    decreases |lines|
  {
    if lines != [] {
      var init := lines[..|lines| - 1];
      TotalZero(init);
      assert forall i :: 0 <= i < |init| ==> init[i] == lines[i];
    }
  }

  /** What the page shows. */
  datatype CartView = LoginRequired | Loading | Empty | Items(lines: seq<CartLine>, total: nat)

  /** An unauthenticated visitor sees the login prompt whatever the cart holds. */
  function View(authenticated: bool, loading: bool, cart: Option<Cart>, products: seq<Product>): (v: CartView)
    ensures !authenticated <==> v == LoginRequired
    ensures authenticated && loading <==> v == Loading
    ensures v == Empty <==> authenticated && !loading && CartLines(cart, products) == []
    ensures v.Items? ==> v.lines == CartLines(cart, products) && v.total == Total(v.lines) && |v.lines| > 0
  {
    if !authenticated then LoginRequired
    else if loading then Loading
    else
      var lines := CartLines(cart, products);
      if lines == [] then Empty else Items(lines, Total(lines))
  }
}
