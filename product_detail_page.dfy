/**
 * The product page: the quantity stepper clamped to the stock and to ten, and
 * the add-to-cart request, which needs a signed-in user.
 */
module ProductDetailPage {
  import opened Wrappers
  import opened Domain

  /** `Math.min(stock, 10)`: at most ten of one product per add. */
  function MaxQuantity(stock: nat): (m: nat)
    ensures m <= 10 && m <= stock
    ensures m == 10 || m == stock
  {
    if stock < 10 then stock else 10
  }

  /** The minus button: `Math.max(1, quantity - 1)`. */
  function Decremented(quantity: int): int {
    if quantity - 1 < 1 then 1 else quantity - 1
  }

  /** The plus button: `Math.min(maxQuantity, quantity + 1)`. */
  function Incremented(quantity: int, maxQuantity: nat): int {
    if quantity + 1 < maxQuantity then quantity + 1 else maxQuantity
  }

  predicate DecrementDisabled(quantity: int) {
    quantity <= 1
  }

  predicate IncrementDisabled(quantity: int, stock: nat) {
    quantity >= MaxQuantity(stock)
  }

  /** The stepper is rendered only for a product in stock. */
  predicate ShowsControls(stock: nat) {
    stock != 0
  }

  /**
   * While the stepper is shown and the quantity is in range, both buttons keep
   * it in `[1, maxQuantity]`.
   */
  lemma StepsStayInRange(quantity: int, stock: nat)
    requires ShowsControls(stock)
    requires 1 <= quantity <= MaxQuantity(stock)
    ensures 1 <= Decremented(quantity) <= MaxQuantity(stock)
    ensures 1 <= Incremented(quantity, MaxQuantity(stock)) <= MaxQuantity(stock)
  {
  }

  /**
   * A button is disabled exactly when pressing it would change nothing: the
   * minus button at 1, the plus button at the maximum.
   */
  lemma DisabledMeansNoChange(quantity: int, stock: nat)
    requires ShowsControls(stock)
    requires 1 <= quantity <= MaxQuantity(stock)
    ensures DecrementDisabled(quantity) <==> Decremented(quantity) == quantity
    ensures IncrementDisabled(quantity, stock) <==> Incremented(quantity, MaxQuantity(stock)) == quantity
  {
  }

  /** Below the maximum, minus undoes plus; above 1, plus undoes minus. */
  lemma StepsUndo(quantity: int, stock: nat)
    requires 1 <= quantity
    ensures quantity < MaxQuantity(stock) ==> Decremented(Incremented(quantity, MaxQuantity(stock))) == quantity
    ensures 1 < quantity <= MaxQuantity(stock) ==> Incremented(Decremented(quantity), MaxQuantity(stock)) == quantity
  {
  }

  /** `handleAddToCart`: without a signed-in user nothing is sent; otherwise the selected quantity of this product. */
  function AddToCartRequest(authenticated: bool, productId: nat, quantity: nat): (request: Option<CartItem>)
    ensures request.None? <==> !authenticated
    ensures request.Some? ==> request.value.productId == productId && request.value.quantity == quantity
  {
    if authenticated then Some(CartItem(productId, quantity)) else None
  }

  class QuantityStepper {
    var quantity: nat

    /** The quantity starts at 1. */
    constructor ()
      ensures quantity == 1
    {
      quantity := 1;
    }

    method Decrement()
      modifies this
      ensures quantity == Decremented(old(quantity))
    {
      quantity := if quantity - 1 < 1 then 1 else quantity - 1;
    }

    /** Only reachable while the stepper is shown, i.e. the stock is not zero. */
    method Increment(stock: nat)
      requires ShowsControls(stock)
      modifies this
      ensures quantity == Incremented(old(quantity), MaxQuantity(stock))
    {
      var maxQuantity := if stock < 10 then stock else 10;
      quantity := if quantity + 1 < maxQuantity then quantity + 1 else maxQuantity;
    }

    method AddToCart(authenticated: bool, productId: nat) returns (request: Option<CartItem>)
      ensures request == AddToCartRequest(authenticated, productId, quantity)
    {
      if !authenticated {
        return None;
      }
      request := Some(CartItem(productId, quantity));
    }
  }
}
