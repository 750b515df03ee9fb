/**
 * The checkout page: the same cart join and total as the cart page, the
 * order-placed flag, the payment-method choice and the UPI payment link.
 */
module CheckoutPage {
  import opened Wrappers
  import opened Domain
  import Text
  import CartPage

  datatype PaymentMethod = PayOnOrder | Upi

  /** What the page shows; a placed order wins over an empty cart. */
  datatype CheckoutView = Placed | EmptyCart | Form(lines: seq<CartPage.CartLine>, total: nat, payment: PaymentMethod)

  const UpiId := "aureliegolddiamondsjewellery@paytm"
  const PayeeName := "Aurelie Gold & Diamonds"
  const TransactionNote := "Payment for Order - Aurelie Gold & Diamonds"

  /**
   * The payment link. `encode` stands for `encodeURIComponent`; the amount is
   * the decimal rendering of the total and is not encoded.
   */
  function UpiUrl(total: nat, encode: string -> string): string {
    "upi://pay?pa=" + encode(UpiId) + "&pn=" + encode(PayeeName) + "&am=" + Text.NatToString(total) +
    "&cu=INR&tn=" + encode(TransactionNote)
  }

  /** The link's query fields, in order, as separated by `&`. */
  function UpiFields(total: nat, encode: string -> string): seq<string> {
    ["upi://pay?pa=" + encode(UpiId), "pn=" + encode(PayeeName), "am=" + Text.NatToString(total),
     "cu=INR", "tn=" + encode(TransactionNote)]
  }

  /** The link is its five fields joined with `&`. */
  lemma UpiUrlJoin(total: nat, encode: string -> string)
    ensures UpiUrl(total, encode) == Text.Join(UpiFields(total, encode), "&")
  {
    var f := UpiFields(total, encode);
    var x := f[0] + "&pn=" + encode(PayeeName);
    assert Text.Join(f[..2], "&") == x by {
      Text.JoinSnoc([f[0]], f[1], "&");
      assert [f[0]] + [f[1]] == f[..2];
      assert f[0] + "&" + ("pn=" + encode(PayeeName)) == x;
    }
    var y := x + "&am=" + Text.NatToString(total);
    assert Text.Join(f[..3], "&") == y by {
      Text.JoinSnoc(f[..2], f[2], "&");
      assert f[..2] + [f[2]] == f[..3];
      assert x + "&" + ("am=" + Text.NatToString(total)) == y;
    }
    assert Text.Join(f, "&") == UpiUrl(total, encode) by {
      Text.JoinSnoc(f[..3], f[3], "&");
      assert f[..3] + [f[3]] == f[..4];
      Text.JoinSnoc(f[..4], f[4], "&");
      assert f[..4] + [f[4]] == f;
      assert y + "&" + "cu=INR" + "&" + ("tn=" + encode(TransactionNote)) == y + "&cu=INR&tn=" + encode(TransactionNote);
    }
  }

  /**
   * Since percent-encoding never produces `&`, splitting the link at `&` gives
   * back its five fields, and the amount field reads back as the total.
   */
  lemma UpiUrlFields(total: nat, encode: string -> string)
    requires forall s :: '&' !in encode(s)
    ensures Text.Split(UpiUrl(total, encode), '&') == UpiFields(total, encode)
    ensures var am := Text.Split(UpiUrl(total, encode), '&')[2];
            |am| > 3 && am[..3] == "am=" && Text.DecimalValue(am[3..]) == total
  {
    var f := UpiFields(total, encode);
    var pa := "upi://pay?pa=";
    assert '&' !in pa by { assert forall i :: 0 <= i < |pa| ==> pa[i] != '&'; }
    assert '&' !in encode(UpiId);
    Text.NatToStringPlain(total);
    forall k | 0 <= k < |f|
      ensures '&' !in f[k]
    {
    }
    UpiUrlJoin(total, encode);
    Text.SplitJoin(f, '&');
    Text.NatToStringValue(total);
    assert f[2][3..] == Text.NatToString(total);
  }

  class Checkout {
    var orderPlaced: bool
    var paymentMethod: PaymentMethod

    /** The page opens with no order placed and pay-on-order selected. */
    constructor ()
      ensures !orderPlaced && paymentMethod == PayOnOrder
    {
      orderPlaced := false;
      paymentMethod := PayOnOrder;
    }

    method SelectPayment(m: PaymentMethod)
      modifies this
      ensures paymentMethod == m && orderPlaced == old(orderPlaced)
    {
      paymentMethod := m;
    }

    /** `handlePlaceOrder`: the flag is set only when the backend call succeeds. */
    method PlaceOrder(succeeded: bool)
      modifies this
      ensures orderPlaced == (old(orderPlaced) || succeeded)
      ensures paymentMethod == old(paymentMethod)
    {
      if succeeded {
        orderPlaced := true;
      }
    }

    function View(cart: Option<Cart>, products: seq<Product>): (v: CheckoutView)
      reads this
      ensures orderPlaced <==> v == Placed
      ensures v == EmptyCart <==> !orderPlaced && CartPage.CartLines(cart, products) == []
      ensures v.Form? ==> v.lines == CartPage.CartLines(cart, products) && v.total == CartPage.Total(v.lines) &&
                          v.payment == paymentMethod
    {
      if orderPlaced then Placed
      else
        var lines := CartPage.CartLines(cart, products);
        if lines == [] then EmptyCart else Form(lines, CartPage.Total(lines), paymentMethod)
    }
  }
}
