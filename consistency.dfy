/**
 * Facts that tie separate parts of the system together: the two price
 * checks, and the receipt of an order whose items are booked from a cart
 * with the documented subtotal (price times quantity).
 */
module Consistency {
  import opened Wrappers
  import opened Decimals
  import opened Orders
  import opened OrderItems
  import opened Register
  import Validation
  import Receipts

  /** The order's `BigDecimal` price check and the helper's `double` price check accept the same amounts. */
  lemma PriceChecksAgree(d: Decimal)
    ensures Orders.ValidatePrice(Some(d)).Success? <==> Validation.ValidatePrice(Value(d)).valid
  {
  }

  /** The cart's own quantity rule (reject anything not above zero) is the helper's rule. */
  lemma QuantityChecksAgree(quantity: Text.Int32)
    ensures quantity > 0 <==> Validation.ValidateQuantity(quantity).valid
  {
  }

  /**
   * The order items a cart becomes when each is stored with the documented
   * subtotal, the price times the quantity (as `OrderDAO.addOrderItem` describes it).
   */
  function OrderItemsOf(orderId: Text.Int32, cart: seq<CartLine>): (items: seq<OrderItem>)
    ensures |items| == |cart|
    ensures forall i :: 0 <= i < |cart| ==>
              items[i] == OrderItem(orderId, cart[i].id, cart[i].stockQuantity, AmountOfLine(cart[i]))
  {
    if cart == [] then []
    else
      var last := cart[|cart| - 1];
      OrderItemsOf(orderId, cart[..|cart| - 1]) + [OrderItem(orderId, last.id, last.stockQuantity, AmountOfLine(last))]
  }

  /** Summing those subtotals, as their documentation suggests a total should, gives the cart's booked amount. */
  lemma {:induction false} SubtotalSumIsCartAmount(orderId: Text.Int32, cart: seq<CartLine>)
    ensures Receipts.DocumentedItemsTotal(OrderItemsOf(orderId, cart)) == Value(SumAmount(cart))
  {
    SubtotalSumIsAmountOf(orderId, cart);
    AmountMatchesLines(cart);
  }

  lemma {:induction false} SubtotalSumIsAmountOf(orderId: Text.Int32, cart: seq<CartLine>)
    ensures Receipts.DocumentedItemsTotal(OrderItemsOf(orderId, cart)) == AmountOf(cart)
  {
    if cart != [] {
      var items := OrderItemsOf(orderId, cart);
      SubtotalSumIsAmountOf(orderId, cart[..|cart| - 1]);
      assert items[..|items| - 1] == OrderItemsOf(orderId, cart[..|cart| - 1]);
    }
  }

  /**
   * The receipt multiplies each such subtotal by the quantity once more: for
   * two sample milks it shows 50.0 against a booked amount of 25.00.
   */
  lemma ReceiptTotalOverstatesCart()
    ensures var cart := [Snapshot(SampleMilk, 2)];
      && Receipts.ItemsTotal(OrderItemsOf(1, cart)) == 50.0
      && Value(SumAmount(cart)) == 25.0
  {
    var cart: seq<CartLine> := [Snapshot(SampleMilk, 2)];
    SampleMilkTotals();
    assert OrderItemsOf(1, cart) == [OrderItem(1, 0, 2, 25.0)] by {
      assert cart[..0] == [];
      assert Value(Decimal(1250, 2)) == 12.5 by {
        assert Pow10(2) == 100;
      }
    }
    assert [OrderItem(1, 0, 2, 25.0)][..0] == [];
  }
}
