/**
 * `OrderItem`: one product line of a stored order. It is immutable: the
 * datatype's constructor is the Java constructor (it validates nothing) and
 * its destructors are the four getters. The `double` subtotal is an exact real.
 */
module OrderItems {
  import opened Text

  datatype OrderItem = OrderItem(orderId: Int32, productId: Int32, quantity: Int32, subtotal: real)
}
