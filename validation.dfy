/**
 * `ValidationHelper`: three static checks that answer true or false and,
 * when they answer false, print one error line to the console. The console
 * output is returned with the answer.
 */
module Validation {
  import opened Text

  /** The answer of a check and the lines it printed. */
  datatype Verdict = Verdict(valid: bool, printed: seq<string>)

  const NegativePriceMessage: string := "Error: Price cannot be negative."
  const NonPositiveQuantityMessage: string := "Error: Quantity must be greater than zero."
  const MissingProductMessage: string := "Error: Product does not exist."

  /** A check that fails with `message` exactly when `fails` holds. */
  function Check(fails: bool, message: string): (v: Verdict)
    ensures v.valid <==> !fails
    ensures v.printed == if fails then [message] else []
  {
    if fails then Verdict(false, [message]) else Verdict(true, [])
  }

  /** `validatePrice`: a price is valid unless it is negative, so 0 passes. */
  function ValidatePrice(price: real): (v: Verdict)
    ensures v.valid <==> price >= 0.0
    ensures v.printed == if v.valid then [] else [NegativePriceMessage]
  {
    Check(price < 0.0, NegativePriceMessage)
  }

  /** `validateQuantity`: a quantity must be at least 1, so 0 fails. */
  function ValidateQuantity(quantity: Int32): (v: Verdict)
    ensures v.valid <==> quantity > 0
    ensures v.printed == if v.valid then [] else [NonPositiveQuantityMessage]
  {
    Check(quantity <= 0, NonPositiveQuantityMessage)
  }

  /** `validateProductExistence`: only positive ids count as existing; there is no lookup. */
  function ValidateProductExistence(productId: Int32): (v: Verdict)
    ensures v.valid <==> productId > 0
    ensures v.printed == if v.valid then [] else [MissingProductMessage]
  {
    Check(productId <= 0, MissingProductMessage)
  }

  /** A check prints at most one line, and prints exactly when it answers false. */
  lemma PrintsOnlyOnFailure(price: real, quantity: Int32, productId: Int32)
    ensures var vs := [ValidatePrice(price), ValidateQuantity(quantity), ValidateProductExistence(productId)];
      forall k :: 0 <= k < 3 ==> |vs[k].printed| <= 1 && (vs[k].printed == [] <==> vs[k].valid)
  {
  }

  /** The boundary values: a price of 0 passes, a quantity of 0 and a product id of 0 fail. */
  lemma Boundaries()
    ensures ValidatePrice(0.0).valid
    ensures !ValidateQuantity(0).valid && ValidateQuantity(1).valid
    ensures !ValidateProductExistence(0).valid && ValidateProductExistence(1).valid
  {
  }
}
