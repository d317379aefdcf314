/**
 * `PaymntService.processPayment`: dispatch on the lower-cased method name.
 * The three known methods print a line with the amount and answer true;
 * any other name throws, with the name as given in the message. The
 * console output is returned with the outcome.
 */
module Payment {
  import opened Wrappers
  import opened Text
  import opened Rendering

  /** `IllegalArgumentException("Unsupported payment method: " + paymentMethod)`. */
  datatype PaymentError = UnsupportedPaymentMethod(message: string)

  /** The outcome of a payment call and what it printed. */
  datatype Processed = Processed(result: Result<bool, PaymentError>, printed: seq<string>)

  const UnsupportedPrefix: string := "Unsupported payment method: "

  predicate Supported(paymentMethod: string) {
    ToLower(paymentMethod) in {"creditcard", "cash", "paypal"}
  }

  /** One of the three private handlers: print the amount, answer true. */
  function Handle(kind: string, amount: real, f: Formats): (p: Processed)
    ensures p.result == Success(true) && |p.printed| == 1
  {
    Processed(Success(true), ["Processing " + kind + " payment of: " + f.doubleText(amount)])
  }

  function ProcessPayment(amount: real, paymentMethod: string, f: Formats): (p: Processed)
    ensures p.result.Success? <==> Supported(paymentMethod)
    ensures p.result.Success? ==> p.result.value && |p.printed| == 1
    ensures p.result.Failure? ==>
              p.result.error == UnsupportedPaymentMethod(UnsupportedPrefix + paymentMethod) && p.printed == []
  {
    var key := ToLower(paymentMethod);
    if key == "creditcard" then Handle("credit card", amount, f)
    else if key == "cash" then Handle("cash", amount, f)
    else if key == "paypal" then Handle("PayPal", amount, f)
    else Processed(Failure(UnsupportedPaymentMethod(UnsupportedPrefix + paymentMethod)), [])
  }

  /**
   * Matching ignores case: a name and its lower-cased form are accepted
   * alike and print the same; only the error message keeps the original text.
   */
  lemma CaseInsensitive(amount: real, paymentMethod: string, f: Formats)
    ensures var p, q := ProcessPayment(amount, paymentMethod, f), ProcessPayment(amount, ToLower(paymentMethod), f);
      && (p.result.Success? <==> q.result.Success?)
      && (p.result.Success? ==> p == q)
  {
    ToLowerIdempotent(paymentMethod);
  }

  /** Whether a payment goes through never depends on the amount, and it never answers false. */
  lemma AmountIrrelevant(a: real, b: real, paymentMethod: string, f: Formats)
    ensures ProcessPayment(a, paymentMethod, f).result == ProcessPayment(b, paymentMethod, f).result
    ensures ProcessPayment(a, paymentMethod, f).result != Success(false)
  {
  }

  /** Mixed-case names of the three methods are accepted; an unknown one is not. */
  lemma Examples(amount: real, f: Formats)
    ensures ProcessPayment(amount, "CreditCard", f).result == Success(true)
    ensures ProcessPayment(amount, "CASH", f).result == Success(true)
    ensures ProcessPayment(amount, "PayPal", f).result == Success(true)
    ensures ProcessPayment(amount, "bitcoin", f).result.Failure?
  {
    assert ToLower("CreditCard") == "creditcard";
    assert ToLower("CASH") == "cash";
    assert ToLower("PayPal") == "paypal";
  }
}
