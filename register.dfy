/**
 * The cash register window (`CashRegisterGUI`) without its widgets: a cart of
 * item lines, the running amount and VAT, and the receipt text area. Adding a
 * product parses the quantity field, appends one line and adds to both
 * totals; checkout hands the totals to the order store and clears the cart
 * when the store reports an id. Dialogs become returned `Dialog` values.
 */
module Register {
  import opened Wrappers
  import opened Text
  import opened Decimals
  import opened Rendering
  import opened Items
  import Receipts

  /** A line the cart can hold: the price and VAT rate are set (a null one throws before or while the line is booked). */
  predicate Priced(line: ItemState) {
    line.price.Some? && line.vatRate.Some?
  }

  type CartLine = line: ItemState | Priced(line)
    witness ItemState(0, None, Some(Zero), Some(Zero), None, 0, None)

  /** `price.multiply(BigDecimal.valueOf(quantity))`; the quantity sits in the line's stock field. */
  function LineTotal(line: CartLine): Decimal {
    Multiply(line.price.value, FromInt(line.stockQuantity))
  }

  /** `itemTotal.multiply(vatRate)`: the rate is applied as stored, with no division by 100. */
  function LineVat(line: CartLine): Decimal {
    Multiply(LineTotal(line), line.vatRate.value)
  }

  /** `totalAmount` as the adds build it: `ZERO.add(t1).add(t2)...`, scale included. */
  function SumAmount(lines: seq<CartLine>): Decimal {
    if lines == [] then Zero else Add(SumAmount(lines[..|lines| - 1]), LineTotal(lines[|lines| - 1]))
  }

  /** `totalVat` as the adds build it. */
  function SumVat(lines: seq<CartLine>): Decimal {
    if lines == [] then Zero else Add(SumVat(lines[..|lines| - 1]), LineVat(lines[|lines| - 1]))
  }

  /** Σ price × quantity, as a plain number. */
  function AmountOf(lines: seq<CartLine>): real {
    if lines == [] then 0.0
    else AmountOf(lines[..|lines| - 1]) + AmountOfLine(lines[|lines| - 1])
  }

  function AmountOfLine(line: CartLine): real {
    Value(line.price.value) * line.stockQuantity as real
  }

  /** Σ price × quantity × rate, as a plain number. */
  function VatOf(lines: seq<CartLine>): real {
    if lines == [] then 0.0 else VatOf(lines[..|lines| - 1]) + VatOfLine(lines[|lines| - 1])
  }

  function VatOfLine(line: CartLine): real {
    Value(line.price.value) * line.stockQuantity as real * Value(line.vatRate.value)
  }

  /** A line's booked amounts are worth price × quantity and price × quantity × rate. */
  lemma LineValues(line: CartLine)
    ensures Value(LineTotal(line)) == AmountOfLine(line)
    ensures Value(LineVat(line)) == VatOfLine(line)
  {
    var t := LineTotal(line);
    assert Value(t) == AmountOfLine(line);
    MulRight(Value(t), AmountOfLine(line), Value(line.vatRate.value));
  }

  lemma MulRight(a: real, b: real, c: real)
    requires a == b
    ensures a * c == b * c
  {
  }

  /** The booked amount is worth exactly Σ price × quantity. */
  lemma {:induction false} AmountMatchesLines(lines: seq<CartLine>)
    ensures Value(SumAmount(lines)) == AmountOf(lines)
  {
    if lines != [] {
      AmountMatchesLines(lines[..|lines| - 1]);
      AddLine(SumAmount(lines[..|lines| - 1]), LineTotal(lines[|lines| - 1]));
      LineValues(lines[|lines| - 1]);
    }
  }

  /** The booked VAT is worth exactly Σ price × quantity × rate. */
  lemma {:induction false} VatMatchesLines(lines: seq<CartLine>)
    ensures Value(SumVat(lines)) == VatOf(lines)
  {
    if lines != [] {
      VatMatchesLines(lines[..|lines| - 1]);
      AddLine(SumVat(lines[..|lines| - 1]), LineVat(lines[|lines| - 1]));
      LineValues(lines[|lines| - 1]);
    }
  }

  lemma AddLine(done: Decimal, d: Decimal)
    ensures Value(Add(done, d)) == Value(done) + Value(d)
  {
  }

  /** The totals of a cart with one more line. */
  lemma SumsSnoc(lines: seq<CartLine>, line: CartLine)
    ensures SumAmount(lines + [line]) == Add(SumAmount(lines), LineTotal(line))
    ensures SumVat(lines + [line]) == Add(SumVat(lines), LineVat(line))
  {
    assert (lines + [line])[..|lines|] == lines;
  }

  const BannerLine: string := " STEFANS SUPERSHOP"
  const ShortRule: string := "---"

  /** `"%-20s %4d * %-8.2f = %-8.2f"` of the name, quantity, price and line total. */
  function CartLineText(line: CartLine, f: Formats): string {
    PadRight(NullText(line.name), 20) + " " + PadLeft(IntToString(line.stockQuantity), 4)
    + " * " + PadRight(f.fixed2(Value(line.price.value)), 8) + " = " + PadRight(f.fixed2(Value(LineTotal(line))), 8)
  }

  function CartLinesText(lines: seq<CartLine>, f: Formats): seq<string> {
    MapLines(lines, (line: CartLine) => CartLineText(line, f))
  }

  function SubtotalLine(amount: Decimal, f: Formats): string {
    "Subtotal: " + PadRight(f.fixed2(Value(amount)), 8)
  }

  function VatLine(vat: Decimal, f: Formats): string {
    "VAT: " + PadRight(f.fixed2(Value(vat)), 8)
  }

  function GrandTotalLine(amount: Decimal, vat: Decimal, f: Formats): string {
    "Total: " + PadRight(f.fixed2(Value(Add(amount, vat))), 8)
  }

  /** The five lines after the cart lines. */
  function CartFooter(amount: Decimal, vat: Decimal, f: Formats): seq<string> {
    [ShortRule, SubtotalLine(amount, f), VatLine(vat, f), GrandTotalLine(amount, vat, f), Receipts.ThanksLine]
  }

  /** The lines of the receipt area for a cart and the two booked totals. */
  function CartReceiptLines(lines: seq<CartLine>, amount: Decimal, vat: Decimal, f: Formats): seq<string> {
    [BannerLine, ShortRule] + CartLinesText(lines, f) + CartFooter(amount, vat, f)
  }

  function CartReceiptText(lines: seq<CartLine>, amount: Decimal, vat: Decimal, f: Formats): string {
    Unlines(CartReceiptLines(lines, amount, vat, f))
  }

  /**
   * The receipt area's layout: banner and rule, one line per cart line in
   * insertion order, then the footer; `|lines| + 7` lines.
   */
  lemma CartReceiptLayout(lines: seq<CartLine>, amount: Decimal, vat: Decimal, f: Formats)
    ensures var ls := CartReceiptLines(lines, amount, vat, f);
      && |ls| == |lines| + 7
      && ls[0] == BannerLine && ls[1] == ShortRule
      && (forall i :: 0 <= i < |lines| ==> ls[2 + i] == CartLineText(lines[i], f))
      && ls[|lines| + 2..] == CartFooter(amount, vat, f)
  {
    Framed([BannerLine, ShortRule], lines, (line: CartLine) => CartLineText(line, f), CartFooter(amount, vat, f));
  }

  lemma CartLinesAt(lines: seq<CartLine>, f: Formats)
    ensures |CartLinesText(lines, f)| == |lines|
    ensures forall i :: 0 <= i < |lines| ==> CartLinesText(lines, f)[i] == CartLineText(lines[i], f)
  {
    MapLinesAt(lines, (line: CartLine) => CartLineText(line, f));
  }

  /** The footer: a rule, the subtotal, the VAT, the total of amount plus VAT, and the thanks. */
  lemma CartFooterLines(amount: Decimal, vat: Decimal, f: Formats)
    ensures var ls := CartFooter(amount, vat, f);
      && |ls| == 5 && ls[0] == ShortRule
      && ls[1] == "Subtotal: " + PadRight(f.fixed2(Value(amount)), 8)
      && ls[2] == "VAT: " + PadRight(f.fixed2(Value(vat)), 8)
      && ls[3] == "Total: " + PadRight(f.fixed2(Value(amount) + Value(vat)), 8)
      && ls[4] == Receipts.ThanksLine
  {
  }

  lemma FooterAppended(body: seq<string>, footer: seq<string>)
    requires |footer| == 5
    ensures body + [footer[0]] + [footer[1]] + [footer[2]] + [footer[3]] + [footer[4]] == body + footer
  {
  }

  /** What the window shows and reports. */
  datatype Dialog = Info(message: string) | Error(message: string)

  const InvalidNumberMessage: string := "Invalid quantity. Please enter a valid number."
  const NonPositiveMessage: string := "Quantity must be greater than zero"
  const EmptyCartMessage: string := "Cart is empty. Add items before checkout."
  const OrderFailedMessage: string := "Error creating order"
  const OrderCreatedPrefix: string := "Order created successfully with ID: "

  /** The id the order store returns when it could not save the order. */
  const FailedOrderId: int := -1

  /** The line `addProductToCart` books for a product and a quantity. */
  function Snapshot(product: ItemState, quantity: Int32): ItemState {
    product.(stockQuantity := quantity)
  }

  /**
   * The order store's `createOrder` as the register sees it: it records each
   * request and answers with an id, or -1 when it could not save the order.
   * Which id it gives is left open: `answer` may depend on the totals and on
   * how many requests came before.
   */
  class OrderStore {
    const answer: (real, real, nat) -> Int32
    var requests: seq<(real, real)>

    constructor (answer: (real, real, nat) -> Int32)
      ensures this.answer == answer && requests == []
    {
      this.answer := answer;
      requests := [];
    }

    /** `createOrder(totalPrice, totalVat)`: one more request, answered by `answer`. */
    method CreateOrder(totalPrice: real, totalVat: real) returns (id: Int32)
      modifies this`requests
      ensures requests == old(requests) + [(totalPrice, totalVat)]
      ensures id == answer(totalPrice, totalVat, |old(requests)|)
    {
      id := answer(totalPrice, totalVat, |requests|);
      requests := requests + [(totalPrice, totalVat)];
    }
  }

  class CashRegister {
    /** The number renderers the text area's `String.format` calls use. */
    const formats: Formats
    var cartItems: seq<CartLine>
    var totalAmount: Decimal
    var totalVat: Decimal
    var receiptArea: string

    /**
     * The totals are the sums over the cart, and the text area shows the
     * receipt of the current state (or is still blank on a cart nothing was
     * ever added to).
     */
    predicate Valid()
      reads this
    {
      && totalAmount == SumAmount(cartItems)
      && totalVat == SumVat(cartItems)
      && (receiptArea == CartReceiptText(cartItems, totalAmount, totalVat, formats)
          || (receiptArea == "" && cartItems == []))
    }

    constructor (formats: Formats)
      ensures this.formats == formats
      ensures cartItems == [] && totalAmount == Zero && totalVat == Zero && receiptArea == ""
      ensures Valid()
    {
      this.formats := formats;
      cartItems := [];
      totalAmount := Zero;
      totalVat := Zero;
      receiptArea := "";
    }

    /** `generateReceipt`: clears the text area and writes the receipt of the current state. */
    method GenerateReceipt()
      modifies this`receiptArea
      ensures receiptArea == CartReceiptText(cartItems, totalAmount, totalVat, formats)
    {
      receiptArea := BannerLine + "\n";
      receiptArea := receiptArea + ShortRule + "\n";
      ghost var header := [BannerLine, ShortRule];
      assert receiptArea == Unlines(header + CartLinesText(cartItems[..0], formats)) by {
        assert cartItems[..0] == [];
        assert header + CartLinesText(cartItems[..0], formats) == [BannerLine] + [ShortRule];
        UnlinesSnoc([BannerLine], ShortRule);
      }
      var i := 0;
      while i < |cartItems|
        invariant 0 <= i <= |cartItems|
        invariant receiptArea == Unlines(header + CartLinesText(cartItems[..i], formats))
      {
        receiptArea := receiptArea + CartLineText(cartItems[i], formats) + "\n";
        UnlinesMapStep(header, cartItems, i, (line: CartLine) => CartLineText(line, formats));
        i := i + 1;
      }
      assert cartItems[..i] == cartItems;
      ghost var body := header + CartLinesText(cartItems, formats);
      ghost var shown := body;
      ghost var footer := CartFooter(totalAmount, totalVat, formats);
      receiptArea := receiptArea + ShortRule + "\n";
      UnlinesSnoc(shown, footer[0]);
      shown := shown + [footer[0]];
      receiptArea := receiptArea + SubtotalLine(totalAmount, formats) + "\n";
      UnlinesSnoc(shown, footer[1]);
      shown := shown + [footer[1]];
      receiptArea := receiptArea + VatLine(totalVat, formats) + "\n";
      UnlinesSnoc(shown, footer[2]);
      shown := shown + [footer[2]];
      receiptArea := receiptArea + GrandTotalLine(totalAmount, totalVat, formats) + "\n";
      UnlinesSnoc(shown, footer[3]);
      shown := shown + [footer[3]];
      receiptArea := receiptArea + Receipts.ThanksLine + "\n";
      UnlinesSnoc(shown, footer[4]);
      shown := shown + [footer[4]];
      FooterAppended(body, footer);
    }

    /**
     * `addProductToCart`: a quantity that does not parse, or is not
     * positive, shows an error and changes nothing; otherwise one line is
     * appended (the product with the quantity in its stock field), both
     * totals grow by that line's amounts and the receipt is redrawn.
     */
    method AddProductToCart(product: Item, quantityText: string) returns (dialog: Option<Dialog>)
      requires Valid()
      requires ParseInt(quantityText).Some? && ParseInt(quantityText).value > 0 ==> Priced(product.State())
      modifies this
      ensures Valid()
      ensures ParseInt(quantityText).None? ==>
                dialog == Some(Error(InvalidNumberMessage)) && unchanged(this)
      ensures ParseInt(quantityText).Some? && ParseInt(quantityText).value <= 0 ==>
                dialog == Some(Error(NonPositiveMessage)) && unchanged(this)
      ensures ParseInt(quantityText).Some? && ParseInt(quantityText).value > 0 ==>
                var line: CartLine := Snapshot(old(product.State()), ParseInt(quantityText).value);
                && dialog == None
                && cartItems == old(cartItems) + [line]
                && totalAmount == Add(old(totalAmount), LineTotal(line))
                && totalVat == Add(old(totalVat), LineVat(line))
                && receiptArea == CartReceiptText(cartItems, totalAmount, totalVat, formats)
    {
      var parsed := ParseInt(quantityText);
      if parsed.None? {
        return Some(Error(InvalidNumberMessage));
      }
      var quantity := parsed.value;
      if quantity <= 0 {
        return Some(Error(NonPositiveMessage));
      }
      var itemTotal := Multiply(product.price.value, FromInt(quantity));
      var line: CartLine := ItemState(product.id, product.name, product.price, product.vatRate,
                                      product.category, quantity, product.barcode);
      SumsSnoc(cartItems, line);
      cartItems := cartItems + [line];
      totalAmount := Add(totalAmount, itemTotal);
      totalVat := Add(totalVat, Multiply(itemTotal, product.vatRate.value));
      GenerateReceipt();
      dialog := None;
    }

    /** The success path of `checkout`: empty the cart, zero both totals, redraw the receipt. */
    method ClearCart()
      modifies this
      ensures Valid()
      ensures cartItems == [] && totalAmount == Zero && totalVat == Zero
      ensures receiptArea == CartReceiptText([], Zero, Zero, formats)
    {
      cartItems := [];
      totalAmount := Zero;
      totalVat := Zero;
      GenerateReceipt();
    }

    /**
     * `checkout`: an empty cart shows an error and never reaches the order
     * store. Otherwise the store is asked once, with the two totals as
     * numbers; any id but -1 empties the cart, zeroes both totals and
     * redraws the receipt, while -1 shows an error and keeps everything.
     */
    method Checkout(store: OrderStore) returns (dialog: Dialog)
      requires Valid()
      modifies this, store`requests
      ensures Valid()
      ensures old(cartItems) == [] ==>
                dialog == Error(EmptyCartMessage) && unchanged(this) && store.requests == old(store.requests)
      ensures old(cartItems) != [] ==>
                var request := (Value(old(totalAmount)), Value(old(totalVat)));
                var orderId := store.answer(request.0, request.1, |old(store.requests)|);
                && store.requests == old(store.requests) + [request]
                && (orderId != FailedOrderId ==>
                      && dialog == Info(OrderCreatedPrefix + IntToString(orderId))
                      && cartItems == [] && totalAmount == Zero && totalVat == Zero
                      && receiptArea == CartReceiptText(cartItems, totalAmount, totalVat, formats))
                && (orderId == FailedOrderId ==> dialog == Error(OrderFailedMessage) && unchanged(this))
    {
      if cartItems == [] {
        return Error(EmptyCartMessage);
      }
      var orderId := store.CreateOrder(Value(totalAmount), Value(totalVat));
      if orderId != FailedOrderId {
        dialog := Info(OrderCreatedPrefix + IntToString(orderId));
        ClearCart();
      } else {
        dialog := Error(OrderFailedMessage);
      }
    }
  }

  /** While the register is consistent its receipt depends on the cart alone. */
  lemma ReceiptFollowsCart(a: CashRegister, b: CashRegister)
    requires a.Valid() && b.Valid() && a.formats == b.formats && a.cartItems == b.cartItems
    requires a.receiptArea != "" && b.receiptArea != ""
    ensures a.receiptArea == b.receiptArea
  {
  }

  /** Adding the same product twice books two separate lines; nothing is merged. */
  lemma NoMerging(lines: seq<CartLine>, line: CartLine)
    ensures |lines + [line] + [line]| == |lines| + 2
    ensures SumAmount(lines + [line] + [line]) == Add(Add(SumAmount(lines), LineTotal(line)), LineTotal(line))
  {
    SumsSnoc(lines, line);
    SumsSnoc(lines + [line], line);
  }

  /** The first sample product: milk at 12.50, VAT rate 12.00, 50 in stock. */
  const SampleMilk: CartLine :=
    ItemState(0, Some("Milk"), Some(Decimal(1250, 2)), Some(Decimal(1200, 2)), Some("Dairy"), 50, Some("123456789012"))

  /**
   * Two of the sample milk: the amount is 25.00 and, since the rate is
   * applied as stored, the VAT is 300.0000 (twelve times the amount).
   */
  lemma SampleMilkTotals()
    ensures var line: CartLine := Snapshot(SampleMilk, 2);
      && SumAmount([line]) == Decimal(2500, 2) && Value(SumAmount([line])) == 25.0
      && SumVat([line]) == Decimal(3000000, 4) && Value(SumVat([line])) == 300.0
  {
    var line: CartLine := Snapshot(SampleMilk, 2);
    assert [line][..0] == [];
    assert LineTotal(line) == Decimal(2500, 2);
    assert LineVat(line) == Decimal(3000000, 4);
    assert Value(Decimal(2500, 2)) == 25.0 by {
      assert Pow10(2) == 100;
    }
    assert Value(Decimal(3000000, 4)) == 300.0 by {
      assert Pow10(4) == 10000;
    }
  }
}
