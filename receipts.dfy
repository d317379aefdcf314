/**
 * `ReceiptService.generateReceipt`: renders an order and its items as text.
 * A four-line header, one line per item in list order, a separator, the total
 * (recomputed from the items, never read from the order) and the closing line.
 */
module Receipts {
  import opened Text
  import opened Rendering
  import opened Orders
  import opened OrderItems

  const ShopLine: string := Spaces(21) + "STEFANS SUPERSHOP"
  const RuleLine: string := Repeat('-', 52)
  const ThanksLine: string := "TACK FÖR DITT KÖP"
  /** The receipt prints this instead of the product's name. */
  const ProductPlaceholder: string := "Product Name"

  /** The receipt number and the order time, on one line. */
  function HeadingLine(order: OrderState, f: Formats): string {
    "Kvittonummer: " + IntToString(order.receiptNumber) + "        Datum: " + f.timeText(order.orderTime)
  }

  function HeaderLines(order: OrderState, f: Formats): seq<string> {
    [ShopLine, RuleLine, HeadingLine(order, f), RuleLine]
  }

  /** `item.getQuantity() * item.getSubtotal()`. */
  function ItemTotal(item: OrderItem): real {
    item.quantity as real * item.subtotal
  }

  /** `"%-25s %-3d *  %-10.2f =  %-10.2f"` of the placeholder, quantity, subtotal and item total. */
  function ItemLine(item: OrderItem, f: Formats): string {
    PadRight(ProductPlaceholder, 25) + " " + PadRight(IntToString(item.quantity), 3)
    + " *  " + PadRight(f.fixed2(item.subtotal), 10) + " =  " + PadRight(f.fixed2(ItemTotal(item)), 10)
  }

  /** One line per item, in list order. */
  function ItemLines(items: seq<OrderItem>, f: Formats): seq<string> {
    MapLines(items, (item: OrderItem) => ItemLine(item, f))
  }

  /** The running `total`: the sum of quantity times subtotal. */
  function ItemsTotal(items: seq<OrderItem>): real {
    if items == [] then 0.0 else ItemsTotal(items[..|items| - 1]) + ItemTotal(items[|items| - 1])
  }

  /**
   * The sum of the subtotals: the order's total when each subtotal is, as
   * documented, price times quantity already.
   */
  function DocumentedItemsTotal(items: seq<OrderItem>): real {
    if items == [] then 0.0 else DocumentedItemsTotal(items[..|items| - 1]) + items[|items| - 1].subtotal
  }

  /**
   * Two units at 12.50 have the documented subtotal 25.0, yet the receipt's
   * line total and total multiply it by the quantity again and print 50.0.
   */
  lemma SubtotalCountedTwice()
    ensures ItemTotal(OrderItem(1, 1, 2, 25.0)) == 50.0
    ensures ItemsTotal([OrderItem(1, 1, 2, 25.0)]) == 50.0
    ensures DocumentedItemsTotal([OrderItem(1, 1, 2, 25.0)]) == 25.0
  {
    assert [OrderItem(1, 1, 2, 25.0)][..0] == [];
  }

  function TotalLine(total: real, f: Formats): string {
    "Total:" + Spaces(39) + f.doubleText(total)
  }

  function ReceiptLines(order: OrderState, items: seq<OrderItem>, f: Formats): seq<string> {
    HeaderLines(order, f) + ItemLines(items, f) + [RuleLine, TotalLine(ItemsTotal(items), f), ThanksLine]
  }

  /** The receipt text: every line followed by '\n'. */
  function ReceiptText(order: OrderState, items: seq<OrderItem>, f: Formats): string {
    Unlines(ReceiptLines(order, items, f))
  }

  /** The `StringBuilder` loop of the source. */
  method GenerateReceipt(order: Order, orderItems: seq<OrderItem>, f: Formats) returns (receipt: string)
    ensures receipt == ReceiptText(order.State(), orderItems, f)
  {
    var heading := HeadingLine(order.State(), f);
    receipt := ShopLine + "\n";
    receipt := receipt + RuleLine + "\n";
    receipt := receipt + heading + "\n";
    receipt := receipt + RuleLine + "\n";
    ghost var header := HeaderLines(order.State(), f);
    assert receipt == Unlines(header + ItemLines(orderItems[..0], f)) by {
      HeaderText(order.State(), f);
      assert orderItems[..0] == [];
      assert header + ItemLines(orderItems[..0], f) == header;
    }
    var total := 0.0;
    var i := 0;
    while i < |orderItems|
      invariant 0 <= i <= |orderItems|
      invariant receipt == Unlines(header + ItemLines(orderItems[..i], f))
      invariant total == ItemsTotal(orderItems[..i])
    {
      var item := orderItems[i];
      var itemTotal := ItemTotal(item);
      total := total + itemTotal;
      ItemsTotalPrefix(orderItems, i);
      receipt := receipt + ItemLine(item, f) + "\n";
      UnlinesMapStep(header, orderItems, i, (item: OrderItem) => ItemLine(item, f));
      i := i + 1;
    }
    assert orderItems[..i] == orderItems;
    receipt := receipt + RuleLine + "\n";
    receipt := receipt + TotalLine(total, f) + "\n";
    receipt := receipt + ThanksLine + "\n";
    UnlinesFooter(header + ItemLines(orderItems, f), RuleLine, TotalLine(total, f), ThanksLine);
  }

  lemma HeaderText(order: OrderState, f: Formats)
    ensures Unlines(HeaderLines(order, f)) ==
            ShopLine + "\n" + RuleLine + "\n" + HeadingLine(order, f) + "\n" + RuleLine + "\n"
  {
    UnlinesFooter([ShopLine], RuleLine, HeadingLine(order, f), RuleLine);
    assert [ShopLine] + [RuleLine, HeadingLine(order, f), RuleLine] == HeaderLines(order, f);
  }

  lemma UnlinesFooter(ls: seq<string>, a: string, b: string, c: string)
    ensures Unlines(ls + [a, b, c]) == Unlines(ls) + a + "\n" + b + "\n" + c + "\n"
  {
    UnlinesSnoc(ls, a);
    UnlinesSnoc(ls + [a], b);
    UnlinesSnoc(ls + [a] + [b], c);
    assert ls + [a] + [b] + [c] == ls + [a, b, c];
  }

  /**
   * The layout: the header, then exactly one line per item in list order,
   * then a separator, the recomputed total and the closing line, so
   * `|items| + 7` lines in all.
   */
  lemma ReceiptLayout(order: OrderState, items: seq<OrderItem>, f: Formats)
    ensures var ls := ReceiptLines(order, items, f);
      && |ls| == |items| + 7
      && ls[..4] == HeaderLines(order, f)
      && (forall i :: 0 <= i < |items| ==> ls[4 + i] == ItemLine(items[i], f))
      && ls[|items| + 4] == RuleLine
      && ls[|items| + 5] == TotalLine(ItemsTotal(items), f)
      && ls[|items| + 6] == ThanksLine
  {
    MapLinesAt(items, (item: OrderItem) => ItemLine(item, f));
  }

  /** An empty item list totals 0. */
  lemma EmptyReceiptTotal(order: OrderState, f: Formats)
    ensures ReceiptLines(order, [], f)[5] == TotalLine(0.0, f)
  {
  }

  lemma ItemsTotalPrefix(items: seq<OrderItem>, k: nat)
    requires k < |items|
    ensures ItemsTotal(items[..k + 1]) == ItemsTotal(items[..k]) + ItemTotal(items[k])
  {
    assert items[..k + 1][..k] == items[..k];
  }

  /** The total of a concatenation is the sum of the totals. */
  lemma {:induction false} ItemsTotalConcat(a: seq<OrderItem>, b: seq<OrderItem>)
    ensures ItemsTotal(a + b) == ItemsTotal(a) + ItemsTotal(b)
    decreases |b|
  {
    if b != [] {
      assert (a + b)[..|a + b| - 1] == a + b[..|b| - 1];
      assert (a + b)[|a + b| - 1] == b[|b| - 1];
      assert ItemsTotal(a + b) == ItemsTotal(a + b[..|b| - 1]) + ItemTotal(b[|b| - 1]);
      ItemsTotalConcat(a, b[..|b| - 1]);
    } else {
      assert a + b == a;
    }
  }

  /** The receipt reads only the receipt number and time of the order, never its totals or message. */
  lemma ReceiptIgnoresOrderTotals(o1: OrderState, o2: OrderState, items: seq<OrderItem>, f: Formats)
    requires o1.receiptNumber == o2.receiptNumber && o1.orderTime == o2.orderTime
    ensures ReceiptText(o1, items, f) == ReceiptText(o2, items, f)
  {
  }

  /** The pieces the library renderers produce for one receipt contain no line break. */
  predicate RenderedWithoutBreaks(order: OrderState, items: seq<OrderItem>, f: Formats) {
    && NoNewline(f.timeText(order.orderTime))
    && NoNewline(f.doubleText(ItemsTotal(items)))
    && forall i :: 0 <= i < |items| ==> NoNewline(f.fixed2(items[i].subtotal)) && NoNewline(f.fixed2(ItemTotal(items[i])))
  }

  lemma IntToStringNoNewline(n: int)
    ensures NoNewline(IntToString(n))
  {
    var m: nat := if n < 0 then -n else n;
    assert NoNewline(NatToString(m));
  }

  lemma ItemLineNoNewline(item: OrderItem, f: Formats)
    requires NoNewline(f.fixed2(item.subtotal)) && NoNewline(f.fixed2(ItemTotal(item)))
    ensures NoNewline(ItemLine(item, f))
  {
    IntToStringNoNewline(item.quantity);
  }

  lemma HeaderNoNewline(order: OrderState, f: Formats)
    requires NoNewline(f.timeText(order.orderTime))
    ensures forall k :: 0 <= k < 4 ==> NoNewline(HeaderLines(order, f)[k])
  {
    IntToStringNoNewline(order.receiptNumber);
  }

  /**
   * Split at '\n', the receipt text gives back exactly its `|items| + 7`
   * lines and ends with the closing line.
   */
  lemma ReceiptTextLines(order: OrderState, items: seq<OrderItem>, f: Formats)
    requires RenderedWithoutBreaks(order, items, f)
    ensures Lines(ReceiptText(order, items, f)) == ReceiptLines(order, items, f)
    ensures |Lines(ReceiptText(order, items, f))| == |items| + 7
    ensures Lines(ReceiptText(order, items, f))[|items| + 6] == ThanksLine
  {
    var ls := ReceiptLines(order, items, f);
    ReceiptLayout(order, items, f);
    HeaderNoNewline(order, f);
    forall k | 0 <= k < |ls| ensures NoNewline(ls[k]) {
      if k < 4 {
        assert ls[k] == HeaderLines(order, f)[k];
      } else if k < 4 + |items| {
        ItemLineNoNewline(items[k - 4], f);
      }
    }
    LinesUnlines(ls);
  }
}
