# Stefans Supershop point of sale, modelled in Dafny

This project models the logic of a small Swedish point-of-sale system:

- **The cash register window.** The module `Register` models it as class `CashRegister`:
  - a cart of item lines;
  - the running amount and VAT, kept as `BigDecimal`s;
  - the receipt text area.

  Adding a product reads the quantity field. If the quantity is valid, it appends one line, adds to both totals and redraws the receipt. Checkout sends the two totals to the order store. It clears the cart only when the store returns an order id other than -1.
- **The order receipt renderer** (`Receipts`). It builds the receipt from an order and its stored order items, in the `StringBuilder` loop of `ReceiptService.generateReceipt`.
- **The entities:**
  - `Item` (`Items`), a mutable record;
  - `Order` (`Orders`), whose constructor validates the order time, the totals and the thank-you message;
  - `OrderItem` (`OrderItems`), an immutable record.
- **The helper checks** `ValidationHelper` (`Validation`) and the payment dispatch `PaymntService.processPayment` (`Payment`).

Supporting modules:

- `Wrappers` holds `Option` (a Java `null`) and `Result` (a thrown exception).
- `Decimals` models `BigDecimal` as an unscaled integer and a scale, so `add` and `multiply` are exact and keep Java's scales.
- `Text` holds Java `int`, `Integer.toString` and `Integer.parseInt`, the `String.format` field widths, `trim`, ASCII lower-casing and line splitting.
- `Rendering` holds the number and time renderers the code calls from the Java library.
- `Consistency` relates the separate parts.

The model follows the code as written:

- **Lines are never merged.** Adding the same product twice books two lines.
- **Amounts are never rounded.** The totals are exact sums with the scales `BigDecimal` gives them.
- **The VAT rate is applied as stored.** VAT is the line amount times the rate, with no division by 100. The sample milk at 12.50 with rate 12.00 books a VAT of 300.0000 on an amount of 25.00 (`Register.SampleMilkTotals`).
- **Checkout writes no order items and has no compensation path.** It makes one call to the order store; on -1 it only shows an error.
- **The receipt renderer reads only the order's receipt number and time.** It recomputes the total from the items as Σ quantity × subtotal.

  `OrderItem` and `OrderDAO.addOrderItem` document the subtotal as price × quantity already. If order items were stored that way, the receipt would count the quantity twice: two milks would print 50.0 where the cart booked 25.00 (`Consistency.ReceiptTotalOverstatesCart`). The sum of the subtotals alone gives the booked amount (`Consistency.SubtotalSumIsCartAmount`).

  Nothing in the modelled system stores order items, so the model keeps the receipt's formula and states both sides.

## Model

| member | source | states |
|---|---|---|
| Text.ParseIntToString | src/main/java/UserInterface/ui/CashRegisterGUI.java:91 | parsing the decimal text of any `int` gives that `int` back, so every quantity a user can type as `Integer.toString` prints it is read exactly |
| Text.ParseIntRejects | src/main/java/UserInterface/ui/CashRegisterGUI.java:91 | the empty text, a lone sign, and any text with a character that is neither a digit nor a sign all fail to parse, as `NumberFormatException` |
| Text.PadRight | src/main/java/UserInterface/ui/CashRegisterGUI.java:115-116 | a left-justified field: the text first, then spaces up to the width, and the text is never cut |
| Text.PadLeft | src/main/java/UserInterface/ui/CashRegisterGUI.java:115-116 | a right-justified `%4d` field: spaces first, the text at the end, and the text is never cut |
| Text.TrimEmpty | src/main/java/se/systementor/model/Order.java:77 | `trim()` leaves nothing exactly when every character is at most U+0020 |
| Decimals.FromInt | src/main/java/UserInterface/ui/CashRegisterGUI.java:96 | `BigDecimal.valueOf(quantity)` has scale 0 and the quantity's value |
| Decimals.Add | src/main/java/UserInterface/ui/CashRegisterGUI.java:98-99 | `add` is exact and takes the larger of the two scales |
| Decimals.Multiply | src/main/java/UserInterface/ui/CashRegisterGUI.java:96-99 | `multiply` is exact and adds the two scales |
| Decimals.CompareTo | src/main/java/se/systementor/model/Order.java:63 | `compareTo` answers -1, 0 or 1 by numeric value, whatever the scales |
| Decimals.NegativeIff | src/main/java/se/systementor/model/Order.java:63 | `compareTo(ZERO) < 0` holds exactly when the unscaled value is negative |
| Items.Item.constructor | src/main/java/se/systementor/model/Item.java:33-41 | every argument is stored in its field, with no check and no failure |
| Items.Item.WithoutId | src/main/java/se/systementor/model/Item.java:53-60 | the six arguments are stored and `id` keeps its default 0 |
| Items.Item.ToString | src/main/java/se/systementor/model/Item.java:67-70 | the text starts with `Item[name=`, the name (or `null`) and `, price=`, and ends with `]` |
| Items.ToStringIgnoresHiddenFields | src/main/java/se/systementor/model/Item.java:67-70 | items that agree on name, price, VAT rate and category print alike, whatever their id, stock and barcode |
| Items.Item.SetId | src/main/java/se/systementor/model/Item.java:128 | only `id` changes, to the new value |
| Items.Item.SetName | src/main/java/se/systementor/model/Item.java:135 | only `name` changes, to the new value |
| Items.Item.SetPrice | src/main/java/se/systementor/model/Item.java:142 | only `price` changes, to the new value |
| Items.Item.SetVatRate | src/main/java/se/systementor/model/Item.java:149 | only `vatRate` changes, to the new value |
| Items.Item.SetCategory | src/main/java/se/systementor/model/Item.java:156 | only `category` changes, to the new value |
| Items.Item.SetStockQuantity | src/main/java/se/systementor/model/Item.java:163 | only `stockQuantity` changes, to the new value |
| Items.Item.SetBarcode | src/main/java/se/systementor/model/Item.java:170 | only `barcode` changes, to the new value |
| Orders.ValidatePrice | src/main/java/se/systementor/model/Order.java:62-67 | accepts exactly a present, non-negative price (zero included) and returns it; otherwise the price error |
| Orders.ValidateVat | src/main/java/se/systementor/model/Order.java:69-74 | accepts exactly a present, non-negative VAT and returns it; otherwise the VAT error |
| Orders.ValidateThankYouMessage | src/main/java/se/systementor/model/Order.java:76-81 | accepts exactly a present message with a character above U+0020 and returns it unchanged; otherwise the message error |
| Orders.Construct | src/main/java/se/systementor/model/Order.java:52-59 | each error happens exactly when its check is the first to fail, in the order time, price, VAT, message; on success the order holds the arguments as given |
| Orders.DefaultMessageMeaningful | src/main/java/se/systementor/model/Order.java:39 | the default "TACK FÖR DITT KÖP!" passes the message check |
| Orders.DefaultMessageNeverRejected | src/main/java/se/systementor/model/Order.java:38-40 | the five-argument constructor never fails on the message |
| Orders.ZeroTotalsAccepted | src/main/java/se/systementor/model/Order.java:62-74 | totals of zero are accepted; only amounts below zero are rejected |
| Orders.Order.Now | src/main/java/se/systementor/model/Order.java:24-27 | the no-argument order has the given current time, the default message, ids 0 and null totals |
| Orders.Order.constructor | src/main/java/se/systementor/model/Order.java:52-59 | when the checks pass, the fields (read by the getters) are the validated arguments |
| Orders.Order.Create | src/main/java/se/systementor/model/Order.java:52-59 | the six-argument constructor either throws the error `Construct` gives or yields a fresh order whose fields are its result |
| Orders.Order.CreateWithDefaultMessage | src/main/java/se/systementor/model/Order.java:38-40 | the five-argument constructor is the six-argument one with the default message |
| Orders.Order.SetThankYouMessage | src/main/java/se/systementor/model/Order.java:92-94 | a meaningful message replaces the old one and nothing else changes; a null or blank one throws and changes nothing |
| Orders.Order.Equals | src/main/java/se/systementor/model/Order.java:110-120 | `equals` holds exactly for a non-null order whose six fields all equal this one's (`BigDecimal` equality tells scales apart) |
| Receipts.GenerateReceipt | src/main/java/se/systementor/Services/ReceiptService.java:26-49 | the `StringBuilder` loop builds exactly the receipt text of the order and its items |
| Receipts.HeaderText | src/main/java/se/systementor/Services/ReceiptService.java:29-32 | the text starts with the shop line, a rule, the receipt number and time line, and a rule |
| Receipts.ReceiptLayout | src/main/java/se/systementor/Services/ReceiptService.java:29-46 | `items + 7` lines: the four header lines, one `Product Name` line per item in list order, a rule, the recomputed total, the thanks |
| Receipts.EmptyReceiptTotal | src/main/java/se/systementor/Services/ReceiptService.java:34 | an empty item list prints a total of 0 |
| Receipts.ItemsTotalConcat | src/main/java/se/systementor/Services/ReceiptService.java:34-40 | the receipt total of a concatenation of item lists is the sum of their totals |
| Receipts.ReceiptIgnoresOrderTotals | src/main/java/se/systementor/Services/ReceiptService.java:29-46 | two orders with the same receipt number and time give the same receipt, whatever their totals and message |
| Receipts.ReceiptTextLines | src/main/java/se/systementor/Services/ReceiptService.java:44-46 | split at line breaks, the text gives back its `items + 7` lines, and the last one is "TACK FÖR DITT KÖP" |
| Receipts.SubtotalCountedTwice | src/main/java/se/systementor/Services/ReceiptService.java:39 | one order item of quantity 2 and subtotal 25.0 prints a line total and a total of 50.0, while the sum of subtotals is 25.0 |
| Register.LineValues | src/main/java/UserInterface/ui/CashRegisterGUI.java:96-99 | a line books price × quantity and price × quantity × rate |
| Register.AmountMatchesLines | src/main/java/UserInterface/ui/CashRegisterGUI.java:96-98 | the amount kept up by the adds is worth Σ price × quantity over the cart |
| Register.VatMatchesLines | src/main/java/UserInterface/ui/CashRegisterGUI.java:96-99 | the VAT kept up by the adds is worth Σ price × quantity × rate over the cart |
| Register.SumsSnoc | src/main/java/UserInterface/ui/CashRegisterGUI.java:97-99 | one more cart line adds its amount and its VAT to the two sums |
| Register.NoMerging | src/main/java/UserInterface/ui/CashRegisterGUI.java:97 | a cart holding the same line twice keeps two lines, and its amount counts the line twice (the append itself is stated by `AddProductToCart`: `cartItems == old(cartItems) + [line]`) |
| Register.SampleMilkTotals | src/main/java/se/systementor/Main.java:44 | two sample milks book the amount 25.00 and the VAT 300.0000, the rate 12.00 being applied as stored |
| Register.CartReceiptLayout | src/main/java/UserInterface/ui/CashRegisterGUI.java:109-123 | the receipt area is built from `cart + 7` appended lines: banner, rule, one line per cart line in insertion order, then the footer |
| Register.CartLinesAt | src/main/java/UserInterface/ui/CashRegisterGUI.java:113-117 | one formatted line per cart line, in cart order |
| Register.CartFooterLines | src/main/java/UserInterface/ui/CashRegisterGUI.java:119-123 | the footer is a rule, the subtotal, the VAT, the total showing amount + VAT, and the thanks |
| Register.CashRegister.constructor | src/main/java/UserInterface/ui/CashRegisterGUI.java:22-25 | the cart starts empty, both totals start at zero, and the receipt area is blank |
| Register.CashRegister.GenerateReceipt | src/main/java/UserInterface/ui/CashRegisterGUI.java:108-124 | the text area is rewritten from nothing into the receipt of the current cart and totals, and nothing else changes |
| Register.CashRegister.AddProductToCart | src/main/java/UserInterface/ui/CashRegisterGUI.java:89-106 | a quantity that does not parse, or is not positive, shows its error and changes nothing; otherwise exactly one line (the product with the quantity in its stock field) is appended, both totals grow by that line's amounts, and the receipt is redrawn; the totals stay the sums over the cart |
| Register.CashRegister.ClearCart | src/main/java/UserInterface/ui/CashRegisterGUI.java:135-138 | the cart becomes empty, both totals become zero, and the receipt shows the empty cart |
| Register.OrderStore.constructor | src/main/java/se/systementor/Services/OrderDAO.java:34-54 | a store starts with no recorded requests and answers by the given rule |
| Register.OrderStore.CreateOrder | src/main/java/se/systementor/Services/OrderDAO.java:34-54 | each call records exactly one request with the two totals it was given, and returns the id the store's rule gives for that request |
| Register.CashRegister.Checkout | src/main/java/UserInterface/ui/CashRegisterGUI.java:126-142 | an empty cart shows an error, leaves the store's request log as it was and changes nothing; otherwise the log grows by exactly one request holding the two current totals; an id other than -1 reports the id and empties the cart with zero totals, while -1 shows an error and changes nothing |
| Register.ReceiptFollowsCart | src/main/java/UserInterface/ui/CashRegisterGUI.java:108-124 | once drawn, the receipt area depends only on the cart |
| Validation.ValidatePrice | src/main/java/se/systementor/Services/ValidationHelper.java:16-22 | true exactly when the price is at least 0; prints its error line exactly when false |
| Validation.ValidateQuantity | src/main/java/se/systementor/Services/ValidationHelper.java:30-36 | true exactly when the quantity is above 0; prints its error line exactly when false |
| Validation.ValidateProductExistence | src/main/java/se/systementor/Services/ValidationHelper.java:45-53 | true exactly when the id is above 0; prints its error line exactly when false |
| Validation.PrintsOnlyOnFailure | src/main/java/se/systementor/Services/ValidationHelper.java:16-53 | each check prints at most one line, and prints exactly when it answers false |
| Validation.Boundaries | src/main/java/se/systementor/Services/ValidationHelper.java:16-53 | price 0 passes; quantity 0 and product id 0 fail, and 1 passes |
| Payment.Handle | src/main/java/se/systementor/Services/PaymntService.java:45-49 | a handler prints one line and answers true |
| Payment.ProcessPayment | src/main/java/se/systementor/Services/PaymntService.java:24-35 | succeeds exactly for "creditcard", "cash" and "paypal" in any case, then answers true and prints one line; any other name throws with the name as given and prints nothing |
| Text.ToLowerIdempotent | src/main/java/se/systementor/Services/PaymntService.java:25 | lower-casing an already lower-cased name changes nothing (ASCII letters only) |
| Payment.CaseInsensitive | src/main/java/se/systementor/Services/PaymntService.java:25 | a name and its lower-cased form are accepted alike and, when accepted, behave identically |
| Payment.AmountIrrelevant | src/main/java/se/systementor/Services/PaymntService.java:24-35 | the outcome never depends on the amount, and it is never false |
| Payment.Examples | src/main/java/se/systementor/Services/PaymntService.java:26-33 | "CreditCard", "CASH" and "PayPal" are accepted; "bitcoin" is not |
| Consistency.PriceChecksAgree | src/main/java/se/systementor/Services/ValidationHelper.java:16-22 | the order's `BigDecimal` price check and the helper's price check accept the same amounts |
| Consistency.QuantityChecksAgree | src/main/java/UserInterface/ui/CashRegisterGUI.java:92-94 | the cart's quantity rule is the helper's quantity rule |
| Consistency.OrderItemsOf | src/main/java/se/systementor/Services/OrderDAO.java:65-67 | the conversion the documented subtotal implies (no code in the system performs it): item `i` carries the order id, line `i`'s product id and quantity, and price × quantity as its subtotal |
| Consistency.SubtotalSumIsCartAmount | src/main/java/se/systementor/model/OrderItem.java:61 | the sum of those subtotals is the amount the cart booked |
| Consistency.ReceiptTotalOverstatesCart | src/main/java/se/systementor/Services/ReceiptService.java:39-40 | for two sample milks the order receipt prints 50.0, while the cart booked 25.00 |

`OrderItem` is the datatype `OrderItems.OrderItem`. Its constructor accepts any values. Its four destructors are the getters, and a datatype has no setters. The items' and orders' getters are the class fields, read through `State()`.

## Left out

- The Swing user interface is not modelled: the frame, panels, buttons, `initializeUI`, `addProductButtons`, `run`, `main`. `showStatistics` only shows a fixed dialog and is left out.
  - The quantity field's text is a parameter of `AddProductToCart`.
  - A dialog is a returned `Dialog` value.
- The database layer is not modelled: `Database`, `OrderDAO`, `ProductDAO`. `createOrder` is `Register.OrderStore.CreateOrder`. It records every request it receives, and its answer (an id, or -1) is a rule the store is built with, so any behaviour of the database is covered.
- `Main`, `LoggerHelper`, `Exceptions` and `StatiskExport` (start-up, logging, empty exception classes, XML export) are not part of this model.
- Floating point: every `double` is an exact real. This covers `doubleValue()` at checkout, the order-item subtotal, the receipt total, the helper's price check and the payment amount. Binary rounding is not modelled.
- Number rendering:
  - The digits of `"%.2f"`, `Double.toString`, `BigDecimal.toString` and `LocalDateTime.toString` come from the library. They are fields of `Rendering.Formats`, a parameter, so every property holds for any renderer.
  - Proofs about line breaks assume the rendered numbers contain none.
  - Integer rendering and the field widths are written out.
  - Field widths count Unicode code points, whereas Java's `Formatter` counts UTF-16 units. A name with a character outside the Basic Multilingual Plane, such as an emoji, gets one padding space more in the model than in Java.
- `LocalDateTime.now()` is the parameter of `Orders.Order.Now`. A time has only its identity.
- `toLowerCase` and `trim` cover ASCII case and characters up to U+0020. Locale-specific case rules are not modelled. Lower-casing is stated only through `Text.ToLowerIdempotent` and `Payment.CaseInsensitive`.
- Payment.ProcessPayment: a null payment method, on which `toLowerCase` throws `NullPointerException`, is not modelled; a Dafny `string` is never null.
- Negative `BigDecimal` scales (such as `1E+3`) are not modelled. `Decimals.Decimal` has a non-negative scale. An item's constructor and `setPrice` accept any `BigDecimal`, so such a price is possible. From non-negative scales, the code's own `valueOf`, `add` and `multiply` never produce a negative one.
- Register.CartReceiptLayout: counts the appended lines, not the line breaks in the text area. A product name containing a line break adds lines to the text.
- `Integer.parseInt` accepts an optional sign and ASCII digits only. Java also accepts non-ASCII digits.
- Register.CashRegister.AddProductToCart: requires the product to have a price and a VAT rate whenever the quantity is valid.
  - With a null price, the source throws `NullPointerException`, which escapes the handler.
  - With a null VAT rate, the source has already appended the line and added to the amount when it throws, leaving the cart half updated.

  Neither path is modelled.
- Receipts.GenerateReceipt: null arguments are not modelled. An order is always present and items are never null.
- `Order.toString` and `Order.hashCode` are not modelled, and neither are the order's failed-constructor message texts; an error is told apart by its `OrderError` value.
- Orders.Order.constructor: requires the checks to pass. The throwing run of the constructor is `Orders.Order.Create`, which returns the error.
- Reference identity: a cart line is a value (`ItemState`). The source builds a new private `Item` for each line, and nothing else can reach it, so aliasing cannot arise.
