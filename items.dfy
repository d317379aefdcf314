/**
 * `Item`: a catalog entry. A mutable record with two constructors, getters
 * (the fields themselves here), a setter per field and `toString`. Nothing
 * is validated: negative prices or stock and null strings are stored as given.
 */
module Items {
  import opened Wrappers
  import opened Text
  import opened Decimals
  import opened Rendering

  /** The seven fields of an item, as a value. */
  datatype ItemState = ItemState(
    id: Int32,
    name: Option<string>,
    price: Option<Decimal>,
    vatRate: Option<Decimal>,
    category: Option<string>,
    stockQuantity: Int32,
    barcode: Option<string>)

  /** How string concatenation renders a possibly null `String`. */
  function NullText(s: Option<string>): string {
    match s
    case None => "null"
    case Some(t) => t
  }

  /** How string concatenation renders a possibly null `BigDecimal`. */
  function DecimalText(d: Option<Decimal>, f: Formats): string {
    match d
    case None => "null"
    case Some(x) => f.decimalText(x)
  }

  class Item {
    var id: Int32
    var name: Option<string>
    var price: Option<Decimal>
    var vatRate: Option<Decimal>
    var category: Option<string>
    var stockQuantity: Int32
    var barcode: Option<string>

    function State(): ItemState
      reads this
    {
      ItemState(id, name, price, vatRate, category, stockQuantity, barcode)
    }

    /** The constructor for an item that already has an id. */
    constructor (id: Int32, name: Option<string>, price: Option<Decimal>, vatRate: Option<Decimal>,
                 category: Option<string>, stockQuantity: Int32, barcode: Option<string>)
      ensures State() == ItemState(id, name, price, vatRate, category, stockQuantity, barcode)
    {
      this.id := id;
      this.name := name;
      this.price := price;
      this.vatRate := vatRate;
      this.category := category;
      this.stockQuantity := stockQuantity;
      this.barcode := barcode;
    }

    /** The constructor for a new item: `id` keeps Java's default 0. */
    constructor WithoutId(name: Option<string>, price: Option<Decimal>, vatRate: Option<Decimal>,
                          category: Option<string>, stockQuantity: Int32, barcode: Option<string>)
      ensures State() == ItemState(0, name, price, vatRate, category, stockQuantity, barcode)
    {
      this.id := 0;
      this.name := name;
      this.price := price;
      this.vatRate := vatRate;
      this.category := category;
      this.stockQuantity := stockQuantity;
      this.barcode := barcode;
    }

    /** `toString`: name, price, VAT rate and category in that order; id, stock and barcode are not shown. */
    function ToString(f: Formats): (s: string)
      reads this
      ensures var head := "Item[name=" + NullText(name) + ", price=";
              |s| > |head| && s[..|head|] == head && s[|s| - 1] == ']'
    {
      "Item[name=" + NullText(name) + ", price=" + DecimalText(price, f)
      + ", vatRate=" + DecimalText(vatRate, f) + ", category=" + NullText(category) + "]"
    }

    method SetId(id: Int32)
      modifies this`id
      ensures State() == old(State()).(id := id)
    {
      this.id := id;
    }

    method SetName(name: Option<string>)
      modifies this`name
      ensures State() == old(State()).(name := name)
    {
      this.name := name;
    }

    method SetPrice(price: Option<Decimal>)
      modifies this`price
      ensures State() == old(State()).(price := price)
    {
      this.price := price;
    }

    method SetVatRate(vatRate: Option<Decimal>)
      modifies this`vatRate
      ensures State() == old(State()).(vatRate := vatRate)
    {
      this.vatRate := vatRate;
    }

    method SetCategory(category: Option<string>)
      modifies this`category
      ensures State() == old(State()).(category := category)
    {
      this.category := category;
    }

    method SetStockQuantity(stockQuantity: Int32)
      modifies this`stockQuantity
      ensures State() == old(State()).(stockQuantity := stockQuantity)
    {
      this.stockQuantity := stockQuantity;
    }

    method SetBarcode(barcode: Option<string>)
      modifies this`barcode
      ensures State() == old(State()).(barcode := barcode)
    {
      this.barcode := barcode;
    }
  }

  /** Two items that agree on the four shown fields print the same, whatever their id, stock and barcode. */
  lemma ToStringIgnoresHiddenFields(a: Item, b: Item, f: Formats)
    requires a.name == b.name && a.price == b.price && a.vatRate == b.vatRate && a.category == b.category
    ensures a.ToString(f) == b.ToString(f)
  {
  }
}
