/**
 * `Order`: a committed sale. The six-argument constructor validates its
 * arguments in the order time, total price, total VAT, thank-you message and
 * throws `IllegalArgumentException` (or `NullPointerException` for the time)
 * at the first one that fails; the thank-you message is the only field with a
 * setter, and it is validated the same way.
 */
module Orders {
  import opened Wrappers
  import opened Text
  import opened Decimals
  import opened Rendering

  /** Which check of the constructor (or the setter) threw. */
  datatype OrderError = NullOrderTime | InvalidTotalPrice | InvalidTotalVat | InvalidThankYouMessage

  const DefaultThankYouMessage: string := "TACK FÖR DITT KÖP!"

  /** The six fields of an order, as a value. */
  datatype OrderState = OrderState(
    id: Int32,
    receiptNumber: Int32,
    orderTime: LocalDateTime,
    totalPrice: Option<Decimal>,
    totalVat: Option<Decimal>,
    thankYouMessage: string)

  /** A present, non-negative amount (zero included). */
  predicate NonNegative(d: Option<Decimal>) {
    d.Some? && Value(d.value) >= 0.0
  }

  /** A present message with at least one character above U+0020. */
  predicate Meaningful(message: Option<string>) {
    message.Some? && exists i :: 0 <= i < |message.value| && message.value[i] > ' '
  }

  /** `validatePrice`: rejects null and anything below zero. */
  function ValidatePrice(price: Option<Decimal>): (r: Result<Decimal, OrderError>)
    ensures r.Success? <==> NonNegative(price)
    ensures r.Success? ==> r.value == price.value
    ensures r.Failure? ==> r.error == InvalidTotalPrice
  {
    if price.None? || CompareTo(price.value, Zero) < 0 then Failure(InvalidTotalPrice) else Success(price.value)
  }

  /** `validateVat`: rejects null and anything below zero. */
  function ValidateVat(vat: Option<Decimal>): (r: Result<Decimal, OrderError>)
    ensures r.Success? <==> NonNegative(vat)
    ensures r.Success? ==> r.value == vat.value
    ensures r.Failure? ==> r.error == InvalidTotalVat
  {
    if vat.None? || CompareTo(vat.value, Zero) < 0 then Failure(InvalidTotalVat) else Success(vat.value)
  }

  /** `validateThankYouMessage`: rejects null and messages that `trim()` leaves empty. */
  function ValidateThankYouMessage(message: Option<string>): (r: Result<string, OrderError>)
    ensures r.Success? <==> Meaningful(message)
    ensures r.Success? ==> r.value == message.value
    ensures r.Failure? ==> r.error == InvalidThankYouMessage
  {
    match message
    case None => Failure(InvalidThankYouMessage)
    case Some(m) =>
      TrimEmpty(m);
      if Trim(m) == [] then Failure(InvalidThankYouMessage) else Success(m)
  }

  /**
   * What the six-argument constructor does: the first failing check, in the
   * order time, price, VAT, message, decides the error; otherwise every
   * argument is stored as given.
   */
  function Construct(id: Int32, receiptNumber: Int32, orderTime: Option<LocalDateTime>,
                     totalPrice: Option<Decimal>, totalVat: Option<Decimal>,
                     thankYouMessage: Option<string>): (r: Result<OrderState, OrderError>)
    ensures r == Failure(NullOrderTime) <==> orderTime.None?
    ensures r == Failure(InvalidTotalPrice) <==> orderTime.Some? && !NonNegative(totalPrice)
    ensures r == Failure(InvalidTotalVat) <==>
              orderTime.Some? && NonNegative(totalPrice) && !NonNegative(totalVat)
    ensures r == Failure(InvalidThankYouMessage) <==>
              orderTime.Some? && NonNegative(totalPrice) && NonNegative(totalVat) && !Meaningful(thankYouMessage)
    ensures r.Success? ==>
              r.value == OrderState(id, receiptNumber, orderTime.value, totalPrice, totalVat, thankYouMessage.value)
  {
    if orderTime.None? then Failure(NullOrderTime)
    else match ValidatePrice(totalPrice)
    case Failure(e) => Failure(e)
    case Success(_) =>
      match ValidateVat(totalVat)
      case Failure(e) => Failure(e)
      case Success(_) =>
        match ValidateThankYouMessage(thankYouMessage)
        case Failure(e) => Failure(e)
        case Success(m) => Success(OrderState(id, receiptNumber, orderTime.value, totalPrice, totalVat, m))
  }

  /** The default message passes the message check. */
  lemma DefaultMessageMeaningful()
    ensures Meaningful(Some(DefaultThankYouMessage))
  {
    assert DefaultThankYouMessage[0] == 'T';
  }

  /** The five-argument constructor can fail only on the time, price or VAT. */
  lemma DefaultMessageNeverRejected(id: Int32, receiptNumber: Int32, orderTime: Option<LocalDateTime>,
                                    totalPrice: Option<Decimal>, totalVat: Option<Decimal>)
    ensures Construct(id, receiptNumber, orderTime, totalPrice, totalVat, Some(DefaultThankYouMessage))
            != Failure(InvalidThankYouMessage)
  {
    DefaultMessageMeaningful();
  }

  /** Zero totals are accepted: only amounts below zero are rejected. */
  lemma ZeroTotalsAccepted(id: Int32, receiptNumber: Int32, orderTime: LocalDateTime)
    ensures Construct(id, receiptNumber, Some(orderTime), Some(Zero), Some(Zero), Some(DefaultThankYouMessage)).Success?
  {
    DefaultMessageMeaningful();
  }

  class Order {
    var id: Int32
    var receiptNumber: Int32
    var orderTime: LocalDateTime
    var totalPrice: Option<Decimal>
    var totalVat: Option<Decimal>
    var thankYouMessage: string

    function State(): OrderState
      reads this
    {
      OrderState(id, receiptNumber, orderTime, totalPrice, totalVat, thankYouMessage)
    }

    /** `new Order()`: the current time and the default message; id and receipt number 0, totals null. */
    constructor Now(now: LocalDateTime)
      ensures State() == OrderState(0, 0, now, None, None, DefaultThankYouMessage)
    {
      id, receiptNumber, orderTime := 0, 0, now;
      totalPrice, totalVat := None, None;
      thankYouMessage := DefaultThankYouMessage;
    }

    /** A run of the six-argument constructor that does not throw. */
    constructor (id: Int32, receiptNumber: Int32, orderTime: Option<LocalDateTime>,
                 totalPrice: Option<Decimal>, totalVat: Option<Decimal>, thankYouMessage: Option<string>)
      requires Construct(id, receiptNumber, orderTime, totalPrice, totalVat, thankYouMessage).Success?
      ensures State() == Construct(id, receiptNumber, orderTime, totalPrice, totalVat, thankYouMessage).value
    {
      this.id := id;
      this.receiptNumber := receiptNumber;
      this.orderTime := orderTime.value;
      this.totalPrice := totalPrice;
      this.totalVat := totalVat;
      this.thankYouMessage := thankYouMessage.value;
    }

    /** `new Order(id, receiptNumber, orderTime, totalPrice, totalVat, thankYouMessage)`, throwing or not. */
    static method Create(id: Int32, receiptNumber: Int32, orderTime: Option<LocalDateTime>,
                         totalPrice: Option<Decimal>, totalVat: Option<Decimal>, thankYouMessage: Option<string>)
      returns (r: Result<Order, OrderError>)
      ensures r.Failure? ==> Construct(id, receiptNumber, orderTime, totalPrice, totalVat, thankYouMessage) == Failure(r.error)
      ensures r.Success? ==> fresh(r.value)
      ensures r.Success? ==> Construct(id, receiptNumber, orderTime, totalPrice, totalVat, thankYouMessage) == Success(r.value.State())
    {
      var c := Construct(id, receiptNumber, orderTime, totalPrice, totalVat, thankYouMessage);
      if c.Failure? {
        r := Failure(c.error);
      } else {
        var o := new Order(id, receiptNumber, orderTime, totalPrice, totalVat, thankYouMessage);
        r := Success(o);
      }
    }

    /** `new Order(id, receiptNumber, orderTime, totalPrice, totalVat)`: the six-argument one with the default message. */
    static method CreateWithDefaultMessage(id: Int32, receiptNumber: Int32, orderTime: Option<LocalDateTime>,
                                           totalPrice: Option<Decimal>, totalVat: Option<Decimal>)
      returns (r: Result<Order, OrderError>)
      ensures r.Failure? ==>
                Construct(id, receiptNumber, orderTime, totalPrice, totalVat, Some(DefaultThankYouMessage)) == Failure(r.error)
      ensures r.Success? ==> fresh(r.value)
      ensures r.Success? ==>
                Construct(id, receiptNumber, orderTime, totalPrice, totalVat, Some(DefaultThankYouMessage))
                == Success(r.value.State())
    {
      r := Create(id, receiptNumber, orderTime, totalPrice, totalVat, Some(DefaultThankYouMessage));
    }

    /** `setThankYouMessage`: throws on a null or blank message, leaving the old one in place. */
    method SetThankYouMessage(message: Option<string>) returns (error: Option<OrderError>)
      modifies this`thankYouMessage
      ensures Meaningful(message) ==> error == None && State() == old(State()).(thankYouMessage := message.value)
      ensures !Meaningful(message) ==> error == Some(InvalidThankYouMessage) && State() == old(State())
    {
      var v := ValidateThankYouMessage(message);
      if v.Failure? {
        error := Some(v.error);
      } else {
        thankYouMessage := v.value;
        error := None;
      }
    }

    /** `equals`: the same object, or another `Order` whose six fields are all equal. */
    function Equals(other: Order?): (r: bool)
      reads this, other
      ensures r <==> other != null && State() == other.State()
    {
      if this == other then true
      else if other == null then false
      else id == other.id && receiptNumber == other.receiptNumber && orderTime == other.orderTime
           && totalPrice == other.totalPrice && totalVat == other.totalVat
           && thankYouMessage == other.thankYouMessage
    }
  }
}
