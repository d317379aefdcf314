/**
 * The library conversions of numbers and times to text. Their digit-level
 * output is not modelled: renderers pass them in, and the receipts are
 * proved correct for every choice of them.
 */
module Rendering {
  import opened Decimals

  /** A `java.time.LocalDateTime` instant; only its identity matters here. */
  datatype LocalDateTime = LocalDateTime(ticks: int)

  datatype Formats = Formats(
    /** The digits `"%.2f"` prints for a number (half-up to two places). */
    fixed2: real -> string,
    /** `Double.toString`, used when a `double` is concatenated to a string. */
    doubleText: real -> string,
    /** `BigDecimal.toString`, used when a `BigDecimal` is concatenated to a string. */
    decimalText: Decimal -> string,
    /** `LocalDateTime.toString`. */
    timeText: LocalDateTime -> string
  )
}
