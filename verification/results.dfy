/** Outcomes of the commission engine and of the exchange-rate service.

    The PHP code signals failure with exceptions; here every operation that can
    throw returns a `Result` instead, and the exception kind becomes an `Error`.
 */
module Results {

  /** The exceptions the core can raise. */
  datatype Error =
    /** `InvalidArgumentException`: no rule for this operation / user type. */
    | InvalidOperation
    /** `RuntimeException`: no cache entry, provider rate or fallback rate. */
    | RateUnavailable(currency: string)
    /** PHP 8 `DivisionByZeroError`: a rate of zero reached `amount / rate`. */
    | DivisionByZero

  datatype Result<+T> = Ok(value: T) | Err(error: Error)
}
