/** Exceptions the extension can raise, and the value-or-exception wrapper
    that every fallible step of the model returns. */
module Outcomes {

  /** The Python exceptions that can escape from the corner-rounding code.
      None of them is caught by the extension itself, so each one ends the
      whole run. */
  datatype PyError =
    | AbortExtension           // empty selection, raised on purpose
    | UnboundLocalError(shortLen: real)
                               // `skipped_small_count += 1` on a name that is
                               // not bound; shortLen is the too-short length
                               // itself, which the run records (as the minimum
                               // with the old record) before the raise
    | ZeroDivisionError
    | MathDomainError          // math.sqrt of a negative number: Python raises
                               // it as ValueError("math domain error"), kept
                               // apart here from int()'s ValueError
    | IndexError
    | ValueError               // int() of a string that is not a number
    | AttributeError           // getElementById found nothing

  datatype Result<+T> = Ok(value: T) | Raise(error: PyError)

  datatype Option<+T> = None | Some(value: T)

  function Min(a: real, b: real): (m: real)
    ensures m <= a && m <= b && (m == a || m == b)
  {
    if a < b then a else b
  }
}
