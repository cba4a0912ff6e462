/**
 * The parts of Python's runtime that the calculator calls but that this model
 * does not define: floating-point `pow`, `str` of a Decimal, `Decimal(str)`,
 * `int(str)`, and `datetime`'s isoformat / fromisoformat. They are gathered in
 * one `Runtime` value that every operation takes as a parameter, so that each
 * is an uninterpreted function; the predicate at the end states the facts
 * about them that the configuration's defaults rely on.
 */
module Platform {
  import opened Wrappers
  import opened Errors

  /** A `datetime.datetime`; the model never looks inside it. */
  datatype Instant = Instant(microseconds: int)

  /** The ways the float computations of Power and Root can fail. */
  datatype FloatFault =
    | Overflow             // OverflowError from pow
    | ZeroToNegativePower  // ZeroDivisionError from pow(0.0, 1/float(y)) for a negative root index y
    | ZeroFloatIndex       // ZeroDivisionError from 1/float(y) when a tiny index y becomes 0.0
    | ComplexResult        // pow returned a complex number, which Decimal() refuses

  datatype Runtime = Runtime(
    floatPower: (real, real) -> Result<real, FloatFault>,  // Decimal(pow(float(x), float(y)))
    floatRoot: (real, real) -> Result<real, FloatFault>,   // Decimal(pow(float(x), 1/float(y)))
    showDecimal: real -> string,                            // str(Decimal)
    parseDecimal: string -> Option<real>,                   // Decimal(s)
    showInstant: Instant -> string,                         // datetime.isoformat()
    parseInstant: string -> Option<Instant>,                // datetime.fromisoformat(s)
    parseInt: string -> Option<int>)                        // int(s)

  /** `repr` of a string without quote characters in it. */
  function Quoted(s: string): string {
    "'" + s + "'"
  }

  const ConversionSyntax := "[<class 'decimal.ConversionSyntax'>]"

  /** `Decimal(text)`, raising decimal.InvalidOperation on a malformed numeral. */
  function ParseDecimal(text: string, rt: Runtime): Result<real, Error> {
    match rt.parseDecimal(text)
    case Some(v) => Success(v)
    case None => Failure(Error(InvalidOperation, ConversionSyntax))
  }

  /** `int(text)`, raising ValueError on a malformed numeral. */
  function ParseInt(text: string, rt: Runtime): Result<int, Error> {
    match rt.parseInt(text)
    case Some(n) => Success(n)
    case None => Failure(Error(ValueError, "invalid literal for int() with base 10: " + Quoted(text)))
  }

  /** `datetime.fromisoformat(text)`, raising ValueError on a malformed timestamp. */
  function ParseInstant(text: string, rt: Runtime): Result<Instant, Error> {
    match rt.parseInstant(text)
    case Some(t) => Success(t)
    case None => Failure(Error(ValueError, "Invalid isoformat string: " + Quoted(text)))
  }

  /** The exception a float fault raises. */
  function FaultError(f: FloatFault): Error {
    match f
    case Overflow => Error(OverflowError, "(34, 'Numerical result out of range')")
    case ZeroToNegativePower => Error(ZeroDivisionError, "0.0 cannot be raised to a negative power")
    case ZeroFloatIndex => Error(ZeroDivisionError, "float division by zero")
    case ComplexResult => Error(TypeError, "conversion from complex to Decimal is not supported")
  }

  /** The parsers read the default literals of the configuration as Python does. */
  predicate ParsesDefaults(rt: Runtime) {
    && rt.parseInt("1000") == Some(1000)
    && rt.parseInt("10") == Some(10)
    && rt.parseDecimal("1e999").Some?
    && rt.parseDecimal("1e999").value > 0.0
  }
}
