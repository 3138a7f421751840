/**
 * Runtime values of Lox and the few library operations on Java doubles that the
 * scanner and the interpreters call.
 */
module Values {

  /** A Java `double`, identified by the 64-bit pattern that `Double.equals`
      compares (`doubleToLongBits`, which folds every NaN into one pattern).
      No floating-point arithmetic is modelled on it. */
  datatype Double = Double(bits: bv64)

  /** A Lox runtime value: what a Java `Object` holds at run time in the
      interpreter (`null`, `Boolean`, `Double` or `String`). */
  datatype Value = Nil | Bool(b: bool) | Num(d: Double) | Str(s: string)

  /** The operations on doubles that the interpreters perform, left
      uninterpreted: unary minus, `+`, `/`, `*`, the four comparisons and
      `Double.toString`. There is no subtraction because the source never
      subtracts. */
  datatype Arith = Arith(
    neg: Double -> Double,
    add: (Double, Double) -> Double,
    div: (Double, Double) -> Double,
    mul: (Double, Double) -> Double,
    greater: (Double, Double) -> bool,
    greaterEqual: (Double, Double) -> bool,
    less: (Double, Double) -> bool,
    lessEqual: (Double, Double) -> bool,
    show: Double -> string)

  datatype Option<T> = None | Some(value: T)

  datatype Result<T, E> = Ok(value: T) | Err(error: E) {
    predicate IsFailure() { Err? }
    function PropagateFailure<U>(): Result<U, E> requires Err? { Err(error) }
    function Extract(): T requires Ok? { value }
  }

  /** A check that either passes or fails with an error. */
  datatype Outcome<E> = Pass | Fail(error: E) {
    predicate IsFailure() { Fail? }
    function PropagateFailure<U>(): Result<U, E> requires Fail? { Err(error) }
  }

  /** A diagnostic as `Lox.report` receives it: line, location text, message. */
  datatype Diagnostic = Diagnostic(line: int, where: string, message: string)

  function OptionToSeq<T>(o: Option<T>): seq<T>
  {
    match o
    case None => []
    case Some(x) => [x]
  }

  /** Proof helper: regrouping a concatenation of three outputs, used where
      a loop appends one step's output to what it has printed so far. */
  lemma Associative<T>(a: seq<T>, b: seq<T>, c: seq<T>)
    ensures (a + b) + c == a + (b + c)
  {
  }
}
