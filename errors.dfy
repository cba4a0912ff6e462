/**
 * The calculator's exception hierarchy (app/exceptions.py), together with the
 * Python built-in exception classes that reach or leave the calculator's code.
 * An exception is a kind (its class) and the message it was raised with; every
 * exception in the core is raised with a single message argument, so that
 * message is its `str(e)`.
 */
module Errors {
  import opened Wrappers

  datatype Kind =
    // the calculator's own family
    | CalculatorError | ValidationError | OperationError | ConfigurationError
    // Python built-ins and decimal.InvalidOperation
    | AttributeError | TypeError | KeyError | ValueError
    | ArithmeticError | OverflowError | ZeroDivisionError | InvalidOperation

  datatype Error = Error(kind: Kind, message: string)

  /** The direct base class of a kind; None for a class directly under Python's Exception. */
  function Parent(k: Kind): Option<Kind> {
    match k
    case ValidationError | OperationError | ConfigurationError => Some(CalculatorError)
    case OverflowError | ZeroDivisionError | InvalidOperation => Some(ArithmeticError)
    case _ => None
  }

  /**
   * `issubclass(k, base)`. Every parent is a root (its own Parent is None), so
   * the hierarchy has two levels and one step of Parent reaches every ancestor.
   */
  predicate IsA(k: Kind, base: Kind) {
    k == base || Parent(k) == Some(base)
  }

  /** Every parent is a root: one step of Parent is the whole ancestry. */
  lemma ParentsAreRoots(k: Kind)
    ensures Parent(k).Some? ==> Parent(Parent(k).value).None?
  {
  }

  /** The three classes declared as direct subclasses of CalculatorError. */
  predicate CalculatorLeaf(k: Kind) {
    k == ValidationError || k == OperationError || k == ConfigurationError
  }

  /** Every leaf of the family is a CalculatorError, and none is an instance of a sibling. */
  lemma {:induction false} LeavesAreSiblings(a: Kind, b: Kind)
    requires CalculatorLeaf(a) && CalculatorLeaf(b) && a != b
    ensures IsA(a, CalculatorError)
    ensures !IsA(a, b) && !IsA(b, a)
    ensures !IsA(CalculatorError, a)
  {
    assert IsA(CalculatorError, CalculatorError);
  }

  /** `except CalculatorError` catches exactly the root and its three leaves. */
  lemma {:induction false} CaughtAsCalculatorError(k: Kind)
    ensures IsA(k, CalculatorError) <==> k == CalculatorError || CalculatorLeaf(k)
  {
  }

  /** Subclassing is a partial order on the kinds. */
  lemma {:induction false} IsAIsPartialOrder(a: Kind, b: Kind, c: Kind)
    ensures IsA(a, a)
    ensures IsA(a, b) && IsA(b, c) ==> IsA(a, c)
    ensures IsA(a, b) && IsA(b, a) ==> a == b
  {
    if IsA(a, b) && a != b {
      ParentsAreRoots(a);
    }
  }
}
