/**
 * One evaluated calculation (app/calculatorOperations.py): the record of an
 * operation name, two Decimal operands, the result computed once when the record
 * is built, and a timestamp; its dispatch table with domain guards, its
 * structural equality, its string form and its dictionary (de)serialisation.
 * Decimals are modelled as reals.
 */
module Calculations {
  import opened Wrappers
  import opened Errors
  import opened Platform

  /** The six keys of the dispatch table. */
  datatype Op = Addition | Subtraction | Multiplication | Division | Power | Root

  /** The exact key under which an operation is stored. */
  function Name(op: Op): string {
    match op
    case Addition => "Addition"
    case Subtraction => "Subtraction"
    case Multiplication => "Multiplication"
    case Division => "Division"
    case Power => "Power"
    case Root => "Root"
  }

  const OperationNames: set<string> :=
    {"Addition", "Subtraction", "Multiplication", "Division", "Power", "Root"}

  /** `operations.get(name)`: exact, case-sensitive lookup in the dispatch table. */
  function Lookup(name: string): (r: Option<Op>)
    ensures r.Some? <==> name in OperationNames
    ensures r.Some? ==> Name(r.value) == name
    ensures forall op :: Name(op) == name ==> r == Some(op)
  {
    if name == "Addition" then Some(Addition)
    else if name == "Subtraction" then Some(Subtraction)
    else if name == "Multiplication" then Some(Multiplication)
    else if name == "Division" then Some(Division)
    else if name == "Power" then Some(Power)
    else if name == "Root" then Some(Root)
    else None
  }

  const DivZeroMessage := "Division by zero is not allowed"
  const NegPowerMessage := "Negative exponents are not supported"
  const ZeroRootMessage := "Zero root is undefined"
  const NegRootMessage := "Cannot calculate root of negative number"
  const InvalidRootMessage := "Invalid root operation"

  /**
   * `_raise_div_zero`: a CalculatorError that `calculate` does not catch, so it
   * reaches the caller with its own message.
   */
  function DivZeroError(): (e: Error)
    ensures IsA(e.kind, CalculatorError) && !CaughtByCalculate(e.kind)
    ensures e.message == DivZeroMessage
  {
    Error(OperationError, DivZeroMessage)
  }

  /** `_raise_neg_power`: likewise not caught by `calculate`. */
  function NegPowerError(): (e: Error)
    ensures IsA(e.kind, CalculatorError) && !CaughtByCalculate(e.kind)
    ensures e.message == NegPowerMessage
  {
    Error(OperationError, NegPowerMessage)
  }

  /**
   * `_raise_invalid_root`: not caught by `calculate`; a zero index is reported
   * whatever the radicand, and a negative radicand only for a non-zero index.
   */
  function InvalidRootError(x: real, y: real): (e: Error)
    ensures IsA(e.kind, CalculatorError) && !CaughtByCalculate(e.kind)
    ensures e.message == ZeroRootMessage <==> y == 0.0
    ensures e.message == NegRootMessage <==> y != 0.0 && x < 0.0
  {
    if y == 0.0 then Error(OperationError, ZeroRootMessage)
    else if x < 0.0 then Error(OperationError, NegRootMessage)
    else Error(OperationError, InvalidRootMessage)
  }

  /**
   * The lambda the dispatch table stores under `op`, applied to (x, y). Its
   * failures are the guards' OperationErrors or the float faults' errors.
   */
  function Apply(op: Op, x: real, y: real, rt: Runtime): (r: Result<real, Error>)
    ensures r.Failure? ==> r.error.kind in {OperationError, OverflowError, ZeroDivisionError, TypeError}
    ensures r.Failure? && r.error.kind == TypeError ==> r.error == FaultError(ComplexResult)
  {
    match op
    case Addition => Success(x + y)
    case Subtraction => Success(x - y)
    case Multiplication => Success(x * y)
    case Division => if y != 0.0 then Success(x / y) else Failure(DivZeroError())
    case Power =>
      if y >= 0.0 then
        match rt.floatPower(x, y)
        case Success(v) => Success(v)
        case Failure(f) => Failure(FaultError(f))
      else Failure(NegPowerError())
    case Root =>
      if x >= 0.0 && y != 0.0 then
        match rt.floatRoot(x, y)
        case Success(v) => Success(v)
        case Failure(f) => Failure(FaultError(f))
      else Failure(InvalidRootError(x, y))
  }

  /** The classes `calculate` catches: InvalidOperation, ValueError, ArithmeticError. */
  predicate CaughtByCalculate(k: Kind) {
    IsA(k, InvalidOperation) || IsA(k, ValueError) || IsA(k, ArithmeticError)
  }

  /** `calculate` catches the arithmetic faults of float `pow`, and lets a TypeError and the guards' errors through. */
  lemma CaughtKinds()
    ensures CaughtByCalculate(OverflowError) && CaughtByCalculate(ZeroDivisionError)
    ensures !CaughtByCalculate(TypeError) && !CaughtByCalculate(OperationError)
  {
  }

  const UnknownPrefix := "Unknown Operation: "
  const FailedPrefix := "Calculation failed: "

  /**
   * `calculate`: look the name up, then apply the stored lambda, turning an
   * arithmetic failure into an OperationError. Every failure is an
   * OperationError, except a complex power, whose TypeError is not caught.
   */
  function Calculate(name: string, x: real, y: real, rt: Runtime): (r: Result<real, Error>)
    ensures r.Failure? ==> r.error.kind == OperationError || r.error == FaultError(ComplexResult)
  {
    match Lookup(name)
    case None => Failure(Error(OperationError, UnknownPrefix + name))
    case Some(op) =>
      match Apply(op, x, y, rt)
      case Success(v) => Success(v)
      case Failure(e) =>
        if CaughtByCalculate(e.kind) then Failure(Error(OperationError, FailedPrefix + e.message))
        else
          assert e.kind == OperationError || e == FaultError(ComplexResult) by {
            CaughtKinds();
          }
          Failure(e)
  }

  datatype Calculation = Calculation(
    operation: string,
    operand1: real,
    operand2: real,
    result: real,
    timestamp: Instant)

  /** The record invariant: the result is the one its operation gives its operands. */
  predicate Consistent(c: Calculation, rt: Runtime) {
    Calculate(c.operation, c.operand1, c.operand2, rt) == Success(c.result)
  }

  /**
   * Building a record (`__init__` then `__post_init__`): the result is computed
   * once, and the construction raises whatever `calculate` raises.
   */
  function Make(name: string, x: real, y: real, now: Instant, rt: Runtime): (r: Result<Calculation, Error>)
    ensures r.Success? <==> Calculate(name, x, y, rt).Success?
    ensures r.Success? ==> Consistent(r.value, rt)
    ensures r.Success? ==> r.value.operation == name && r.value.operand1 == x && r.value.operand2 == y
    ensures r.Success? ==> r.value.timestamp == now
    ensures r.Failure? ==> r.error == Calculate(name, x, y, rt).error
  {
    var v :- Calculate(name, x, y, rt);
    Success(Calculation(name, x, y, v, now))
  }

  // ---------------------------------------------------------------- arithmetic

  /** Addition, Subtraction and Multiplication always succeed with the exact sum, difference and product. */
  lemma RingOperations(x: real, y: real, rt: Runtime)
    ensures Calculate("Addition", x, y, rt) == Success(x + y)
    ensures Calculate("Subtraction", x, y, rt) == Success(x - y)
    ensures Calculate("Multiplication", x, y, rt) == Success(x * y)
  {
  }

  /** Division succeeds exactly for a non-zero divisor, with the quotient; zero raises the division-by-zero error. */
  lemma DivisionSpec(x: real, y: real, rt: Runtime)
    ensures Calculate("Division", x, y, rt).Success? <==> y != 0.0
    ensures y != 0.0 ==> Calculate("Division", x, y, rt).value * y == x
    ensures y == 0.0 ==> Calculate("Division", x, y, rt) == Failure(DivZeroError())
  {
  }

  /** No message that `calculate` wraps in "Calculation failed: " is one of the guard messages. */
  lemma {:induction false} FailedIsNotGuard(m: string)
    ensures FailedPrefix + m != DivZeroMessage
    ensures FailedPrefix + m != NegPowerMessage
    ensures FailedPrefix + m != ZeroRootMessage
    ensures FailedPrefix + m != NegRootMessage
    ensures FailedPrefix + m != InvalidRootMessage
  {
    assert (FailedPrefix + m)[0] == 'C' && (FailedPrefix + m)[1] == 'a';
    assert DivZeroMessage[0] == 'D' && NegPowerMessage[0] == 'N' && ZeroRootMessage[0] == 'Z';
    assert NegRootMessage[1] == 'a' && NegRootMessage[2] == 'n';
    assert (FailedPrefix + m)[2] == 'l';
    assert InvalidRootMessage[0] == 'I';
  }

  /** Power rejects exactly the negative exponents, with the negative-exponent error. */
  lemma {:induction false} PowerGuard(x: real, y: real, rt: Runtime)
    ensures Calculate("Power", x, y, rt) == Failure(NegPowerError()) <==> y < 0.0
    ensures y >= 0.0 && rt.floatPower(x, y).Success? ==>
      Calculate("Power", x, y, rt) == Success(rt.floatPower(x, y).value)
  {
    if y >= 0.0 && rt.floatPower(x, y).Failure? {
      FailedIsNotGuard(FaultError(rt.floatPower(x, y).error).message);
    }
  }

  /** `calculate` wraps an arithmetic float fault of a known operation, and lets a complex result's TypeError through. */
  lemma {:induction false} CaughtFault(op: Op, x: real, y: real, rt: Runtime, f: FloatFault)
    requires Apply(op, x, y, rt) == Failure(FaultError(f))
    ensures f != ComplexResult ==>
      Calculate(Name(op), x, y, rt) == Failure(Error(OperationError, FailedPrefix + FaultError(f).message))
    ensures f == ComplexResult ==> Calculate(Name(op), x, y, rt) == Failure(FaultError(ComplexResult))
  {
    assert Lookup(Name(op)) == Some(op);
    CaughtKinds();
    var e := FaultError(f);
    if f == ComplexResult {
      assert !CaughtByCalculate(e.kind);
    } else {
      assert e.kind == OverflowError || e.kind == ZeroDivisionError;
      assert CaughtByCalculate(e.kind);
    }
  }

  /**
   * Past its guard, a failing float power becomes "Calculation failed: " and
   * the fault's message when the fault is arithmetic, and its TypeError
   * escapes unchanged when the result is complex.
   */
  lemma {:induction false} PowerFaults(x: real, y: real, rt: Runtime)
    requires y >= 0.0 && rt.floatPower(x, y).Failure?
    ensures rt.floatPower(x, y).error != ComplexResult ==>
      Calculate("Power", x, y, rt) == Failure(Error(OperationError, FailedPrefix + FaultError(rt.floatPower(x, y).error).message))
    ensures rt.floatPower(x, y).error == ComplexResult ==>
      Calculate("Power", x, y, rt) == Failure(FaultError(ComplexResult))
  {
    CaughtFault(Power, x, y, rt, rt.floatPower(x, y).error);
  }

  /** Likewise for a failing float root past the root guard, `1/float(y)` included. */
  lemma {:induction false} RootFaults(x: real, y: real, rt: Runtime)
    requires x >= 0.0 && y != 0.0 && rt.floatRoot(x, y).Failure?
    ensures rt.floatRoot(x, y).error != ComplexResult ==>
      Calculate("Root", x, y, rt) == Failure(Error(OperationError, FailedPrefix + FaultError(rt.floatRoot(x, y).error).message))
    ensures rt.floatRoot(x, y).error == ComplexResult ==>
      Calculate("Root", x, y, rt) == Failure(FaultError(ComplexResult))
  {
    CaughtFault(Root, x, y, rt, rt.floatRoot(x, y).error);
  }

  /**
   * Root fails with one of its guard errors exactly when the radicand is
   * negative or the index is zero; a zero index is reported first, and the
   * generic invalid-root error is unreachable.
   */
  lemma {:induction false} RootGuard(x: real, y: real, rt: Runtime)
    ensures (Calculate("Root", x, y, rt) == Failure(Error(OperationError, ZeroRootMessage))) <==> y == 0.0
    ensures (Calculate("Root", x, y, rt) == Failure(Error(OperationError, NegRootMessage))) <==> (x < 0.0 && y != 0.0)
    ensures Calculate("Root", x, y, rt) != Failure(Error(OperationError, InvalidRootMessage))
    ensures x >= 0.0 && y != 0.0 && rt.floatRoot(x, y).Success? ==>
      Calculate("Root", x, y, rt) == Success(rt.floatRoot(x, y).value)
  {
    if x >= 0.0 && y != 0.0 && rt.floatRoot(x, y).Failure? {
      FailedIsNotGuard(FaultError(rt.floatRoot(x, y).error).message);
    }
  }

  /** No result of a known operation is the unknown-operation error for its own name. */
  lemma {:induction false} UnknownIsNotGuard(name: string, m: string)
    ensures UnknownPrefix + name != DivZeroMessage
    ensures UnknownPrefix + name != NegPowerMessage
    ensures UnknownPrefix + name != ZeroRootMessage
    ensures UnknownPrefix + name != NegRootMessage
    ensures UnknownPrefix + name != InvalidRootMessage
    ensures UnknownPrefix + name != FailedPrefix + m
  {
    assert (UnknownPrefix + name)[0] == 'U';
    assert (FailedPrefix + m)[0] == 'C';
  }

  /** The result of a known operation is never the unknown-operation error for its own name. */
  lemma {:induction false} KnownIsNotUnknown(op: Op, x: real, y: real, rt: Runtime)
    ensures Calculate(Name(op), x, y, rt) != Failure(Error(OperationError, UnknownPrefix + Name(op)))
  {
    assert Lookup(Name(op)) == Some(op);
    var r := Apply(op, x, y, rt);
    if r.Failure? {
      UnknownIsNotGuard(Name(op), r.error.message);
    }
  }

  /**
   * A name outside the six exact keys fails with "Unknown Operation: name",
   * whatever the operands, and a known name never yields that error.
   */
  lemma {:induction false} UnknownOperation(name: string, x: real, y: real, rt: Runtime)
    ensures name !in OperationNames <==>
      Calculate(name, x, y, rt) == Failure(Error(OperationError, UnknownPrefix + name))
  {
    if name in OperationNames {
      KnownIsNotUnknown(Lookup(name).value, x, y, rt);
    }
  }

  /** The lookup is case-sensitive: a lower-case spelling is unknown. */
  lemma LookupIsCaseSensitive(x: real, y: real, rt: Runtime)
    ensures Calculate("addition", x, y, rt) == Failure(Error(OperationError, "Unknown Operation: addition"))
  {
    assert "addition" !in OperationNames by {
      assert forall n | n in OperationNames :: n[0] != 'a';
    }
    UnknownOperation("addition", x, y, rt);
    assert UnknownPrefix + "addition" == "Unknown Operation: addition";
  }

  // ---------------------------------------------------------------- equality and text

  /** `__eq__`: operation, operands and result agree; the timestamp is ignored. */
  predicate Eq(c: Calculation, d: Calculation): (r: bool)
    ensures r <==> c.(timestamp := d.timestamp) == d
  {
    c.operation == d.operation && c.operand1 == d.operand1 &&
    c.operand2 == d.operand2 && c.result == d.result
  }

  /** Eq is an equivalence, and a record equals itself whatever timestamp it is given. */
  lemma EqIgnoresOnlyTimestamp(c: Calculation, d: Calculation, e: Calculation, t: Instant)
    ensures Eq(c, c) && Eq(c, c.(timestamp := t))
    ensures Eq(c, d) ==> Eq(d, c)
    ensures Eq(c, d) && Eq(d, e) ==> Eq(c, e)
  {
  }

  /** For records that keep their invariant, equality is equality of operation and operands. */
  lemma EqOfConsistent(c: Calculation, d: Calculation, rt: Runtime)
    requires Consistent(c, rt) && Consistent(d, rt)
    ensures Eq(c, d) <==> (c.operation == d.operation && c.operand1 == d.operand1 && c.operand2 == d.operand2)
  {
  }

  /**
   * `__str__`: "op(a, b) = r" with `str` of each Decimal. The text begins with
   * the operation name and an opening parenthesis.
   */
  function Str(c: Calculation, rt: Runtime): (s: string)
    ensures |s| > |c.operation|
    ensures s[..|c.operation|] == c.operation && s[|c.operation|] == '('
  {
    c.operation + "(" + rt.showDecimal(c.operand1) + ", " + rt.showDecimal(c.operand2) + ") = " + rt.showDecimal(c.result)
  }

  /** The whole format on the record of Addition(2, 3), given how `str` shows the three Decimals. */
  lemma StrExample(t: Instant, rt: Runtime)
    requires rt.showDecimal(2.0) == "2" && rt.showDecimal(3.0) == "3" && rt.showDecimal(5.0) == "5"
    ensures Str(Calculation("Addition", 2.0, 3.0, 5.0, t), rt) == "Addition(2, 3) = 5"
  {
  }

  /** The string form of a record that keeps its invariant names its operation: its first letter tells the six apart. */
  lemma {:induction false} StrNamesOperation(c: Calculation, d: Calculation, rt: Runtime)
    requires Consistent(c, rt) && Consistent(d, rt)
    ensures Str(c, rt) == Str(d, rt) ==> c.operation == d.operation
  {
    assert c.operation in OperationNames && d.operation in OperationNames by {
      UnknownOperation(c.operation, c.operand1, c.operand2, rt);
      UnknownOperation(d.operation, d.operand1, d.operand2, rt);
    }
    if Str(c, rt) == Str(d, rt) {
      assert c.operation[0] == Str(c, rt)[0] == d.operation[0];
    }
  }

  // ---------------------------------------------------------------- dictionaries

  const Keys: set<string> := {"operation", "operand1", "operand2", "result", "timestamp"}

  /** `to_dict` as written: the operation is stored under the misspelt key "opperation". */
  function ToDict(c: Calculation, rt: Runtime): (d: map<string, string>)
    ensures d.Keys == {"opperation", "operand1", "operand2", "result", "timestamp"}
    ensures "operation" !in d
    ensures d == (ToDictCorrected(c, rt) - {"operation"})["opperation" := c.operation]
  {
    map[
      "opperation" := c.operation,
      "operand1" := rt.showDecimal(c.operand1),
      "operand2" := rt.showDecimal(c.operand2),
      "result" := rt.showDecimal(c.result),
      "timestamp" := rt.showInstant(c.timestamp)]
  }

  /** `to_dict` as its test and `from_dict` expect it: every key `from_dict` reads. */
  function ToDictCorrected(c: Calculation, rt: Runtime): (d: map<string, string>)
    ensures d.Keys == Keys
  {
    map[
      "operation" := c.operation,
      "operand1" := rt.showDecimal(c.operand1),
      "operand2" := rt.showDecimal(c.operand2),
      "result" := rt.showDecimal(c.result),
      "timestamp" := rt.showInstant(c.timestamp)]
  }

  /** `data[key]`, raising KeyError with the quoted key. */
  function Get(data: map<string, string>, key: string): Result<string, Error> {
    if key in data then Success(data[key]) else Failure(Error(KeyError, Quoted(key)))
  }

  /** A decoded record and the warnings `from_dict` logged while decoding it. */
  datatype Decoded = Decoded(record: Calculation, warnings: seq<string>)

  function MismatchWarning(saved: real, computed: real, rt: Runtime): string {
    "Loaded calculation result " + rt.showDecimal(saved) + " " +
    "Different from computed result " + rt.showDecimal(computed)
  }

  /** The constructor arguments `from_dict` reads: the operation name and the two parsed operands. */
  datatype Inputs = Inputs(name: string, x: real, y: real)

  /** `data['operation']`, `Decimal(data['operand1'])`, `Decimal(data['operand2'])`, in that order. */
  function ReadInputs(data: map<string, string>, rt: Runtime): (r: Result<Inputs, Error>)
    ensures r.Success? <==> "operation" in data && "operand1" in data && "operand2" in data &&
                            rt.parseDecimal(data["operand1"]).Some? && rt.parseDecimal(data["operand2"]).Some?
    ensures r.Success? ==> r.value == Inputs(data["operation"], rt.parseDecimal(data["operand1"]).value,
                                             rt.parseDecimal(data["operand2"]).value)
    ensures r.Failure? ==> r.error.kind in {KeyError, InvalidOperation}
  {
    var name :- Get(data, "operation");
    var text1 :- Get(data, "operand1");
    var x :- ParseDecimal(text1, rt);
    var text2 :- Get(data, "operand2");
    var y :- ParseDecimal(text2, rt);
    Success(Inputs(name, x, y))
  }

  /** Every key `from_dict` reads is present, and every value it parses is well formed. */
  predicate WellFormed(data: map<string, string>, rt: Runtime) {
    && ReadInputs(data, rt).Success?
    && "timestamp" in data && rt.parseInstant(data["timestamp"]).Some?
    && "result" in data && rt.parseDecimal(data["result"]).Some?
  }

  /**
   * The body of the `try` block of `from_dict`, in Python's evaluation order.
   * What escapes it is a missing key, a malformed numeral or timestamp, or
   * what the construction raised.
   */
  function Load(data: map<string, string>, now: Instant, rt: Runtime): (r: Result<Decoded, Error>)
    ensures r.Failure? ==> r.error.kind in {KeyError, InvalidOperation, ValueError, OperationError}
                           || r.error == FaultError(ComplexResult)
  {
    var inputs :- ReadInputs(data, rt);
    var built :- Make(inputs.name, inputs.x, inputs.y, now, rt);
    var stamp :- Get(data, "timestamp");
    var t :- ParseInstant(stamp, rt);
    var savedText :- Get(data, "result");
    var saved :- ParseDecimal(savedText, rt);
    var loaded := built.(timestamp := t);
    Success(Decoded(loaded, if loaded.result != saved then [MismatchWarning(saved, loaded.result, rt)] else []))
  }

  /** The classes `from_dict` catches: KeyError, InvalidOperation, ValueError. */
  predicate CaughtByFromDict(k: Kind) {
    IsA(k, KeyError) || IsA(k, InvalidOperation) || IsA(k, ValueError)
  }

  const InvalidDataPrefix := "Invalid calculation data: "

  /**
   * `from_dict`: rebuild the record from its operation and operands, restore the
   * stored timestamp, recompute the result and only warn when it differs from
   * the stored one. `now` is the clock reading the construction takes before
   * the timestamp is overwritten. It succeeds exactly when the data is well
   * formed and the construction succeeds.
   */
  function FromDict(data: map<string, string>, now: Instant, rt: Runtime): (r: Result<Decoded, Error>)
    ensures r.Success? <==>
      WellFormed(data, rt) &&
      Make(data["operation"], ReadInputs(data, rt).value.x, ReadInputs(data, rt).value.y, now, rt).Success?
    ensures r.Success? ==> Keys <= data.Keys
    ensures r.Success? ==> Consistent(r.value.record, rt)
    ensures r.Success? ==> r.value.record.operation == data["operation"]
    ensures r.Success? ==> rt.parseDecimal(data["operand1"]) == Some(r.value.record.operand1)
    ensures r.Success? ==> rt.parseDecimal(data["operand2"]) == Some(r.value.record.operand2)
    ensures r.Success? ==> rt.parseInstant(data["timestamp"]) == Some(r.value.record.timestamp)
    ensures r.Success? ==> (r.value.warnings == [] <==> rt.parseDecimal(data["result"]).value == r.value.record.result)
    ensures r.Success? && r.value.warnings != [] ==>
      r.value.warnings == [MismatchWarning(rt.parseDecimal(data["result"]).value, r.value.record.result, rt)]
    ensures r.Failure? ==> r.error.kind == OperationError || r.error == FaultError(ComplexResult)
  {
    match Load(data, now, rt)
    case Success(d) => Success(d)
    case Failure(e) =>
      if CaughtByFromDict(e.kind) then Failure(Error(OperationError, InvalidDataPrefix + e.message))
      else Failure(e)
  }

  /** Where the `try` block of `from_dict` stops on missing or malformed data: a caught kind, and the missing key. */
  lemma {:induction false} LoadStopsOnBadData(data: map<string, string>, now: Instant, rt: Runtime)
    requires !WellFormed(data, rt)
    requires ReadInputs(data, rt).Success? ==>
      Make(data["operation"], ReadInputs(data, rt).value.x, ReadInputs(data, rt).value.y, now, rt).Success?
    ensures Load(data, now, rt).Failure? && CaughtByFromDict(Load(data, now, rt).error.kind)
    ensures "operation" !in data ==> Load(data, now, rt).error == Error(KeyError, "'operation'")
    ensures ReadInputs(data, rt).Success? && "timestamp" !in data ==>
      Load(data, now, rt).error == Error(KeyError, "'timestamp'")
    ensures ReadInputs(data, rt).Success? && "timestamp" in data && rt.parseInstant(data["timestamp"]).Some?
            && "result" !in data ==>
      Load(data, now, rt).error == Error(KeyError, "'result'")
  {
    assert Quoted("operation") == "'operation'" && Quoted("timestamp") == "'timestamp'" && Quoted("result") == "'result'";
    assert Load(data, now, rt).error.kind in {KeyError, InvalidOperation, ValueError};
  }

  /**
   * Missing or malformed data, when the construction itself does not raise, is
   * reported as invalid data: a missing operation or operand key or a malformed
   * operand before anything is computed, and a missing or malformed timestamp or
   * result after the record is built. A missing key is named in the message.
   */
  lemma {:induction false} FromDictMissingInput(data: map<string, string>, now: Instant, rt: Runtime)
    requires !WellFormed(data, rt)
    requires ReadInputs(data, rt).Success? ==>
      Make(data["operation"], ReadInputs(data, rt).value.x, ReadInputs(data, rt).value.y, now, rt).Success?
    ensures FromDict(data, now, rt).Failure?
    ensures FromDict(data, now, rt).error.kind == OperationError
    ensures FromDict(data, now, rt).error.message[..|InvalidDataPrefix|] == InvalidDataPrefix
    ensures "operation" !in data ==>
      FromDict(data, now, rt) == Failure(Error(OperationError, InvalidDataPrefix + "'operation'"))
    ensures ReadInputs(data, rt).Success? && "timestamp" !in data ==>
      FromDict(data, now, rt) == Failure(Error(OperationError, InvalidDataPrefix + "'timestamp'"))
    ensures ReadInputs(data, rt).Success? && "timestamp" in data && rt.parseInstant(data["timestamp"]).Some?
            && "result" !in data ==>
      FromDict(data, now, rt) == Failure(Error(OperationError, InvalidDataPrefix + "'result'"))
  {
    LoadStopsOnBadData(data, now, rt);
    var e := Load(data, now, rt).error;
    assert FromDict(data, now, rt) == Failure(Error(OperationError, InvalidDataPrefix + e.message));
    assert (InvalidDataPrefix + e.message)[..|InvalidDataPrefix|] == InvalidDataPrefix;
  }

  /**
   * With well-formed operation and operands, a construction error (an unknown
   * name, a domain guard) propagates from `from_dict` with its own message,
   * whether or not the timestamp and result are present.
   */
  lemma {:induction false} FromDictPropagatesConstruction(data: map<string, string>, now: Instant, rt: Runtime)
    requires ReadInputs(data, rt).Success?
    requires Calculate(data["operation"], ReadInputs(data, rt).value.x, ReadInputs(data, rt).value.y, rt).Failure?
    ensures FromDict(data, now, rt) ==
      Failure(Calculate(data["operation"], ReadInputs(data, rt).value.x, ReadInputs(data, rt).value.y, rt).error)
  {
    var e := Calculate(data["operation"], ReadInputs(data, rt).value.x, ReadInputs(data, rt).value.y, rt).error;
    assert Load(data, now, rt) == Failure(e);
    assert !CaughtByFromDict(e.kind) by {
      CaughtAsCalculatorError(e.kind);
    }
  }

  /**
   * Well-formed data whose operation succeeds always loads: the record has the
   * stored operation, operands and timestamp and the recomputed result, and one
   * warning is logged exactly when the stored result differs.
   */
  lemma {:induction false} FromDictLoads(data: map<string, string>, now: Instant, rt: Runtime)
    requires WellFormed(data, rt)
    requires Calculate(data["operation"], ReadInputs(data, rt).value.x, ReadInputs(data, rt).value.y, rt).Success?
    ensures FromDict(data, now, rt) ==
      var inputs := ReadInputs(data, rt).value;
      var v := Calculate(inputs.name, inputs.x, inputs.y, rt).value;
      var saved := rt.parseDecimal(data["result"]).value;
      Success(Decoded(Calculation(inputs.name, inputs.x, inputs.y, v, rt.parseInstant(data["timestamp"]).value),
                      if v != saved then [MismatchWarning(saved, v, rt)] else []))
  {
  }

  /** `str` and `Decimal`, and isoformat and fromisoformat, read back this record's own values. */
  predicate ReadsBack(c: Calculation, rt: Runtime) {
    && rt.parseDecimal(rt.showDecimal(c.operand1)) == Some(c.operand1)
    && rt.parseDecimal(rt.showDecimal(c.operand2)) == Some(c.operand2)
    && rt.parseDecimal(rt.showDecimal(c.result)) == Some(c.result)
    && rt.parseInstant(rt.showInstant(c.timestamp)) == Some(c.timestamp)
  }

  /** A stored result that differs from the recomputed one is not fatal: the record loads, with one warning. */
  lemma {:induction false} FromDictMismatchOnlyWarns(c: Calculation, stored: real, now: Instant, rt: Runtime)
    requires Consistent(c, rt) && ReadsBack(c, rt)
    requires rt.parseDecimal(rt.showDecimal(stored)) == Some(stored) && stored != c.result
    ensures FromDict(ToDictCorrected(c, rt)["result" := rt.showDecimal(stored)], now, rt)
            == Success(Decoded(c, [MismatchWarning(stored, c.result, rt)]))
  {
    var data := ToDictCorrected(c, rt)["result" := rt.showDecimal(stored)];
    assert ReadInputs(data, rt).value == Inputs(c.operation, c.operand1, c.operand2);
    FromDictLoads(data, now, rt);
  }

  /** As written, `from_dict(to_dict(c))` always fails: the dictionary has no "operation" key. */
  lemma ToDictNeverRoundTrips(c: Calculation, now: Instant, rt: Runtime)
    ensures FromDict(ToDict(c, rt), now, rt) == Failure(Error(OperationError, InvalidDataPrefix + "'operation'"))
  {
    assert Load(ToDict(c, rt), now, rt) == Failure(Error(KeyError, Quoted("operation")));
    assert Quoted("operation") == "'operation'";
  }

  /**
   * With the key spelt as `from_dict` reads it, every consistent record whose
   * values read back round-trips exactly, timestamp included, without warnings.
   */
  lemma {:induction false} RoundTrip(c: Calculation, now: Instant, rt: Runtime)
    requires Consistent(c, rt) && ReadsBack(c, rt)
    ensures FromDict(ToDictCorrected(c, rt), now, rt) == Success(Decoded(c, []))
  {
    var data := ToDictCorrected(c, rt);
    assert ReadInputs(data, rt).value == Inputs(c.operation, c.operand1, c.operand2);
    FromDictLoads(data, now, rt);
  }
}
