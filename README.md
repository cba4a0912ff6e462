# Calculator records, configuration and observers — a Dafny model

This project models the core of a command-line arithmetic calculator. It has
four parts:

- **The calculation record** (`app/calculatorOperations.py`). A record holds an
  operation name, two Decimal operands, a result and a timestamp. The result is
  computed once, when the record is built, through a dispatch table keyed by
  the names Addition, Subtraction, Multiplication, Division, Power and Root.
  The table has domain guards that raise `OperationError`. The record also has
  structural equality that ignores the timestamp, a string form, and
  `to_dict` / `from_dict`. `from_dict` recomputes the result and only warns when
  it differs from the stored one.
- **The configuration** (`app/calculator_config.py`). Each setting comes from an
  explicit argument, otherwise from an environment variable, otherwise from a
  default. `validate` checks the three numeric settings in a fixed order.
- **The history observers** (`app/history.py`). A logging observer writes one
  line per calculation. An auto-save observer is bound to a host that has
  `config` and `save_history`, and it saves only when `auto_save` is on.
- **The exception family** (`app/exceptions.py`). `CalculatorError` is the
  parent of `ValidationError`, `OperationError` and `ConfigurationError`.

Modules, one per source file plus two shared ones:

| file | module | models |
|---|---|---|
| `wrappers.dfy` | `Wrappers` | Option / Result / Outcome for `None`, return-or-raise, and raise-or-nothing |
| `errors.dfy` | `Errors` | the exception classes as a `Kind`, their subclass relation, an `Error` as kind plus message |
| `platform.dfy` | `Platform` | the Python runtime functions the core calls but the model does not define, as fields of one `Runtime` value passed as a parameter |
| `calculations.dfy` | `Calculations` | the calculation record |
| `configuration.dfy` | `Configuration` | setting resolution and validation |
| `history.dfy` | `History` | the two observers, as classes over a `Host` and a `Logger` object |

Decimals are `real`. Addition, subtraction, multiplication and division are
exact. Power and Root go through Python floats, so their values are the
uninterpreted functions `Runtime.floatPower` and `Runtime.floatRoot`. These
functions also say how the float computation can fail. Three failures are
`ArithmeticError`s, which `calculate` turns into "Calculation failed: …":
- an overflow;
- zero raised to a negative power, which only Root can reach (a zero radicand with a negative index);
- a non-zero Root index so small that `float(y)` is 0.0, so `1/float(y)`
  divides by zero.

A complex result makes `Decimal()` raise a `TypeError`, which `calculate` does
not catch. `str(Decimal)`, `Decimal(str)`, `int(str)`, `isoformat` and
`fromisoformat` are also `Runtime` fields. Two predicates state facts about
them:
- `ReadsBack(c, rt)`: `str`/`Decimal` and `isoformat`/`fromisoformat` read back
  the values of record `c`. Python meets this for every finite Decimal and every
  datetime. A real such as 1/3 has no exact string, so the model states the
  fact per record.
- `ParsesDefaults(rt)`: the configuration's default literals parse as Python
  parses them.

Lemmas that need these facts require them. The clock (`datetime.now`) is a
parameter `now`.

## Model

| member | source | states |
|---|---|---|
| `Calculations.Lookup` | app/calculatorOperations.py:28-43 | The table finds exactly the six case-sensitive names, and the operation found is the one stored under that exact name. |
| `Calculations.DivZeroError` | app/calculatorOperations.py:51-54 | The division-by-zero error is a CalculatorError that `calculate` does not catch, with the message "Division by zero is not allowed". |
| `Calculations.NegPowerError` | app/calculatorOperations.py:56-59 | The negative-exponent error is a CalculatorError that `calculate` does not catch, with the message "Negative exponents are not supported". |
| `Calculations.InvalidRootError` | app/calculatorOperations.py:61-68 | The invalid-root error is a CalculatorError that `calculate` does not catch. It says "Zero root is undefined" exactly when the index is zero, whatever the radicand. It says "Cannot calculate root of negative number" exactly when the index is non-zero and the radicand negative. |
| `Calculations.Apply` | app/calculatorOperations.py:28-39 | A stored lambda fails only with a guard's OperationError, an OverflowError or ZeroDivisionError of the float computation, or the TypeError of a complex result. |
| `Calculations.Calculate` | app/calculatorOperations.py:26-48 | Every failure is an OperationError, except the TypeError of a complex float power, which `calculate` does not catch. The message of a caught float fault is stated by `PowerFaults` and `RootFaults`. |
| `Calculations.Make` | app/calculatorOperations.py:14-24 | Construction succeeds exactly when `calculate` does. The new record keeps the given operation, operands and timestamp. Its result is fixed to the computed value, so the record invariant `Consistent` holds. A failure is the error `calculate` raised. |
| `Calculations.CaughtFault` | app/calculatorOperations.py:45-48 | For any known operation whose lambda fails with a float fault, `calculate` raises OperationError "Calculation failed: " + the fault's message for an arithmetic fault. It lets a complex result's TypeError through unchanged. |
| `Calculations.PowerFaults` | app/calculatorOperations.py:33-48 | Past the negative-exponent guard, a failing float power with an arithmetic fault (overflow) raises OperationError "Calculation failed: " + the fault's message. A complex result lets its TypeError through unchanged. |
| `Calculations.RootFaults` | app/calculatorOperations.py:34-48 | Past the root guard, a failing float root with an arithmetic fault (overflow, zero to a negative power when the index is negative, `1/float(y)` dividing by zero) raises OperationError "Calculation failed: " + the fault's message. A complex result lets its TypeError through unchanged. |
| `Calculations.CaughtKinds` | app/calculatorOperations.py:47 | `calculate` catches the OverflowError and ZeroDivisionError of the float computation. It lets a TypeError and its own guards' OperationErrors through. |
| `Calculations.RingOperations` | app/calculatorOperations.py:29-31 | Addition, Subtraction and Multiplication always succeed, with a+b, a−b and a×b. |
| `Calculations.DivisionSpec` | app/calculatorOperations.py:32 | Division succeeds exactly when the divisor is non-zero, and the result times the divisor is the dividend. A zero divisor raises OperationError "Division by zero is not allowed" (lines 51-54). |
| `Calculations.PowerGuard` | app/calculatorOperations.py:33 | Power fails with "Negative exponents are not supported" exactly when the exponent is negative. A non-negative exponent gives the float power's value when that power succeeds (lines 56-59). |
| `Calculations.RootGuard` | app/calculatorOperations.py:61-68 | Root fails with "Zero root is undefined" exactly when the index is zero, even for a negative radicand. It fails with "Cannot calculate root of negative number" exactly when the radicand is negative and the index is non-zero. "Invalid root operation" is never raised. Otherwise the result is the float root (guard at lines 34-38). |
| `Calculations.UnknownOperation` | app/calculatorOperations.py:41-43 | A name is outside the six keys exactly when `calculate` fails with "Unknown Operation: {name}", whatever the operands. |
| `Calculations.LookupIsCaseSensitive` | app/calculatorOperations.py:41-43 | "addition" is an unknown operation. |
| `Calculations.Eq` | app/calculatorOperations.py:146-163 | Two records are equal exactly when they differ at most in the timestamp. |
| `Calculations.EqIgnoresOnlyTimestamp` | app/calculatorOperations.py:158-163 | Equality is reflexive, symmetric and transitive, and changing only the timestamp keeps a record equal to itself. |
| `Calculations.EqOfConsistent` | app/calculatorOperations.py:146-163 | For records that keep their invariant, equality holds exactly when operation and operands agree. |
| `Calculations.Str` | app/calculatorOperations.py:123-130 | The string form is longer than the operation name. It starts with the operation name followed by "(". |
| `Calculations.StrExample` | app/calculatorOperations.py:123-130 | When `str` shows 2, 3 and 5 as "2", "3" and "5", the record Addition(2, 3) with result 5 prints as "Addition(2, 3) = 5", as the test at tests/test_calculator_operations.py:140-143 expects. |
| `Calculations.StrNamesOperation` | app/calculatorOperations.py:123-130 | Two records that keep their invariant and have the same string form have the same operation. |
| `Calculations.ToDict` | app/calculatorOperations.py:70-83 | As written, the dictionary has the keys "opperation", "operand1", "operand2", "result" and "timestamp", and no "operation" key. It is the corrected dictionary with the operation moved from "operation" to "opperation", so it holds the same values. |
| `Calculations.ToDictNeverRoundTrips` | app/calculatorOperations.py:77-83 | As written, `from_dict(to_dict(c))` always fails with OperationError "Invalid calculation data: 'operation'". |
| `Calculations.ToDictCorrected` | app/calculatorOperations.py:77-83 | With the key spelt "operation", the dictionary has exactly the five keys `from_dict` reads. |
| `Calculations.RoundTrip` | app/calculatorOperations.py:99-118 | For a consistent record whose values read back, `from_dict` of the corrected dictionary gives back the same record, timestamp included, with no warning. |
| `Calculations.ReadInputs` | app/calculatorOperations.py:101-104 | Reading the constructor arguments succeeds exactly when the three keys are present and both operands parse, and then yields the stored name and the parsed operands. Otherwise it raises KeyError or InvalidOperation. |
| `Calculations.Load` | app/calculatorOperations.py:99-118 | What escapes the `try` block is a KeyError, InvalidOperation, ValueError or OperationError, or the TypeError of a complex power. |
| `Calculations.FromDict` | app/calculatorOperations.py:85-121 | `from_dict` succeeds exactly when all five keys are present, the operands, timestamp and result parse, and the construction succeeds. The record then has the stored operation, operands and timestamp, and its result is recomputed. Exactly one mismatch warning is logged when the stored result differs, and none otherwise. Every failure is an OperationError, except the uncaught TypeError of a complex power. |
| `Calculations.FromDictLoads` | app/calculatorOperations.py:99-118 | Well-formed data whose operation succeeds loads to the record with the stored operation, operands and timestamp and the recomputed result. A warning comparing the two results is logged exactly when they differ. |
| `Calculations.LoadStopsOnBadData` | app/calculatorOperations.py:99-111 | When the data is not well formed and construction does not raise, the `try` block stops with a kind that `from_dict` catches. The KeyError names the first missing key of operation, timestamp and result. |
| `Calculations.FromDictMissingInput` | app/calculatorOperations.py:99-121 | Missing or malformed data raises OperationError "Invalid calculation data: …" whenever construction does not raise. This covers the operation and operand keys before construction, and the timestamp and result after it. A missing "operation", "timestamp" or "result" key gives "Invalid calculation data: '<key>'". |
| `Calculations.FromDictPropagatesConstruction` | app/calculatorOperations.py:101-105 | With the operation present and the operands well formed, a construction error passes through `from_dict` with its own message, whether or not "timestamp" and "result" are present. Examples are an unknown name and division by zero. |
| `Calculations.FromDictMismatchOnlyWarns` | app/calculatorOperations.py:110-116 | A stored result that differs from the recomputed one still loads the record, with exactly one warning, when the values read back. |
| `Errors.LeavesAreSiblings` | app/exceptions.py:11-21 | ValidationError, OperationError and ConfigurationError are each a CalculatorError. None of them is a subclass of another, and CalculatorError is a subclass of none of them. |
| `Errors.CaughtAsCalculatorError` | app/exceptions.py:7-21 | `except CalculatorError` catches exactly CalculatorError and its three subclasses. |
| `Errors.IsAIsPartialOrder` | app/exceptions.py:7-21 | The subclass relation is reflexive, transitive and antisymmetric. |
| `Configuration.Lower` | app/calculator_config.py:47 | `lower()` keeps the length and lowers each character. |
| `Configuration.LowerIsTrue` | app/calculator_config.py:47-50 | A string lowers to "true" exactly when it spells true in any mix of cases. |
| `Configuration.LowerIsOne` | app/calculator_config.py:47-50 | A string lowers to "1" exactly when it is "1". |
| `Configuration.AutoSaveFlag` | app/calculator_config.py:47-50 | The auto-save text enables saving exactly for "1" and the case variants of "true". |
| `Configuration.AutoSaveExamples` | app/calculator_config.py:47-50 | "True", "1" and "true" enable saving. "yes", "0", "" and "False" do not. |
| `Configuration.Resolve` | app/calculator_config.py:42-65 | Resolution raises only ValueError or InvalidOperation. It cannot fail once history size, precision and input bound are given. For history size, auto-save, precision and input bound, a non-None argument is the resolved value, even when it is zero or negative. The encoding argument is also replaced when it is the empty string. |
| `Configuration.SettingSources` | app/calculator_config.py:42-65 | Each setting is its argument if given, otherwise its environment variable if set, otherwise its default: 1000, auto-save on, 10, Decimal('1e999'), 'utf-8'. An empty encoding argument counts as absent. |
| `Configuration.ResolveSucceeds` | app/calculator_config.py:42-60 | Resolution succeeds exactly when every numeric setting taken from the environment parses. |
| `Configuration.MalformedEnvironmentRaises` | app/calculator_config.py:42-44 | Without a history-size argument, a malformed history size in the environment makes construction raise ValueError "invalid literal for int() with base 10: '…'". |
| `Configuration.Defaults` | app/calculator_config.py:42-65 | With no arguments and an empty environment, the settings are 1000, auto-save on, 10, Decimal('1e999') and 'utf-8'. |
| `Configuration.EncodingFallsBackOnEmpty` | app/calculator_config.py:63-65 | An empty-string encoding argument falls back to the environment or 'utf-8'. Zero numeric arguments are kept. |
| `Configuration.Validate` | app/calculator_config.py:99-106 | `validate` passes exactly when history size, precision and input bound are all positive, and otherwise raises a ConfigurationError. |
| `Configuration.ValidateReportsFirstFailure` | app/calculator_config.py:99-106 | `validate` reports the first non-positive setting, in the order history size, precision, input bound, with the "… must be positive" ConfigurationError. |
| `History.PerformedMessage` | app/history.py:26-30 | The logged line is "Calculation performed: " + operation + " " + the record's string form after the name. |
| `History.LoggingObserver.Update` | app/history.py:22-30 | A missing record raises AttributeError "Operation cannot be None" and logs nothing. Otherwise exactly one line is logged. |
| `History.NewAutoSaveObserver` | app/history.py:35-38 | Raises TypeError "Calculator must have 'config' and 'save_history' attributes" exactly when the host lacks either attribute. Otherwise the new observer holds exactly the given host. |
| `History.AutoSaveObserver.constructor` | app/history.py:38 | The observer holds exactly the host it was given. |
| `History.AutoSaveObserver.Update` | app/history.py:40-46 | A missing record raises before the configuration is read, and nothing is saved. With auto-save on, the host saves exactly once and "History auto-saved" is logged. With it off, the save count and the log are unchanged. |

## Findings

| source | as written | input that shows it | evidently intended | confidence | as-written member | corrected member |
|---|---|---|---|---|---|---|
| app/calculatorOperations.py:78 | `to_dict` stores the operation under the key `'opperation'`, but `from_dict` reads `data['operation']` | any record, e.g. Addition(2, 3): `from_dict(to_dict(c))` raises OperationError "Invalid calculation data: 'operation'" | key `'operation'`, as the test at tests/test_calculator_operations.py:83 expects, so that a record round-trips | high; not executed | `Calculations.ToDictNeverRoundTrips` (about `Calculations.ToDict`) | `Calculations.RoundTrip` (about `Calculations.ToDictCorrected`) |

## Left out

- Calculations.Calculate: Decimal arithmetic is exact on reals. Decimal's 28-digit context rounding is not modelled; it applies to +, −, × and / alike (`Decimal('1e30') + Decimal('1')` rounds). Neither is Decimal overflow, nor NaN and Infinity operands or results, which Decimal admits.
- Configuration.Validate: the input bound is a real, so a NaN or sNaN bound is not modelled. Python accepts `CALCULATOR_MAX_INPUT_VALUE=NaN` at app/calculator_config.py:58-60. `validate` then raises `decimal.InvalidOperation` at line 105, because an ordering comparison with a NaN signals, and not a ConfigurationError.
- Calculations.RingOperations: the exact a+b, a−b and a×b hold in the model only. Python rounds them to 28 significant digits.
- Calculations.DivisionSpec: "the quotient times the divisor is the dividend" holds in the model only. Python rounds the quotient to 28 significant digits.
- Calculations.Str: Decimal's exponent (trailing zeros) is not modelled. `str` of a Decimal is a function of its value here, but `Decimal('1.0') == Decimal('1')` prints differently. So the model promises nothing about the string forms of records that are equal but not identical.
- History.PerformedMessage: for the same reason, records that are equal but differ in Decimal exponents may log different lines; the model promises nothing about them.
- Power and Root values: these are the uninterpreted `Runtime.floatPower` and `Runtime.floatRoot`. Float conversion and `pow` are not modelled.
- `format_result` and `__repr__` are not modelled: they only format numbers. `__repr__` as written also leaves its parenthesis unclosed and omits the timestamp, unlike the test at tests/test_calculator_operations.py:146-153.
- `__eq__` against an object that is not a record returns NotImplemented. The model compares records only.
- Configuration.Lower: lowers ASCII letters only. No non-ASCII character lowers to a letter of "true", so the auto-save rule is unaffected.
- Platform.Quoted: `repr` of a string; it quotes the string without Python's escaping of quote characters. It is used only in KeyError and ValueError messages.
- The base directory and the directory and file properties of the configuration (app/calculator_config.py:7-19, 36-39, 67-97) are not modelled. They depend on the filesystem and the working directory. `load_dotenv` and `os.getenv` I/O are replaced by the environment map.
- The logging module is an explicit `Logger` of info lines. `from_dict`'s warnings are returned with the decoded record. Log levels, handlers and files are not modelled.
- History.AutoSaveObserver.constructor: requires a host with both attributes. The attribute check of `__init__` and its TypeError are modelled by `History.NewAutoSaveObserver`, which is the only caller of the constructor.
- History.Host: `save_history` is a counter. What it writes, and any exception it raises, is outside this model. Whether the host has `config` and `save_history` is fixed when the host is made, so deleting an attribute later is not modelled.
- The abstract `HistoryObserver` base has no behaviour and is not modelled. Neither is `app/operations.py`. Its abstract `Operation` declares an abstract `execute` with no implementation, a no-op `validate_operands`, and a `__str__` that would fail on `_class_._name_`.
- The calculator engine (perform, undo/redo, bounded history, observer notification) and the input validator are not part of this model.
- Naming: the tests import `app.calculator_operations.CalculatorOperations`, and `app/history.py:4` imports `CalculatorOperations`. The shown source defines `calculatorOperations` in `app/calculatorOperations.py`. The model follows the shown source.
