/**
 * The history observers (app/history.py): a logging observer that writes one
 * line per calculation, and an auto-save observer bound to a host (normally the
 * calculator) that saves the history after each calculation when the host's
 * configuration asks for it. Python's logging module is modelled as an explicit
 * Logger object holding the info lines written so far.
 */
module History {
  import opened Wrappers
  import opened Errors
  import opened Platform
  import opened Calculations
  import opened Configuration

  /** The info lines logged so far. */
  class Logger {
    var infos: seq<string>

    constructor ()
      ensures infos == []
    {
      infos := [];
    }

    /** `logging.info(line)` */
    method Info(line: string)
      modifies this
      ensures infos == old(infos) + [line]
    {
      infos := infos + [line];
    }
  }

  /**
   * The object an auto-save observer is attached to. Whether it has the
   * `config` and `save_history` attributes is fixed when it is made; the
   * history it saves is external, so the model counts the saves.
   */
  class Host {
    const hasConfig: bool
    const hasSaveHistory: bool
    var config: Settings
    var saveCount: nat

    constructor (hasConfig: bool, hasSaveHistory: bool, config: Settings)
      ensures this.hasConfig == hasConfig && this.hasSaveHistory == hasSaveHistory
      ensures this.config == config && saveCount == 0
    {
      this.hasConfig := hasConfig;
      this.hasSaveHistory := hasSaveHistory;
      this.config := config;
      saveCount := 0;
    }

    /** `save_history()` */
    method SaveHistory()
      requires hasSaveHistory
      modifies this
      ensures saveCount == old(saveCount) + 1
      ensures config == old(config)
    {
      saveCount := saveCount + 1;
    }
  }

  const NoneMessage := "Operation cannot be None"
  const MissingCapabilitiesMessage := "Calculator must have 'config' and 'save_history' attributes"
  const AutoSavedMessage := "History auto-saved"

  /**
   * The line the logging observer writes for a calculation: the record's string
   * form behind a fixed prefix, with a space between the operation name and its
   * operands.
   */
  function PerformedMessage(c: Calculation, rt: Runtime): (line: string)
    ensures line == "Calculation performed: " + c.operation + " " + Calculations.Str(c, rt)[|c.operation|..]
  {
    var tail := "(" + rt.showDecimal(c.operand1) + ", " + rt.showDecimal(c.operand2) + ") = " +
                rt.showDecimal(c.result);
    assert Calculations.Str(c, rt) == c.operation + tail;
    "Calculation performed: " + c.operation + " " + tail
  }

  class LoggingObserver {

    /** `update`: refuse a missing record, otherwise log exactly one line for it. */
    method Update(record: Option<Calculation>, log: Logger, rt: Runtime) returns (r: Outcome<Error>)
      modifies log
      ensures record.None? ==> r == Fail(Error(AttributeError, NoneMessage)) && log.infos == old(log.infos)
      ensures record.Some? ==> r == Pass && log.infos == old(log.infos) + [PerformedMessage(record.value, rt)]
    {
      if record.None? {
        return Fail(Error(AttributeError, NoneMessage));
      }
      log.Info(PerformedMessage(record.value, rt));
      r := Pass;
    }
  }

  class AutoSaveObserver {
    const calculator: Host

    /** The host passed the attribute check of `__init__`. */
    predicate Valid() {
      calculator.hasConfig && calculator.hasSaveHistory
    }

    constructor (calculator: Host)
      requires calculator.hasConfig && calculator.hasSaveHistory
      ensures this.calculator == calculator && Valid()
    {
      this.calculator := calculator;
    }

    /**
     * `update`: refuse a missing record before looking at the configuration;
     * otherwise save exactly once, and log it, when auto-save is on, and
     * change nothing when it is off.
     */
    method Update(record: Option<Calculation>, log: Logger) returns (r: Outcome<Error>)
      requires Valid()
      modifies calculator, log
      ensures record.None? ==> r == Fail(Error(AttributeError, NoneMessage))
      ensures record.Some? ==> r == Pass
      ensures calculator.config == old(calculator.config)
      ensures record.Some? && old(calculator.config.autoSave) ==>
        calculator.saveCount == old(calculator.saveCount) + 1 && log.infos == old(log.infos) + [AutoSavedMessage]
      ensures record.None? || !old(calculator.config.autoSave) ==>
        calculator.saveCount == old(calculator.saveCount) && log.infos == old(log.infos)
    {
      if record.None? {
        return Fail(Error(AttributeError, NoneMessage));
      }
      if calculator.config.autoSave {
        calculator.SaveHistory();
        log.Info(AutoSavedMessage);
      }
      r := Pass;
    }
  }

  /**
   * `AutoSaveObserver(calculator)`: raises TypeError unless the host has both
   * attributes, and otherwise holds exactly the host it was given.
   */
  method NewAutoSaveObserver(host: Host) returns (r: Result<AutoSaveObserver, Error>)
    ensures r.Success? <==> host.hasConfig && host.hasSaveHistory
    ensures r.Success? ==> fresh(r.value) && r.value.calculator == host && r.value.Valid()
    ensures r.Failure? ==> r.error == Error(TypeError, MissingCapabilitiesMessage)
  {
    if !host.hasConfig || !host.hasSaveHistory {
      return Failure(Error(TypeError, MissingCapabilitiesMessage));
    }
    var observer := new AutoSaveObserver(host);
    r := Success(observer);
  }
}
