/** PowerShellJob (ModularInputsModule): the scheduled job that runs one
    stanza's script. The static, shared InitialSessionState receives the
    global variables once; each run works on a clone of it that also holds
    `$SplunkStanzaName`, hands the script's output to the logger
    and then logs one error per error record. What the job asks of its
    ILogger is modelled as the sequence of calls it makes. The variables
    are meant to be read-only, but the options they are built with are
    ScopedItemOptions.None, so the model builds them writable, as the job
    does. */
module PowerShellJobs {
  import opened Common
  import opened PsModel
  import opened ScriptRunner
  import Logging

  // ---------------------------------------------------------------------
  // The options of the variables the job creates.

  /** The options the source passes, `Constant & ReadOnly`: the two flags
      share no bit, so this is ScopedItemOptions.None. */
  function OptionsAsWritten(): (r: bv8)
    ensures r == OptionsNone
    ensures !IsReadOnly(r) && !IsConstant(r)
  {
    Constant & ReadOnly
  }

  /** The evidently intended options, `Constant | ReadOnly`. */
  function ReadOnlyOptions(): (r: bv8)
    ensures IsReadOnly(r) && IsConstant(r)
  {
    Constant | ReadOnly
  }

  /** The variable entry as the source builds it: a script can overwrite it. */
  function EntryAsWritten(name: string, value: Option<string>, description: string): (e: VariableEntry)
    ensures e.name == name && e.value == value && e.description == description
    ensures !IsReadOnly(e.options) && !IsConstant(e.options)
  {
    VariableEntry(name, value, description, OptionsAsWritten())
  }

  /** The variable entry as intended: constant and read-only. */
  function ReadOnlyEntry(name: string, value: Option<string>, description: string): (e: VariableEntry)
    ensures e.name == name && e.value == value && e.description == description
    ensures IsReadOnly(e.options) && IsConstant(e.options)
  {
    VariableEntry(name, value, description, ReadOnlyOptions())
  }

  /** The two entries differ only in their options. */
  lemma AsWrittenIsNotReadOnly(name: string, value: Option<string>, description: string)
    ensures EntryAsWritten(name, value, description) != ReadOnlyEntry(name, value, description)
    ensures EntryAsWritten(name, value, description).(options := ReadOnlyOptions()) ==
            ReadOnlyEntry(name, value, description)
  {
  }

  // ---------------------------------------------------------------------
  // The shared session state.

  /** An InitialSessionState, reduced to its list of variables. */
  class SessionState {
    var variables: seq<VariableEntry>

    constructor (variables: seq<VariableEntry>)
      ensures this.variables == variables
    {
      this.variables := variables;
    }

    /** InitialSessionState.Clone(): a new state with the same variables. */
    method Clone() returns (c: SessionState)
      ensures fresh(c) && c.variables == variables
    {
      c := new SessionState(variables);
    }

    /** Variables.Add(entry) */
    method AddVariable(v: VariableEntry)
      modifies this
      ensures variables == old(variables) + [v]
    {
      variables := variables + [v];
    }
  }

  /** The entries built from (name, value, description) tuples, in order,
      with the options as written: none of them is read-only or constant. */
  function EntriesAsWritten(values: seq<(string, string, string)>): (r: seq<VariableEntry>)
    ensures |r| == |values|
    ensures forall i :: 0 <= i < |values| ==>
              r[i] == EntryAsWritten(values[i].0, Some(values[i].1), values[i].2)
    ensures forall i :: 0 <= i < |values| ==> !IsReadOnly(r[i].options) && !IsConstant(r[i].options)
    decreases |values|
  {
    if values == [] then []
    else
      var n := |values| - 1;
      EntriesAsWritten(values[..n]) + [EntryAsWritten(values[n].0, Some(values[n].1), values[n].2)]
  }

  /** AddReadOnlyVariables: one entry per tuple is appended to the shared
      state, in input order, with the options as written. */
  method AddReadOnlyVariables(iss: SessionState, values: seq<(string, string, string)>)
    modifies iss
    ensures iss.variables == old(iss.variables) + EntriesAsWritten(values)
  {
    var i := 0;
    while i < |values|
      invariant 0 <= i <= |values|
      invariant iss.variables == old(iss.variables) + EntriesAsWritten(values[..i])
    {
      var variable := values[i];
      iss.AddVariable(EntryAsWritten(variable.0, Some(variable.1), variable.2));
      assert values[..i + 1][..i] == values[..i];
      ghost var before := i;
      i := i + 1;
      assert values[..i] == values[..before + 1];
    }
    assert values[..i] == values;
  }

  // ---------------------------------------------------------------------
  // What one run asks of the logger.

  /** One call on the job's ILogger. */
  datatype LoggerCall =
    | WriteLog(level: Logging.LogLevel, format: string, args: seq<string>)
    | WriteOutput(collection: seq<Option<PsObject>>, stanza: string)

  /** How a run ends: normally, or with a JobExecutionException wrapping an
      exception with the given message. */
  datatype JobOutcome = Completed | Failed(message: string)

  const ErrorFormat: string :=
    "Stanza=\"{0}\"\nSCRIPT=\"{1}\"\nCATEGORY=\"{2}\"\nTargetName=\"{3}\"\nTargetType=\"{4}\"\n" +
    "Activity=\"{5}\"\nReason=\"{6}\"\nDetails=\"{7}\"\n"

  const MissingScript: string := "Missing 'script' parameter."

  /** The Error log of one error record. */
  function ErrorLog(stanza: string, command: string, e: ErrorRecord): LoggerCall {
    WriteLog(Logging.Error, ErrorFormat,
             [stanza, command, e.category, e.targetName, e.targetType, e.activity, e.reason, Details(e)])
  }

  /** The Error logs of the error records, one each, in order. */
  function ErrorLogs(stanza: string, command: string, errors: seq<ErrorRecord>): (r: seq<LoggerCall>)
    ensures |r| == |errors|
    ensures forall i :: 0 <= i < |errors| ==> r[i] == ErrorLog(stanza, command, errors[i])
    decreases |errors|
  {
    if errors == [] then []
    else
      var n := |errors| - 1;
      ErrorLogs(stanza, command, errors[..n]) + [ErrorLog(stanza, command, errors[n])]
  }

  /** The log written when an exception is caught, before it is rethrown. */
  function ExceptionLog(message: string): LoggerCall {
    WriteLog(Logging.Error, "PowerShell Exception:\r\n" + message, [])
  }

  /** The calls Execute(iss, command, stanzaName) makes. */
  function ScriptCalls(result: RunResult, command: string, stanza: string): seq<LoggerCall> {
    match result
    case Threw(message) => [ExceptionLog(message)]
    case Ran(inv) =>
      [WriteOutput(inv.outputs, stanza)] +
      (if inv.hadErrors then ErrorLogs(stanza, command, inv.errors) else [])
  }

  function ScriptOutcome(result: RunResult): JobOutcome {
    if result.Threw? then Failed(result.message) else Completed
  }

  /** Execute(iss, command, stanzaName), for a session holding `variables`. */
  method ExecuteScript(variables: seq<VariableEntry>, command: string, stanzaName: string, runner: Runner)
    returns (calls: seq<LoggerCall>, outcome: JobOutcome)
    ensures calls == ScriptCalls(runner(variables, command), command, stanzaName)
    ensures outcome == ScriptOutcome(runner(variables, command))
  {
    var result := runner(variables, command);
    if result.Threw? {
      calls := [ExceptionLog(result.message)];
      outcome := Failed(result.message);
      return;
    }
    var ps := result.invocation;
    calls := [WriteOutput(ps.outputs, stanzaName)];
    outcome := Completed;
    if !ps.hadErrors {
      assert calls + [] == calls;
      return;
    }
    var i := 0;
    while i < |ps.errors|
      invariant 0 <= i <= |ps.errors|
      invariant calls == [WriteOutput(ps.outputs, stanzaName)] + ErrorLogs(stanzaName, command, ps.errors[..i])
    {
      var error := ps.errors[i];
      var details := if error.errorDetails.Some? then error.errorDetails.value else error.exceptionMessage;
      calls := calls + [WriteLog(Logging.Error, ErrorFormat,
                                 [stanzaName, command, error.category, error.targetName, error.targetType,
                                  error.activity, error.reason, details])];
      assert ps.errors[..i + 1][..i] == ps.errors[..i];
      ghost var before := i;
      i := i + 1;
      assert ps.errors[..i] == ps.errors[..before + 1];
    }
    assert ps.errors[..i] == ps.errors;
  }

  /** The outputs reach the logger first and once; every later call is an
      Error log, and there is none when the script had no errors. */
  lemma OutputsBeforeErrors(inv: Invocation, command: string, stanza: string)
    ensures var calls := ScriptCalls(Ran(inv), command, stanza);
            |calls| >= 1 && calls[0] == WriteOutput(inv.outputs, stanza) &&
            (forall i :: 1 <= i < |calls| ==> calls[i].WriteLog? && calls[i].level == Logging.Error) &&
            (!inv.hadErrors ==> |calls| == 1)
  {
    var calls := ScriptCalls(Ran(inv), command, stanza);
    if inv.hadErrors {
      var logs := ErrorLogs(stanza, command, inv.errors);
      forall i | 1 <= i < |calls|
        ensures calls[i].WriteLog? && calls[i].level == Logging.Error
      {
        assert calls[i] == logs[i - 1];
      }
    }
  }

  /** One Error log per error record, in order, carrying the stanza name,
      the script and the record's details. */
  lemma ErrorsAreTagged(inv: Invocation, command: string, stanza: string, i: nat)
    requires inv.hadErrors && i < |inv.errors|
    ensures var calls := ScriptCalls(Ran(inv), command, stanza);
            |calls| == 1 + |inv.errors| &&
            calls[i + 1].WriteLog? && calls[i + 1].format == ErrorFormat &&
            |calls[i + 1].args| == 8 &&
            calls[i + 1].args[0] == stanza && calls[i + 1].args[1] == command &&
            calls[i + 1].args[7] == Details(inv.errors[i])
  {
    var logs := ErrorLogs(stanza, command, inv.errors);
    assert ScriptCalls(Ran(inv), command, stanza)[i + 1] == logs[i];
  }

  /** An exception from the runner is logged once and ends the run with a
      failure; nothing reaches WriteOutput. */
  lemma ExceptionLoggedThenRethrown(message: string, command: string, stanza: string)
    ensures ScriptCalls(Threw(message), command, stanza) == [ExceptionLog(message)]
    ensures ScriptOutcome(Threw(message)) == Failed(message)
    ensures forall c :: c in ScriptCalls(Threw(message), command, stanza) ==> !c.WriteOutput?
  {
  }

  // ---------------------------------------------------------------------
  // The job.

  /** The logger a job holds. */
  datatype LoggerChoice = NoLogger | Resolved(typeName: string) | Console

  /** JobDataMap.GetString: None when the key is absent. */
  function GetString(data: map<string, string>, key: string): Option<string> {
    if key in data then Some(data[key]) else None
  }

  /** The `$SplunkStanzaName` variable each run adds to its clone, with the
      options as written. */
  function StanzaVariable(value: Option<string>): VariableEntry {
    EntryAsWritten("SplunkStanzaName", value, "The name of the inputs.conf stanza that defined this script")
  }

  function Banner(name: string): LoggerCall {
    WriteLog(Logging.Info, "--- Stanza: " + name + " ---", [])
  }

  class PowerShellJob {
    var logger: LoggerChoice
    /** The static Iss every job shares. */
    const iss: SessionState

    constructor (iss: SessionState)
      ensures this.iss == iss && logger == NoLogger
    {
      this.iss := iss;
      logger := NoLogger;
    }

    /** SetLogger(typeName): a type that resolves is installed, and then
        replaced by a ConsoleLogger in every case. */
    method SetLogger(typeName: Option<string>, typeExists: string -> bool)
      modifies this
      ensures logger == Console
    {
      if typeName.Some? {
        if typeExists(typeName.value) {
          logger := Resolved(typeName.value);
        }
      }
      logger := Console;
    }

    /** Execute(context): the job's data map, its key name, the engine, the
        type lookup SetLogger uses, and the exception (if any) that setting
        PSModulePath raises. */
    method Execute(data: map<string, string>, name: string, runner: Runner,
                   typeExists: string -> bool, envFailure: string -> Option<string>)
      returns (calls: seq<LoggerCall>, outcome: JobOutcome)
      modifies this
      ensures logger == Console
      ensures iss.variables == old(iss.variables)
      ensures GetString(data, "script").None? ==>
                calls == [WriteLog(Logging.Error, MissingScript, [])] && outcome == Completed
      ensures var path := GetString(data, "PSModulePath");
              GetString(data, "script").Some? && path.Some? && envFailure(path.value).Some? ==>
                calls == [Banner(name), ExceptionLog(envFailure(path.value).value)] &&
                outcome == Failed(envFailure(path.value).value)
      ensures var command := GetString(data, "script");
              var path := GetString(data, "PSModulePath");
              var session := old(iss.variables) + [StanzaVariable(GetString(data, "SplunkStanzaName"))];
              command.Some? && (path.None? || envFailure(path.value).None?) ==>
                calls == [Banner(name)] + ScriptCalls(runner(session, command.value), command.value, name) &&
                outcome == ScriptOutcome(runner(session, command.value))
    {
      var command := GetString(data, "script");
      var clone := iss.Clone();
      clone.AddVariable(StanzaVariable(GetString(data, "SplunkStanzaName")));
      SetLogger(GetString(data, "ILogger"), typeExists);
      if command.None? {
        calls := [WriteLog(Logging.Error, MissingScript, [])];
        outcome := Completed;
        return;
      }
      calls := [Banner(name)];
      var path := GetString(data, "PSModulePath");
      if path.Some? && envFailure(path.value).Some? {
        calls := calls + [ExceptionLog(envFailure(path.value).value)];
        outcome := Failed(envFailure(path.value).value);
        return;
      }
      var more;
      more, outcome := ExecuteScript(clone.variables, command.value, name, runner);
      calls := calls + more;
    }
  }

  /** The clone a run hands to the engine ends with `$SplunkStanzaName`,
      after every shared variable; as written, a script can overwrite it. */
  lemma RunSessionHoldsStanzaName(shared: seq<VariableEntry>, value: Option<string>)
    ensures var session := shared + [StanzaVariable(value)];
            session[..|shared|] == shared && |session| == |shared| + 1 &&
            session[|shared|].name == "SplunkStanzaName" && session[|shared|].value == value &&
            !IsReadOnly(session[|shared|].options) && !IsConstant(session[|shared|].options)
  {
    assert (shared + [StanzaVariable(value)])[..|shared|] == shared;
  }
}
