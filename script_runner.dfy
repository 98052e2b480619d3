/** The PowerShell engine as the services see it: a function from the
    session's variables and a script to what `Invoke()` returns (the output
    objects, `HadErrors` and the `Streams.Error` records), or the message of
    the exception `Invoke()` raises. The engine itself is not modelled. */
module ScriptRunner {
  import opened Common
  import opened PsModel

  /** The ScopedItemOptions flags (a [Flags] enumeration). */
  const OptionsNone: bv8 := 0
  const ReadOnly: bv8 := 1
  const Constant: bv8 := 2

  predicate IsReadOnly(options: bv8) {
    options & ReadOnly != 0
  }

  predicate IsConstant(options: bv8) {
    options & Constant != 0
  }

  /** A SessionStateVariableEntry: name, value (None: null), description
      and options. */
  datatype VariableEntry = VariableEntry(name: string, value: Option<string>, description: string, options: bv8)

  /** The parts of an ErrorRecord the services report: the CategoryInfo
      fields (already converted with ToString), ErrorDetails.Message when
      ErrorDetails is not null, and Exception.Message. */
  datatype ErrorRecord = ErrorRecord(
    category: string, targetName: string, targetType: string, activity: string, reason: string,
    errorDetails: Option<string>, exceptionMessage: string)

  /** `error.ErrorDetails != null ? error.ErrorDetails.Message : error.Exception.Message` */
  function Details(e: ErrorRecord): string {
    if e.errorDetails.Some? then e.errorDetails.value else e.exceptionMessage
  }

  /** What a completed `Invoke()` leaves behind. */
  datatype Invocation = Invocation(outputs: seq<Option<PsObject>>, hadErrors: bool, errors: seq<ErrorRecord>)

  datatype RunResult = Ran(invocation: Invocation) | Threw(message: string)

  /** `PowerShell.Create(iss).AddScript(command).Invoke()` */
  type Runner = (seq<VariableEntry>, string) -> RunResult
}
