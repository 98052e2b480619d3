/** The logger interface of ModularInputsModule (ILogger.cs): the log levels,
    BaseLogger's forwarding of a collection of outputs to the per-object
    WriteOutput, and the pre-formatted bypass that ConsoleLogger and
    SplunkLogger share. */
module Logging {
  import opened Common
  import opened PsModel

  /** The log levels. `Output` is the threshold SplunkLogger compares
      against; `Unnamed` is any other value of the enumeration, carrying the
      text its ToString() gives. */
  datatype LogLevel = All | Trace | Debug | Info | Warn | Error | Fatal | Off | Output | Unnamed(text: string)

  /** LogLevel.ToString(). */
  function LevelName(level: LogLevel): string {
    match level
    case All => "All"
    case Trace => "Trace"
    case Debug => "Debug"
    case Info => "Info"
    case Warn => "Warn"
    case Error => "Error"
    case Fatal => "Fatal"
    case Off => "Off"
    case Output => "Output"
    case Unnamed(text) => text
  }

  /** The Common.Logging severities a named level maps to. */
  predicate IsSeverity(level: LogLevel) {
    level == Debug || level == Info || level == Warn || level == Error || level == Fatal
  }

  /** An element BaseLogger.WriteOutput passes on: not null, and wrapping a
      non-null base object. */
  predicate Survives(o: Option<PsObject>) {
    o.Some? && !o.value.base.NullBase?
  }

  /** The objects BaseLogger.WriteOutput passes on, in collection order. */
  function Forwarded(c: seq<Option<PsObject>>): (r: seq<PsObject>)
    ensures |r| <= |c|
    ensures forall j :: 0 <= j < |r| ==> !r[j].base.NullBase?
    ensures forall i :: 0 <= i < |c| && Survives(c[i]) ==> c[i].value in r
    decreases |c|
  {
    if c == [] then []
    else
      var n := |c| - 1;
      assert c == c[..n] + [c[n]];
      Forwarded(c[..n]) + (if Survives(c[n]) then [c[n].value] else [])
  }

  lemma ForwardedStep(c: seq<Option<PsObject>>, i: nat)
    requires i < |c|
    ensures Forwarded(c[..i + 1]) == Forwarded(c[..i]) + (if Survives(c[i]) then [c[i].value] else [])
  {
    assert c[..i + 1][..i] == c[..i];
  }

  /** Filtering distributes over concatenation: what is forwarded from two
      collections in a row is what each forwards, in turn. */
  lemma {:induction false} ForwardedAppend(a: seq<Option<PsObject>>, b: seq<Option<PsObject>>)
    ensures Forwarded(a + b) == Forwarded(a) + Forwarded(b)
    decreases |b|
  {
    if b == [] {
      assert a + b == a;
    } else {
      var n := |b| - 1;
      assert (a + b)[..|a + b| - 1] == a + b[..n];
      assert (a + b)[|a + b| - 1] == b[n];
      ForwardedAppend(a, b[..n]);
    }
  }

  /** Nothing is forwarded that the collection does not hold. */
  lemma {:induction false} ForwardedFromCollection(c: seq<Option<PsObject>>)
    ensures forall j :: 0 <= j < |Forwarded(c)| ==> Some(Forwarded(c)[j]) in c
    decreases |c|
  {
    if c != [] {
      var n := |c| - 1;
      ForwardedFromCollection(c[..n]);
      ghost var front := Forwarded(c[..n]);
      forall j | 0 <= j < |Forwarded(c)|
        ensures Some(Forwarded(c)[j]) in c
      {
        if j < |front| {
          assert Forwarded(c)[j] == front[j];
          assert Some(front[j]) in c[..n];
        } else {
          assert Forwarded(c)[j] == c[n].value;
        }
      }
    }
  }

  /** A collection without nulls is forwarded whole. */
  lemma {:induction false} ForwardedKeepsNonNull(c: seq<Option<PsObject>>)
    requires forall i :: 0 <= i < |c| ==> Survives(c[i])
    ensures |Forwarded(c)| == |c|
    ensures forall i :: 0 <= i < |c| ==> Forwarded(c)[i] == c[i].value
    decreases |c|
  {
    if c != [] {
      var n := |c| - 1;
      assert Survives(c[n]);
      assert forall i :: 0 <= i < n ==> c[..n][i] == c[i];
      ForwardedKeepsNonNull(c[..n]);
      ghost var front := Forwarded(c[..n]);
      assert Forwarded(c) == front + [c[n].value];
      forall i | 0 <= i < |c|
        ensures Forwarded(c)[i] == c[i].value
      {
        if i < n {
          assert Forwarded(c)[i] == front[i] == c[..n][i].value;
        }
      }
    }
  }

  /** BaseLogger.WriteOutput(outputCollection, stanza), for a logger whose
      per-object WriteOutput produces `write(output, stanza)`. */
  method WriteOutputs<T>(write: (PsObject, Option<string>) -> T, collection: seq<Option<PsObject>>,
                         stanza: Option<string>)
    returns (written: seq<T>)
    ensures |written| == |Forwarded(collection)|
    ensures forall i :: 0 <= i < |written| ==> written[i] == write(Forwarded(collection)[i], stanza)
  {
    written := [];
    var k := 0;
    while k < |collection|
      invariant 0 <= k <= |collection|
      invariant |written| == |Forwarded(collection[..k])|
      invariant forall i :: 0 <= i < |written| ==> written[i] == write(Forwarded(collection[..k])[i], stanza)
    {
      var output := collection[k];
      ForwardedStep(collection, k);
      if output.Some? {
        var psOutput := output.value;
        if !psOutput.base.NullBase? {
          written := written + [write(psOutput, stanza)];
        }
      }
      ghost var before := k;
      k := k + 1;
      assert collection[..k] == collection[..before + 1];
    }
    assert collection[..k] == collection;
  }

  /** The text WriteOutput emits for one object: a string carrying a
      SplunkPreFormatted marker that casts to `true` verbatim, anything else
      through XmlFormatter.ConvertToXml (`toXml`). */
  function OutputText(toXml: (PsObject, Option<string>) -> string, o: PsObject, stanza: Option<string>): string {
    if IsPreFormatted(o) then o.base.text else toXml(o, stanza)
  }

  /** The bypass applies to exactly one kind of object; a marker that is
      false, that is not a bool, or whose getter throws (the exception is
      swallowed), an absent marker and a non-string base all serialise. */
  lemma BypassCases(toXml: (PsObject, Option<string>) -> string, o: PsObject, stanza: Option<string>)
    ensures var m := FindProperty(o.properties, PreFormattedMarker);
            OutputText(toXml, o, stanza) == o.base.text <== o.base.Str? && m.Some? && CastBool(m.value.value) == Some(true)
    ensures var m := FindProperty(o.properties, PreFormattedMarker);
            !o.base.Str? || m.None? || CastBool(m.value.value) != Some(true) ==>
              OutputText(toXml, o, stanza) == toXml(o, stanza)
  {
  }
}

/** ConsoleLogger (ConsoleLogger.cs): log messages go to the Common.Logging
    loggers "output" and "debug"; outputs go to "output" at trace level. */
module ConsoleLogging {
  import opened Common
  import opened PsModel
  import opened Logging

  datatype Channel = OutputLog | DebugLog

  /** One call into a Common.Logging logger: `...Format(format, args)` at a
      severity, or a plain message. */
  datatype Entry =
    | Formatted(channel: Channel, severity: LogLevel, format: string, args: seq<string>)
    | Plain(channel: Channel, severity: LogLevel, text: string)

  /** What WriteLog does: one entry, nothing (Off), or an
      ArgumentOutOfRangeException for a level outside the switch. */
  datatype LogResult = Logged(entry: Entry) | Silent | OutOfRange

  function WriteLog(level: LogLevel, format: string, args: seq<string>): (r: LogResult)
    ensures r.Logged? ==> r.entry == Formatted(r.entry.channel, r.entry.severity, format, args)
    ensures (r.Logged? && r.entry.channel == OutputLog) <==> (level == All || level == Trace)
    ensures (r.Logged? && r.entry.channel == DebugLog) <==> IsSeverity(level)
    ensures r.Logged? && r.entry.channel == OutputLog ==> r.entry.severity == Trace
    ensures r.Logged? && r.entry.channel == DebugLog ==> r.entry.severity == level
    ensures r.Silent? <==> level == Off
    ensures r.OutOfRange? <==> (level == Output || level.Unnamed?)
  {
    match level
    case All => Logged(Formatted(OutputLog, Trace, format, args))
    case Trace => Logged(Formatted(OutputLog, Trace, format, args))
    case Debug => Logged(Formatted(DebugLog, Debug, format, args))
    case Info => Logged(Formatted(DebugLog, Info, format, args))
    case Warn => Logged(Formatted(DebugLog, Warn, format, args))
    case Error => Logged(Formatted(DebugLog, Error, format, args))
    case Fatal => Logged(Formatted(DebugLog, Fatal, format, args))
    case Off => Silent
    case _ => OutOfRange
  }

  /** WriteOutput(output, stanza): exactly one trace message on "output". */
  function WriteOutput(toXml: (PsObject, Option<string>) -> string, output: PsObject, stanza: Option<string>): (r: Entry)
    ensures r.Plain? && r.channel == OutputLog && r.severity == Trace
    ensures IsPreFormatted(output) ==> r.text == output.base.text
    ensures !IsPreFormatted(output) ==> r.text == toXml(output, stanza)
  {
    Plain(OutputLog, Trace, OutputText(toXml, output, stanza))
  }
}

/** SplunkLogger (SplunkLogger.cs): log messages above the Output level go to
    standard error as `LEVEL message`, the rest to standard output as the
    bare message; outputs go to standard output. */
module SplunkLogging {
  import opened Common
  import opened PsModel
  import opened Logging

  /** The message: `string.Format(format, args)` (`fmt`) only when there
      are arguments. */
  function Message(fmt: (string, seq<string>) -> string, format: string, args: seq<string>): string {
    if |args| > 0 then fmt(format, args) else format
  }

  /** WriteLog(level, format, args); `rank` is the order of the enumeration. */
  function WriteLog(rank: LogLevel -> int, fmt: (string, seq<string>) -> string,
                    level: LogLevel, format: string, args: seq<string>): (r: Line)
    ensures r.Err? <==> rank(level) > rank(Output)
    ensures r.Out? ==> r.text == Message(fmt, format, args)
    ensures r.Err? ==> var n := |LevelName(level)|;
              |r.text| > n && r.text[n] == ' ' && r.text[n + 1..] == Message(fmt, format, args) &&
              EqualsIgnoreCase(r.text[..n], LevelName(level)) &&
              forall k :: 0 <= k < n ==> !('a' <= r.text[k] <= 'z')
  {
    var message := Message(fmt, format, args);
    if rank(level) > rank(Output) then
      var name := Upper(LevelName(level));
      UpperKeepsLowerCase(LevelName(level));
      assert (name + " " + message)[..|name|] == name;
      assert (name + " " + message)[|name| + 1..] == message;
      Err(name + " " + message)
    else Out(message)
  }

  /** Without arguments the format text is written unchanged, braces and
      all, so a message need not be a valid composite format. */
  lemma NoArgumentsKeepsFormat(rank: LogLevel -> int, fmt: (string, seq<string>) -> string,
                               level: LogLevel, format: string)
    ensures var r := WriteLog(rank, fmt, level, format, []);
            (r.Out? && r.text == format) ||
            (r.Err? && r.text[|LevelName(level)| + 1..] == format)
  {
  }

  /** WriteOutput(output, stanza): exactly one standard-output line. */
  function WriteOutput(toXml: (PsObject, Option<string>) -> string, output: PsObject, stanza: Option<string>): (r: Line)
    ensures r.Out?
    ensures IsPreFormatted(output) ==> r.text == output.base.text
    ensures !IsPreFormatted(output) ==> r.text == toXml(output, stanza)
  {
    Out(OutputText(toXml, output, stanza))
  }

  /** BaseLogger.WriteOutput over a SplunkLogger writes one standard-output
      line per forwarded object and nothing else. */
  lemma OutputsAreOneLineEach(toXml: (PsObject, Option<string>) -> string,
                              collection: seq<Option<PsObject>>, stanza: Option<string>, lines: seq<Line>)
    requires |lines| == |Forwarded(collection)|
    requires forall i :: 0 <= i < |lines| ==> lines[i] == WriteOutput(toXml, Forwarded(collection)[i], stanza)
    ensures |OutTexts(lines)| == |Forwarded(collection)|
    ensures forall i :: 0 <= i < |lines| ==> OutTexts(lines)[i] == OutputText(toXml, Forwarded(collection)[i], stanza)
  {
    AllOut(lines);
  }

  lemma {:induction false} AllOut(lines: seq<Line>)
    requires forall i :: 0 <= i < |lines| ==> lines[i].Out?
    ensures |OutTexts(lines)| == |lines|
    ensures forall i :: 0 <= i < |lines| ==> OutTexts(lines)[i] == lines[i].text
    decreases |lines|
  {
    if lines != [] {
      var n := |lines| - 1;
      assert forall i :: 0 <= i < n ==> lines[..n][i] == lines[i];
      AllOut(lines[..n]);
    }
  }
}
