/** The original entry point of the service (Program.cs): instead of
    scheduling, it runs every stanza's "script" parameter once, in document
    order, writing each output object as an event between `<stream>` and
    `</stream>`, and each error record as two error lines. An exception
    (a missing attribute, a script the engine refuses, a null output) is
    not caught and ends the process where it happens. */
module ProgramMain {
  import opened Common
  import opened XmlTree
  import opened PsModel
  import opened ScriptRunner
  import opened CommandLine
  import LegacyFormat
  import ServiceXmlFormatter

  const Usage: string :=
    "Invalid Arguments. Valid Invocation are:\n  ps.exe --validate_arguments\n  ps.exe --scheme\n  ps.exe\n"

  const InvalidInput: string := "input is not valid input xml"

  const MissingScript: string := "Missing 'script' parameter."

  /** The world the program runs in: the host, the clock and parser the
      formatter uses, the formatter's two application settings, and the
      PowerShell engine. */
  datatype Context = Context(host: Host, rt: Runtime, flags: LegacyFormat.Flags, runner: Runner)

  // ---------------------------------------------------------------------
  // One stanza.

  /** `stanza.Descendants("param").FirstOrDefault(p => p.Attribute("name").Value == "script")`:
      the first parameter named "script", none, or a null reference when a
      parameter without a name attribute is reached first. */
  datatype Lookup = Found(param: XNode) | NotFound | NameMissing

  function FindScript(params: seq<XNode>): (r: Lookup)
    ensures r.Found? ==>
              exists i :: 0 <= i < |params| && params[i] == r.param && Attribute(r.param, "name") == Some("script") &&
                          forall j :: 0 <= j < i ==> Attribute(params[j], "name").Some? &&
                                                     Attribute(params[j], "name") != Some("script")
    ensures r.NotFound? <==>
              forall j :: 0 <= j < |params| ==> Attribute(params[j], "name").Some? &&
                                                Attribute(params[j], "name") != Some("script")
  {
    if params == [] then NotFound
    else
      match Attribute(params[0], "name")
      case None => NameMissing
      case Some(n) =>
        if n == "script" then Found(params[0])
        else
          var r := FindScript(params[1..]);
          assert forall j :: 1 <= j < |params| ==> params[j] == params[1..][j - 1];
          r
  }

  predicate HasNull(outputs: seq<Option<PsObject>>) {
    exists i :: 0 <= i < |outputs| && outputs[i].None?
  }

  /** The output objects the formatter gets through before the first null. */
  function NonNull(outputs: seq<Option<PsObject>>): (r: seq<PsObject>)
    ensures |r| <= |outputs|
    ensures forall i :: 0 <= i < |r| ==> outputs[i] == Some(r[i])
    ensures |r| < |outputs| <==> HasNull(outputs)
    ensures |r| < |outputs| ==> outputs[|r|].None?
  {
    if outputs == [] then []
    else if outputs[0].None? then []
    else
      var rest := NonNull(outputs[1..]);
      assert HasNull(outputs[1..]) ==> HasNull(outputs) by {
        if HasNull(outputs[1..]) {
          var i :| 0 <= i < |outputs[1..]| && outputs[1..][i].None?;
          assert outputs[i + 1].None?;
        }
      }
      assert HasNull(outputs) ==> HasNull(outputs[1..]) by {
        if HasNull(outputs) {
          var i :| 0 <= i < |outputs| && outputs[i].None?;
          assert outputs[1..][i - 1].None?;
        }
      }
      [outputs[0].value] + rest
  }

  /** `"{0}: ({1}:{2}):[{3}], {4}"` over the CategoryInfo fields. */
  function CategoryLine(e: ErrorRecord): string {
    e.category + ": (" + e.targetName + ":" + e.targetType + "):[" + e.activity + "], " + e.reason
  }

  /** The two error lines of each error record, in order: the script and
      the error's message, then its category line. */
  function ErrorLogs(command: string, errors: seq<ErrorRecord>): (r: seq<Effect>)
    ensures |r| == 2 * |errors| && Continues(r) && Silent(r)
    ensures forall k :: 0 <= k < |errors| ==>
              r[2 * k] == Error(command + " " + Details(errors[k])) && r[2 * k + 1] == Error(CategoryLine(errors[k]))
    decreases |errors|
  {
    if errors == [] then []
    else
      var n := |errors| - 1;
      var front := ErrorLogs(command, errors[..n]);
      assert forall k :: 0 <= k < n ==> errors[..n][k] == errors[k];
      front + [Error(command + " " + Details(errors[n])), Error(CategoryLine(errors[n]))]
  }

  /** The effects of one stanza, and whether an exception escaped it. */
  datatype StanzaRun = StanzaRun(effects: seq<Effect>, crashed: bool)

  /** A run that is well formed: an escaped exception is its last effect
      and the only ending in it. */
  predicate WellEnded(r: StanzaRun) {
    if r.crashed then |r.effects| > 0 && r.effects[|r.effects| - 1].Crash? && Continues(r.effects[..|r.effects| - 1])
    else Continues(r.effects)
  }

  /** InvokeStanza(stanza). */
  function Invoke(ctx: Context, stanza: XNode): (r: StanzaRun)
    ensures WellEnded(r)
  {
    match Attribute(stanza, "name")
    case None => StanzaRun([Crash(ctx.host.nullReference)], true)
    case Some(name) =>
      var banner := Info("--- Stanza: " + name + " ---");
      match FindScript(Descendants(stanza, "param"))
      case NameMissing => StanzaRun([banner, Crash(ctx.host.nullReference)], true)
      case NotFound => StanzaRun([banner, Error(MissingScript)], false)
      case Found(p) =>
        var run := Script(ctx, name, XmlTree.Value(p));
        QuietPrefix([banner], run.effects);
        StanzaRun([banner] + run.effects, run.crashed)
  }

  /** Running the script `command` of the stanza `name` and writing what
      it produced. */
  function Script(ctx: Context, name: string, command: string): (r: StanzaRun)
    ensures WellEnded(r)
  {
    match ctx.runner([], command)
    case Threw(message) => StanzaRun([Crash(message)], true)
    case Ran(inv) =>
      var shown := Writes(ServiceXmlFormatter.Transcript(ctx.rt, ctx.flags, NonNull(inv.outputs), Some(name)));
      if HasNull(inv.outputs) then
        var effects := shown + [Crash(ctx.host.nullReference)];
        assert effects[..|effects| - 1] == shown;
        StanzaRun(effects, true)
      else
        var errors := if inv.hadErrors then ErrorLogs(command, inv.errors) else [];
        ContinuesAppend(shown, errors);
        StanzaRun(shown + errors, false)
  }

  method InvokeStanza(ctx: Context, stanza: XNode) returns (effects: seq<Effect>, crashed: bool)
    ensures StanzaRun(effects, crashed) == Invoke(ctx, stanza)
  {
    var name := Attribute(stanza, "name");
    if name.None? {
      return [Crash(ctx.host.nullReference)], true;
    }
    effects := [Info("--- Stanza: " + name.value + " ---")];
    var command := FindScript(Descendants(stanza, "param"));
    if command.NameMissing? {
      return effects + [Crash(ctx.host.nullReference)], true;
    }
    if command.NotFound? {
      return effects + [Error(MissingScript)], false;
    }
    var script := XmlTree.Value(command.param);
    var result := ctx.runner([], script);
    if result.Threw? {
      return effects + [Crash(result.message)], true;
    }
    var ps := result.invocation;
    var lines := ServiceXmlFormatter.WriteOutput(ctx.rt, ctx.flags, NonNull(ps.outputs), Some(name.value));
    var shown := Writes(lines);
    if HasNull(ps.outputs) {
      return effects + (shown + [Crash(ctx.host.nullReference)]), true;
    }
    var reported := [];
    if ps.hadErrors {
      reported := ReportErrors(script, ps.errors);
    }
    effects := effects + (shown + reported);
    crashed := false;
  }

  /** `foreach (var error in ps.Streams.Error)`: two error lines each. */
  method ReportErrors(script: string, errors: seq<ErrorRecord>) returns (reported: seq<Effect>)
    ensures reported == ErrorLogs(script, errors)
  {
    reported := [];
    var i := 0;
    while i < |errors|
      invariant 0 <= i <= |errors|
      invariant reported == ErrorLogs(script, errors[..i])
    {
      var error := errors[i];
      var format := CategoryLine(error);
      var msg := script + " " + Details(error);
      assert errors[..i + 1][..i] == errors[..i];
      reported := reported + [Error(msg), Error(format)];
      ghost var before := i;
      i := i + 1;
      assert errors[..i] == errors[..before + 1];
    }
    assert errors[..i] == errors;
  }

  // ---------------------------------------------------------------------
  // The stanzas in turn.

  /** The stanzas run one after another until an exception escapes. */
  function Stanzas(ctx: Context, ss: seq<XNode>): (r: StanzaRun)
    ensures WellEnded(r)
    decreases |ss|
  {
    if ss == [] then StanzaRun([], false)
    else
      var front := Stanzas(ctx, ss[..|ss| - 1]);
      if front.crashed then front
      else
        var s := Invoke(ctx, ss[|ss| - 1]);
        Extended(front, s);
        StanzaRun(front.effects + s.effects, s.crashed)
  }

  /** A well-ended run that has not crashed, followed by another well-ended
      run, is well ended. */
  lemma Extended(front: StanzaRun, next: StanzaRun)
    requires WellEnded(front) && !front.crashed && WellEnded(next)
    ensures WellEnded(StanzaRun(front.effects + next.effects, next.crashed))
  {
    if next.crashed {
      QuietEnding(front.effects, next.effects);
    } else {
      ContinuesAppend(front.effects, next.effects);
    }
  }

  lemma QuietEnding(front: seq<Effect>, tail: seq<Effect>)
    requires Continues(front) && |tail| > 0 && Continues(tail[..|tail| - 1])
    ensures var all := front + tail;
            all[|all| - 1] == tail[|tail| - 1] && Continues(all[..|all| - 1])
  {
    var all := front + tail;
    assert all[..|all| - 1] == front + tail[..|tail| - 1];
    ContinuesAppend(front, tail[..|tail| - 1]);
  }

  /** Once a stanza has crashed, the later ones never run. */
  lemma {:induction false} CrashStops(ctx: Context, ss: seq<XNode>, i: nat)
    requires i <= |ss| && Stanzas(ctx, ss[..i]).crashed
    ensures Stanzas(ctx, ss) == Stanzas(ctx, ss[..i])
    decreases |ss|
  {
    if i == |ss| {
      assert ss[..i] == ss;
    } else {
      var n := |ss| - 1;
      assert ss[..n][..i] == ss[..i];
      CrashStops(ctx, ss[..n], i);
      CrashedFront(ctx, ss);
    }
  }

  lemma CrashedFront(ctx: Context, ss: seq<XNode>)
    requires |ss| > 0 && Stanzas(ctx, ss[..|ss| - 1]).crashed
    ensures Stanzas(ctx, ss) == Stanzas(ctx, ss[..|ss| - 1])
  {
  }

  /** `foreach (var stanza in id.Descendants("stanza")) InvokeStanza(stanza);` */
  method RunStanzas(ctx: Context, ss: seq<XNode>) returns (effects: seq<Effect>, crashed: bool)
    ensures StanzaRun(effects, crashed) == Stanzas(ctx, ss)
  {
    effects, crashed := [], false;
    var i := 0;
    while i < |ss| && !crashed
      invariant 0 <= i <= |ss|
      invariant StanzaRun(effects, crashed) == Stanzas(ctx, ss[..i])
    {
      var stanzaEffects, stanzaCrashed := InvokeStanza(ctx, ss[i]);
      assert ss[..i + 1][..i] == ss[..i] && ss[..i + 1][i] == ss[i];
      effects := effects + stanzaEffects;
      crashed := stanzaCrashed;
      ghost var before := i;
      i := i + 1;
      assert ss[..i] == ss[..before + 1];
    }
    if crashed {
      CrashStops(ctx, ss, i);
    } else {
      assert ss[..i] == ss;
    }
  }

  // ---------------------------------------------------------------------
  // Main.

  const Close: seq<Effect> := [Write(Out("</stream>")), Info("Finished InputDefinition"), Exit(0)]

  /** Main(args). */
  function Main(ctx: Context, args: seq<string>): (effects: seq<Effect>)
    ensures |effects| > 1 && effects[0] == Info("powershell.exe " + Join(args, " "))
  {
    [Info("powershell.exe " + Join(args, " "))] + Rest(ctx, args)
  }

  function Rest(ctx: Context, args: seq<string>): (effects: seq<Effect>)
    ensures |effects| > 0
  {
    var m := Classify(args);
    if ArgumentExit(m).Some? then Arguments(ctx.host, m) else Document(ctx, Source(ctx.host, m))
  }

  /** The argument forms that end the process: the scheme, or an error. */
  function Arguments(host: Host, m: Mode): (effects: seq<Effect>)
    requires ArgumentExit(m).Some?
    ensures |effects| == 2 && effects[1] == Exit(ArgumentExit(m).value) && !Ends(effects[0])
    ensures Stdout(effects) == if m.Scheme? then [host.scheme] else []
  {
    match m
    case Scheme => [Write(Out(host.scheme)), Exit(0)]
    case ValidateArguments => [Error("--validate_arguments not implemented yet"), Exit(1)]
    case BadUsage => [Error(Usage), Exit(2)]
  }

  /** The document once read; a load or parse failure is not caught. */
  function Document(ctx: Context, d: Loaded): (effects: seq<Effect>)
    ensures |effects| > 0
  {
    match d
    case LoadFails(message, _) => [Crash(message)]
    case Parsed(root) => [Info("Reading InputDefinition")] + Input(ctx, root)
  }

  /** A root other than `<input>` raises InvalidDataException, which is
      not caught. */
  function Input(ctx: Context, root: XNode): (effects: seq<Effect>)
    ensures |effects| > 0
  {
    if RootElement(root, "input").None? then [Crash(InvalidInput)]
    else [Info(ctx.host.render(root))] + Settings(ctx, root)
  }

  /** The environment, then the event stream. */
  function Settings(ctx: Context, input: XNode): (effects: seq<Effect>)
    ensures |effects| > 0
  {
    if !HasElements(input, GlobalElements) then
      MissingElementCrashes(ctx.host, input, GlobalElements);
      SetVariables(ctx.host, input, GlobalElements)
    else SetVariables(ctx.host, input, GlobalElements) + Stream(ctx, input)
  }

  /** Three informational lines, `<stream>`, the stanzas and, unless one
      of them crashed, `</stream>` and exit code 0. */
  function Stream(ctx: Context, input: XNode): (effects: seq<Effect>)
  {
    var ss := Descendants(input, "stanza");
    [Info("Stanzas: " + NatToString(|ss|)), Info("CWD: " + ctx.host.cwd), Info("command: " + ctx.host.commandLine)] +
    ([Write(Out("<stream>"))] + Body(ctx, ss))
  }

  function Body(ctx: Context, ss: seq<XNode>): seq<Effect> {
    var run := Stanzas(ctx, ss);
    run.effects + (if run.crashed then [] else Close)
  }

  method Run(ctx: Context, args: seq<string>) returns (effects: seq<Effect>)
    ensures effects == Main(ctx, args)
  {
    var m := Classify(args);
    var rest;
    if ArgumentExit(m).Some? {
      rest := Arguments(ctx.host, m);
    } else {
      var d := Source(ctx.host, m);
      if d.LoadFails? {
        rest := [Crash(d.message)];
      } else {
        var id := RootElement(d.root, "input");
        var tail;
        if id.None? {
          tail := [Crash(InvalidInput)];
        } else {
          var variables := SetVariables(ctx.host, id.value, GlobalElements);
          if HasElements(id.value, GlobalElements) {
            var ss := Descendants(id.value, "stanza");
            var fyi := [Info("Stanzas: " + NatToString(|ss|)), Info("CWD: " + ctx.host.cwd),
                        Info("command: " + ctx.host.commandLine)];
            var run, crashed := RunStanzas(ctx, ss);
            var body := run + (if crashed then [] else Close);
            variables := variables + (fyi + ([Write(Out("<stream>"))] + body));
          }
          tail := [Info(ctx.host.render(id.value))] + variables;
        }
        rest := [Info("Reading InputDefinition")] + tail;
      }
    }
    effects := [Info("powershell.exe " + Join(args, " "))] + rest;
  }

  // ---------------------------------------------------------------------
  // What Main promises.

  /** `a` and `b` write the same to standard output and end alike: with
      the same last effect, before which one ends the process exactly when
      the other does. */
  predicate SameEnding(a: seq<Effect>, b: seq<Effect>) {
    |a| > 0 && |b| > 0 && Stdout(a) == Stdout(b) && a[|a| - 1] == b[|b| - 1] &&
    (Continues(a[..|a| - 1]) <==> Continues(b[..|b| - 1]))
  }

  lemma SameEndingTrans(a: seq<Effect>, b: seq<Effect>, c: seq<Effect>)
    requires SameEnding(a, b) && SameEnding(b, c)
    ensures SameEnding(a, c)
  {
  }

  /** Log lines in front of some effects change neither their standard
      output nor their ending. */
  lemma LogsFirst(front: seq<Effect>, rest: seq<Effect>)
    requires forall k :: 0 <= k < |front| ==> front[k].Log?
    requires |rest| > 0
    ensures SameEnding(front + rest, rest)
  {
    assert Silent(front) && Continues(front);
    SilentStdout(front);
    QuietPrefix(front, rest);
  }

  /** Main's first line is only logged, so its standard output and its
      ending are those of what follows. */
  lemma MainEnds(ctx: Context, args: seq<string>)
    ensures SameEnding(Main(ctx, args), Rest(ctx, args))
  {
    var start := [Info("powershell.exe " + Join(args, " "))];
    assert Main(ctx, args) == start + Rest(ctx, args);
    LogsFirst(start, Rest(ctx, args));
  }

  /** The argument forms that read no input end the process with their
      exit code; only the scheme reaches standard output. */
  lemma ArgumentsHandled(ctx: Context, args: seq<string>)
    requires ArgumentExit(Classify(args)).Some?
    ensures var effects := Main(ctx, args);
            effects[|effects| - 1] == Exit(ArgumentExit(Classify(args)).value) &&
            Continues(effects[..|effects| - 1]) &&
            Stdout(effects) == (if Classify(args).Scheme? then [ctx.host.scheme] else [])
  {
    MainEnds(ctx, args);
    var rest := Rest(ctx, args);
    assert rest == Arguments(ctx.host, Classify(args));
    assert rest[..|rest| - 1] == [rest[0]];
  }

  /** A document that cannot be loaded or parsed raises an exception that
      nothing catches, before anything reaches standard output. */
  lemma LoadFailureCrashes(ctx: Context, args: seq<string>)
    requires ArgumentExit(Classify(args)).None? && Source(ctx.host, Classify(args)).LoadFails?
    ensures var effects := Main(ctx, args);
            effects[|effects| - 1] == Crash(Source(ctx.host, Classify(args)).message) &&
            Continues(effects[..|effects| - 1]) && Stdout(effects) == []
  {
    MainEnds(ctx, args);
    assert Rest(ctx, args) == [Crash(Source(ctx.host, Classify(args)).message)];
  }

  lemma RestParsed(ctx: Context, args: seq<string>, root: XNode)
    requires ArgumentExit(Classify(args)).None? && Source(ctx.host, Classify(args)) == Parsed(root)
    ensures SameEnding(Rest(ctx, args), Input(ctx, root))
  {
    var front := [Info("Reading InputDefinition")];
    assert Rest(ctx, args) == front + Input(ctx, root);
    LogsFirst(front, Input(ctx, root));
  }

  /** Once the document is parsed, only log lines come before Input. */
  lemma ParsedEnds(ctx: Context, args: seq<string>, root: XNode)
    requires ArgumentExit(Classify(args)).None? && Source(ctx.host, Classify(args)) == Parsed(root)
    ensures SameEnding(Main(ctx, args), Input(ctx, root))
  {
    MainEnds(ctx, args);
    RestParsed(ctx, args, root);
    SameEndingTrans(Main(ctx, args), Rest(ctx, args), Input(ctx, root));
  }

  /** A document whose root is not `<input>` raises InvalidDataException,
      which nothing catches. */
  lemma NotInputCrashes(ctx: Context, args: seq<string>)
    requires ArgumentExit(Classify(args)).None? && Source(ctx.host, Classify(args)).Parsed?
    requires InputRoot(ctx.host, args).None?
    ensures var effects := Main(ctx, args);
            effects[|effects| - 1] == Crash(InvalidInput) && Continues(effects[..|effects| - 1]) &&
            Stdout(effects) == []
  {
    var root := Source(ctx.host, Classify(args)).root;
    ParsedEnds(ctx, args, root);
    assert Input(ctx, root) == [Crash(InvalidInput)];
  }

  lemma InputSettings(ctx: Context, input: XNode)
    requires RootElement(input, "input").Some?
    ensures SameEnding(Input(ctx, input), Settings(ctx, input))
  {
    var front := [Info(ctx.host.render(input))];
    assert Input(ctx, input) == front + Settings(ctx, input);
    LogsFirst(front, Settings(ctx, input));
  }

  /** With an `<input>` root, only log lines come before Settings. */
  lemma InputEnds(ctx: Context, args: seq<string>, input: XNode)
    requires InputRoot(ctx.host, args) == Some(input)
    ensures SameEnding(Main(ctx, args), Settings(ctx, input))
  {
    assert Source(ctx.host, Classify(args)) == Parsed(input);
    ParsedEnds(ctx, args, input);
    InputSettings(ctx, input);
    SameEndingTrans(Main(ctx, args), Input(ctx, input), Settings(ctx, input));
  }

  /** A server setting missing from the input is a null reference that
      ends the process before `<stream>` is written. */
  lemma MissingSettingCrashes(ctx: Context, args: seq<string>, input: XNode)
    requires InputRoot(ctx.host, args) == Some(input) && !HasElements(input, GlobalElements)
    ensures var effects := Main(ctx, args);
            effects[|effects| - 1] == Crash(ctx.host.nullReference) && Continues(effects[..|effects| - 1]) &&
            Stdout(effects) == []
  {
    InputEnds(ctx, args, input);
    SettingsMissing(ctx, input);
  }

  lemma SettingsMissing(ctx: Context, input: XNode)
    requires !HasElements(input, GlobalElements)
    ensures var effects := Settings(ctx, input);
            effects[|effects| - 1] == Crash(ctx.host.nullReference) && Continues(effects[..|effects| - 1]) &&
            Stdout(effects) == []
  {
    assert Settings(ctx, input) == SetVariables(ctx.host, input, GlobalElements);
    MissingElementCrashes(ctx.host, input, GlobalElements);
  }

  lemma StreamOpens(ctx: Context, input: XNode)
    ensures SameEnding(Stream(ctx, input), [Write(Out("<stream>"))] + Body(ctx, Descendants(input, "stanza")))
  {
    var ss := Descendants(input, "stanza");
    var fyi := [Info("Stanzas: " + NatToString(|ss|)), Info("CWD: " + ctx.host.cwd), Info("command: " + ctx.host.commandLine)];
    var stream := [Write(Out("<stream>"))] + Body(ctx, ss);
    assert Stream(ctx, input) == fyi + stream;
    LogsFirst(fyi, stream);
  }

  lemma SettingsStream(ctx: Context, input: XNode)
    requires HasElements(input, GlobalElements)
    ensures SameEnding(Settings(ctx, input), [Write(Out("<stream>"))] + Body(ctx, Descendants(input, "stanza")))
  {
    SettingsParts(ctx, input);
    VariablesSet(ctx.host, input, GlobalElements);
    StreamOpens(ctx, input);
    QuietThen(SetVariables(ctx.host, input, GlobalElements), Stream(ctx, input),
              [Write(Out("<stream>"))] + Body(ctx, Descendants(input, "stanza")));
  }

  lemma SettingsParts(ctx: Context, input: XNode)
    requires HasElements(input, GlobalElements)
    ensures Settings(ctx, input) == SetVariables(ctx.host, input, GlobalElements) + Stream(ctx, input)
  {
  }

  lemma QuietThen(front: seq<Effect>, rest: seq<Effect>, tail: seq<Effect>)
    requires Continues(front) && Stdout(front) == [] && SameEnding(rest, tail)
    ensures SameEnding(front + rest, tail)
  {
    QuietPrefix(front, rest);
  }

  /** With the settings present, standard output and the ending are those
      of the stream: `<stream>`, then the stanzas. */
  lemma StreamEnds(ctx: Context, args: seq<string>, input: XNode)
    requires InputRoot(ctx.host, args) == Some(input) && HasElements(input, GlobalElements)
    ensures SameEnding(Main(ctx, args), [Write(Out("<stream>"))] + Body(ctx, Descendants(input, "stanza")))
  {
    InputEnds(ctx, args, input);
    SettingsStream(ctx, input);
    SameEndingTrans(Main(ctx, args), Settings(ctx, input), [Write(Out("<stream>"))] + Body(ctx, Descendants(input, "stanza")));
  }

  /** `<stream>` in front of some effects. */
  lemma OpenedStream(body: seq<Effect>)
    requires |body| > 0
    ensures var all := [Write(Out("<stream>"))] + body;
            Stdout(all) == ["<stream>"] + Stdout(body) && all[|all| - 1] == body[|body| - 1] &&
            (Continues(all[..|all| - 1]) <==> Continues(body[..|body| - 1]))
  {
    var open := [Write(Out("<stream>"))];
    var all := open + body;
    assert Continues(open);
    assert Stdout(open) == ["<stream>"];
    StdoutAppend(open, body);
    assert all[..|all| - 1] == open + body[..|body| - 1];
  }

  /** When every stanza has run, `</stream>` closes the stream and the
      process exits with code 0: standard output is `<stream>`, what the
      stanzas wrote, and `</stream>`. */
  lemma StreamClosed(ctx: Context, args: seq<string>, input: XNode)
    requires InputRoot(ctx.host, args) == Some(input) && HasElements(input, GlobalElements)
    requires !Stanzas(ctx, Descendants(input, "stanza")).crashed
    ensures var effects := Main(ctx, args);
            var run := Stanzas(ctx, Descendants(input, "stanza"));
            effects[|effects| - 1] == Exit(0) && Continues(effects[..|effects| - 1]) &&
            Stdout(effects) == ["<stream>"] + Stdout(run.effects) + ["</stream>"]
  {
    var ss := Descendants(input, "stanza");
    var run := Stanzas(ctx, ss);
    StreamEnds(ctx, args, input);
    assert Body(ctx, ss) == run.effects + Close;
    ClosedStream(Main(ctx, args), run.effects);
  }

  lemma ClosedStream(effects: seq<Effect>, run: seq<Effect>)
    requires SameEnding(effects, [Write(Out("<stream>"))] + (run + Close)) && Continues(run)
    ensures effects[|effects| - 1] == Exit(0) && Continues(effects[..|effects| - 1]) &&
            Stdout(effects) == ["<stream>"] + Stdout(run) + ["</stream>"]
  {
    ClosedBody(run);
    OpenedStream(run + Close);
  }

  lemma ClosedBody(effects: seq<Effect>)
    requires Continues(effects)
    ensures var body := effects + Close;
            body[|body| - 1] == Exit(0) && Continues(body[..|body| - 1]) &&
            Stdout(body) == Stdout(effects) + ["</stream>"]
  {
    var body := effects + Close;
    assert Stdout(Close) == ["</stream>"];
    StdoutAppend(effects, Close);
    assert body[..|body| - 1] == effects + Close[..2];
    assert Continues(Close[..2]);
    ContinuesAppend(effects, Close[..2]);
  }

  /** An exception escaping a stanza ends the process there: no later
      stanza runs and `</stream>` is never written. */
  lemma StanzaCrashLeavesStreamOpen(ctx: Context, args: seq<string>, input: XNode)
    requires InputRoot(ctx.host, args) == Some(input) && HasElements(input, GlobalElements)
    requires Stanzas(ctx, Descendants(input, "stanza")).crashed
    ensures var effects := Main(ctx, args);
            var run := Stanzas(ctx, Descendants(input, "stanza"));
            effects[|effects| - 1].Crash? && Continues(effects[..|effects| - 1]) &&
            Stdout(effects) == ["<stream>"] + Stdout(run.effects)
  {
    var ss := Descendants(input, "stanza");
    var run := Stanzas(ctx, ss);
    StreamEnds(ctx, args, input);
    assert Body(ctx, ss) == run.effects;
    OpenedStream(run.effects);
  }

  /** Each stanza adds to standard output what it writes itself, after what
      the stanzas before it wrote. */
  lemma StanzasInOrder(ctx: Context, ss: seq<XNode>, s: XNode)
    requires !Stanzas(ctx, ss).crashed
    ensures Stdout(Stanzas(ctx, ss + [s]).effects) == Stdout(Stanzas(ctx, ss).effects) + Stdout(Invoke(ctx, s).effects)
  {
    assert (ss + [s])[..|ss|] == ss;
    StdoutAppend(Stanzas(ctx, ss).effects, Invoke(ctx, s).effects);
  }

  /** A stanza without a name, or whose "script" lookup meets a nameless
      parameter, throws; one without a "script" parameter only logs an
      error. Neither writes to standard output. */
  lemma StanzaWithoutScript(ctx: Context, stanza: XNode)
    requires Attribute(stanza, "name").None? || !FindScript(Descendants(stanza, "param")).Found?
    ensures var r := Invoke(ctx, stanza);
            Stdout(r.effects) == [] &&
            (r.crashed <==> Attribute(stanza, "name").None? || FindScript(Descendants(stanza, "param")).NameMissing?) &&
            (!r.crashed ==> r.effects[|r.effects| - 1] == Error(MissingScript))
  {
    var r := Invoke(ctx, stanza);
    assert Silent(r.effects);
    SilentStdout(r.effects);
  }

  /** What a script that ran writes: one event per output object, in
      order, up to the first null output; a null output then throws;
      otherwise each error record adds its two error lines at the end. */
  lemma ScriptOutput(ctx: Context, name: string, command: string, inv: Invocation)
    requires ctx.runner([], command) == Ran(inv)
    ensures var r := Script(ctx, name, command);
            Stdout(r.effects) == ServiceXmlFormatter.Events(ctx.rt, ctx.flags, NonNull(inv.outputs), Some(name)) &&
            (r.crashed <==> HasNull(inv.outputs)) &&
            (!r.crashed && inv.hadErrors ==>
               2 * |inv.errors| <= |r.effects| && r.effects[|r.effects| - 2 * |inv.errors|..] == ErrorLogs(command, inv.errors))
  {
    var lines := ServiceXmlFormatter.Transcript(ctx.rt, ctx.flags, NonNull(inv.outputs), Some(name));
    var shown := Writes(lines);
    WritesStdout(lines);
    ServiceXmlFormatter.OneEventPerObject(ctx.rt, ctx.flags, NonNull(inv.outputs), Some(name));
    if HasNull(inv.outputs) {
      NullOutputThrows(ctx, name, command, inv, shown);
    } else {
      var errors := if inv.hadErrors then ErrorLogs(command, inv.errors) else [];
      assert Script(ctx, name, command).effects == shown + errors;
      SilentStdout(errors);
      StdoutAppend(shown, errors);
      assert (shown + errors)[|shown|..] == errors;
    }
  }

  lemma NullOutputThrows(ctx: Context, name: string, command: string, inv: Invocation, shown: seq<Effect>)
    requires ctx.runner([], command) == Ran(inv) && HasNull(inv.outputs)
    requires shown == Writes(ServiceXmlFormatter.Transcript(ctx.rt, ctx.flags, NonNull(inv.outputs), Some(name)))
    ensures Script(ctx, name, command) == StanzaRun(shown + [Crash(ctx.host.nullReference)], true)
    ensures Stdout(shown + [Crash(ctx.host.nullReference)]) == Stdout(shown)
  {
    StdoutAppend(shown, [Crash(ctx.host.nullReference)]);
  }

  /** A named stanza whose "script" parameter ran writes, after its banner,
      one event per output object up to the first null output. */
  lemma StanzaEvents(ctx: Context, stanza: XNode, name: string, p: XNode, inv: Invocation)
    requires Attribute(stanza, "name") == Some(name) && FindScript(Descendants(stanza, "param")) == Found(p)
    requires ctx.runner([], XmlTree.Value(p)) == Ran(inv)
    ensures Stdout(Invoke(ctx, stanza).effects) ==
            ServiceXmlFormatter.Events(ctx.rt, ctx.flags, NonNull(inv.outputs), Some(name))
  {
    InvokeScript(ctx, stanza, name, p);
    ScriptOutput(ctx, name, XmlTree.Value(p), inv);
    BannerFirst(Info("--- Stanza: " + name + " ---"), Script(ctx, name, XmlTree.Value(p)).effects);
  }

  /** Such a stanza throws exactly when the script produced a null output. */
  lemma StanzaThrowsOnNull(ctx: Context, stanza: XNode, name: string, p: XNode, inv: Invocation)
    requires Attribute(stanza, "name") == Some(name) && FindScript(Descendants(stanza, "param")) == Found(p)
    requires ctx.runner([], XmlTree.Value(p)) == Ran(inv)
    ensures Invoke(ctx, stanza).crashed <==> HasNull(inv.outputs)
  {
    InvokeScript(ctx, stanza, name, p);
    ScriptOutput(ctx, name, XmlTree.Value(p), inv);
  }

  lemma InvokeScript(ctx: Context, stanza: XNode, name: string, p: XNode)
    requires Attribute(stanza, "name") == Some(name) && FindScript(Descendants(stanza, "param")) == Found(p)
    ensures var run := Script(ctx, name, XmlTree.Value(p));
            Invoke(ctx, stanza) == StanzaRun([Info("--- Stanza: " + name + " ---")] + run.effects, run.crashed)
  {
  }

  /** A banner line logged in front of a run changes nothing about its
      standard output. */
  lemma BannerFirst(banner: Effect, run: seq<Effect>)
    requires banner.Log?
    ensures Stdout([banner] + run) == Stdout(run)
  {
    assert Silent([banner]);
    SilentStdout([banner]);
    StdoutAppend([banner], run);
  }


}
