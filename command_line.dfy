/** What the three entry points (ModularPowerShell.cs, PowerShell.cs and
    Program.cs) share: the classification of the command line, the input
    document they read, the environment variables they set from it, and the
    effects they have on the outside world, recorded in order. */
module CommandLine {
  import opened Common
  import opened XmlTree
  import LegacyFormat

  /** What the first argument asks for. The comparison ignores case; an
      `--input` needs exactly one path after it. */
  datatype Mode = Scheme | ValidateArguments | InputFile(path: string) | BadUsage | StandardInput

  function Classify(args: seq<string>): (m: Mode)
    ensures m.StandardInput? <==> args == []
    ensures m.InputFile? <==> |args| == 2 && Lower(args[0]) == "--input"
    ensures m.InputFile? ==> m.path == args[1]
    ensures m.Scheme? <==> |args| > 0 && Lower(args[0]) == "--scheme"
    ensures m.ValidateArguments? <==> |args| > 0 && Lower(args[0]) == "--validate_arguments"
  {
    if |args| == 0 then StandardInput
    else if Lower(args[0]) == "--scheme" then Scheme
    else if Lower(args[0]) == "--validate_arguments" then ValidateArguments
    else if Lower(args[0]) == "--input" && |args| == 2 then InputFile(args[1])
    else BadUsage
  }

  /** Only the case of the first argument's letters is ignored: changing it
      leaves the classification as it was. */
  lemma ClassifyIgnoresCase(args: seq<string>, first: string)
    requires |args| > 0 && Lower(first) == Lower(args[0])
    ensures Classify([first] + args[1..]) == Classify(args)
  {
    var other := [first] + args[1..];
    assert other[0] == first && |other| == |args|;
    if Classify(args).InputFile? {
      assert other[1] == args[1];
    }
  }

  /** Every non-empty command line that is none of the three recognised
      forms is a usage error. */
  lemma UsageOtherwise(args: seq<string>)
    requires |args| > 0
    requires Lower(args[0]) != "--scheme" && Lower(args[0]) != "--validate_arguments"
    requires Lower(args[0]) != "--input" || |args| != 2
    ensures Classify(args) == BadUsage
  {
  }

  /** The exit code with which the argument handling itself ends the
      process: 0 after the scheme, 1 for --validate_arguments, 2 for a
      usage error; None when an input document is read instead. */
  function ArgumentExit(m: Mode): (code: Option<int>)
    ensures code.None? <==> m.InputFile? || m.StandardInput?
  {
    match m
    case Scheme => Some(0)
    case ValidateArguments => Some(1)
    case BadUsage => Some(2)
    case _ => None
  }

  /** The outcome of XDocument.Load / XDocument.Parse: the root element, or
      the message (and inner message) of the exception raised. */
  datatype Loaded = Parsed(root: XNode) | LoadFails(message: string, inner: Option<string>)

  /** The world outside the program: the file system (`load`), standard
      input (`stdin`), XElement.ToString() (`render`), the scheme document
      the program prints, the message of a NullReferenceException, the
      current directory and the process command line. */
  datatype Host = Host(
    load: string -> Loaded, stdin: Loaded, render: XNode -> string, scheme: string,
    nullReference: string, cwd: string, commandLine: string)

  /** The document a command line makes the program read. */
  function Source(host: Host, m: Mode): (d: Loaded)
    requires m.InputFile? || m.StandardInput?
  {
    if m.InputFile? then host.load(m.path) else host.stdin
  }

  /** The `<input>` element the program goes on with: the document must be
      read and parsed, and its root must be `<input>`. */
  function InputRoot(host: Host, args: seq<string>): (r: Option<XNode>)
    ensures r.Some? ==> ArgumentExit(Classify(args)).None? && r.value.Element? && r.value.tag == "input"
  {
    var m := Classify(args);
    if ArgumentExit(m).Some? then None
    else
      var d := Source(host, m);
      if d.Parsed? then RootElement(d.root, "input") else None
  }

  /** A scheduled job: its identity (the stanza name), its "script" and its
      cron "schedule". */
  datatype Job = Job(name: string, script: string, schedule: string)

  /** One observable step of an entry point. `Write` is a whole line on one
      of the two streams; `Log` is SplunkXmlFormatter.WriteLog, the line
      LegacyFormat.WriteLog(level, message) on standard error; `ErrorText`
      is Console.Error.Write without a line terminator; `Crash` is an
      exception nobody catches. */
  datatype Effect =
    | Write(line: Line)
    | Log(level: LegacyFormat.LogLevel, message: string)
    | ErrorText(text: string)
    | SetEnvironment(name: string, value: string)
    | Configure(flags: LegacyFormat.Flags)
    | UseConsoleLogger
    | ScheduleJobs(jobs: seq<Job>)
    | StartScheduler(input: XNode)
    | Exit(code: int)
    | Crash(message: string)

  /** The formatter's log call at the two levels the entry points use. */
  function Info(msg: string): Effect {
    Log(LegacyFormat.Info, msg)
  }

  function Error(msg: string): Effect {
    Log(LegacyFormat.Error, msg)
  }

  /** An effect after which nothing else happens. */
  predicate Ends(e: Effect) {
    e.Exit? || e.Crash?
  }

  predicate Continues(effects: seq<Effect>) {
    forall k :: 0 <= k < |effects| ==> !Ends(effects[k])
  }

  /** The lines written to standard output, in order. */
  function Stdout(effects: seq<Effect>): (r: seq<string>)
    ensures |r| <= |effects|
  {
    if effects == [] then []
    else
      (if effects[0].Write? && effects[0].line.Out? then [effects[0].line.text] else []) +
      Stdout(effects[1..])
  }

  lemma {:induction false} StdoutAppend(a: seq<Effect>, b: seq<Effect>)
    ensures Stdout(a + b) == Stdout(a) + Stdout(b)
    decreases |a|
  {
    if a == [] {
      assert a + b == b;
    } else {
      var head := if a[0].Write? && a[0].line.Out? then [a[0].line.text] else [];
      assert (a + b)[0] == a[0] && (a + b)[1..] == a[1..] + b;
      assert Stdout(a + b) == head + Stdout(a[1..] + b);
      StdoutAppend(a[1..], b);
      assert Stdout(a) == head + Stdout(a[1..]);
    }
  }

  lemma ContinuesAppend(front: seq<Effect>, tail: seq<Effect>)
    requires Continues(front) && Continues(tail)
    ensures Continues(front + tail) && Stdout(front + tail) == Stdout(front) + Stdout(tail)
  {
    StdoutAppend(front, tail);
  }

  /** Effects that neither write to standard output nor end the program
      change nothing about what follows them: its standard output, whether
      it ends the program, and how. */
  lemma QuietPrefix(front: seq<Effect>, rest: seq<Effect>)
    requires Continues(front) && Stdout(front) == []
    ensures Stdout(front + rest) == Stdout(rest)
    ensures Continues(front + rest) <==> Continues(rest)
    ensures |rest| > 0 ==>
              (front + rest)[|front + rest| - 1] == rest[|rest| - 1] &&
              (Continues((front + rest)[..|front + rest| - 1]) <==> Continues(rest[..|rest| - 1]))
  {
    StdoutAppend(front, rest);
    var all := front + rest;
    if |rest| > 0 {
      assert all[..|all| - 1] == front + rest[..|rest| - 1];
    }
    if Continues(rest) {
      assert Continues(all) by {
        forall k | 0 <= k < |all| ensures !Ends(all[k]) {
          if k >= |front| {
            assert all[k] == rest[k - |front|];
          }
        }
      }
    }
    if Continues(all) {
      forall k | 0 <= k < |rest| ensures !Ends(rest[k]) {
        assert rest[k] == all[k + |front|];
      }
    }
    if |rest| > 0 && Continues(rest[..|rest| - 1]) {
      var r := rest[..|rest| - 1];
      forall k | 0 <= k < |front + r| ensures !Ends((front + r)[k]) {
        if k >= |front| {
          assert (front + r)[k] == r[k - |front|];
        }
      }
    }
    if |rest| > 0 && Continues(all[..|all| - 1]) {
      var r := rest[..|rest| - 1];
      forall k | 0 <= k < |r| ensures !Ends(r[k]) {
        assert r[k] == (front + r)[k + |front|];
      }
    }
  }

  /** Effects none of which writes to standard output. */
  predicate Silent(effects: seq<Effect>) {
    forall k :: 0 <= k < |effects| ==> !(effects[k].Write? && effects[k].line.Out?)
  }

  lemma {:induction false} SilentStdout(effects: seq<Effect>)
    requires Silent(effects)
    ensures Stdout(effects) == []
    decreases |effects|
  {
    if effects != [] {
      assert Silent(effects[1..]) by {
        forall k | 0 <= k < |effects[1..]| ensures !(effects[1..][k].Write? && effects[1..][k].line.Out?) {
          assert effects[1..][k] == effects[k + 1];
        }
      }
      SilentStdout(effects[1..]);
    }
  }

  /** Writing log lines: each line on its stream. */
  function Writes(lines: seq<Line>): (r: seq<Effect>)
    ensures |r| == |lines|
    ensures forall k :: 0 <= k < |r| ==> r[k] == Write(lines[k])
  {
    if lines == [] then [] else [Write(lines[0])] + Writes(lines[1..])
  }

  /** What reaches standard output from written lines is exactly their
      standard-output texts. */
  lemma {:induction false} WritesStdout(lines: seq<Line>)
    ensures Stdout(Writes(lines)) == OutTexts(lines)
    decreases |lines|
  {
    if lines != [] {
      var w := Writes(lines);
      var head := if lines[0].Out? then [lines[0].text] else [];
      assert w[0] == Write(lines[0]) && w[1..] == Writes(lines[1..]);
      assert Stdout(w) == head + Stdout(Writes(lines[1..]));
      WritesStdout(lines[1..]);
      OutTextsOne(lines[0]);
      OutTextsAppend([lines[0]], lines[1..]);
      assert [lines[0]] + lines[1..] == lines;
    }
  }

  /** The input elements copied into the environment, in the order the
      programs copy them. */
  const GlobalElements: seq<(string, string)> := [
    ("server_host", "SPLUNKPS_SERVER_HOST"),
    ("server_uri", "SPLUNKPS_SERVER_URI"),
    ("session_key", "SPLUNKPS_SESSION_KEY"),
    ("checkpoint_dir", "SPLUNKPS_CHECKPOINT_DIR")]

  predicate HasElements(input: XNode, table: seq<(string, string)>) {
    forall k :: 0 <= k < |table| ==> ChildElement(input, table[k].0).Some?
  }

  /** `SetEnvironmentVariable(variable, input.Element(element).Value)` for
      each row of `table`: a missing element is a null reference and stops
      the program there. */
  function SetVariables(host: Host, input: XNode, table: seq<(string, string)>): (r: seq<Effect>)
    decreases |table|
  {
    if table == [] then []
    else
      match ChildElement(input, table[0].0)
      case None => [Crash(host.nullReference)]
      case Some(e) => [SetEnvironment(table[0].1, Value(e))] + SetVariables(host, input, table[1..])
  }

  /** With every element present, one variable is set per row, to the text
      of that row's element, and nothing ends the program. */
  lemma {:induction false} VariablesSet(host: Host, input: XNode, table: seq<(string, string)>)
    requires HasElements(input, table)
    ensures var r := SetVariables(host, input, table);
            |r| == |table| && Continues(r) && Stdout(r) == [] &&
            forall k :: 0 <= k < |table| ==>
              r[k] == SetEnvironment(table[k].1, Value(ChildElement(input, table[k].0).value))
    decreases |table|
  {
    if table != [] {
      assert HasElements(input, table[1..]) by {
        forall k | 0 <= k < |table[1..]| ensures ChildElement(input, table[1..][k].0).Some? {
          assert table[1..][k] == table[k + 1];
        }
      }
      VariablesSet(host, input, table[1..]);
      var r := SetVariables(host, input, table);
      var rest := SetVariables(host, input, table[1..]);
      assert r == [r[0]] + rest;
      forall k | 1 <= k < |table|
        ensures r[k] == SetEnvironment(table[k].1, Value(ChildElement(input, table[k].0).value))
      {
        assert r[k] == rest[k - 1] && table[1..][k - 1] == table[k];
      }
      StdoutAppend([r[0]], rest);
    }
  }

  /** With an element missing, the program stops with a null reference, and
      only the variables of the rows before it are set. */
  lemma {:induction false} MissingElementCrashes(host: Host, input: XNode, table: seq<(string, string)>)
    requires !HasElements(input, table)
    ensures var r := SetVariables(host, input, table);
            |r| > 0 && r[|r| - 1] == Crash(host.nullReference) && Continues(r[..|r| - 1]) &&
            Stdout(r) == []
    decreases |table|
  {
    var r := SetVariables(host, input, table);
    if ChildElement(input, table[0].0).Some? {
      assert !HasElements(input, table[1..]) by {
        var k :| 0 <= k < |table| && ChildElement(input, table[k].0).None?;
        assert k > 0 && table[1..][k - 1] == table[k];
      }
      MissingElementCrashes(host, input, table[1..]);
      var rest := SetVariables(host, input, table[1..]);
      assert r == [r[0]] + rest;
      assert r[..|r| - 1] == [r[0]] + rest[..|rest| - 1];
      StdoutAppend([r[0]], rest);
    }
  }
}
