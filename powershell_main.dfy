/** The entry point of PowerShell.exe (PowerShell.cs): it logs its command
    line straight to standard error, configures the XmlFormatter and gives
    it a console logger, handles the arguments, reads the input definition
    and hands its `<input>` element to the scheduler. Its messages are
    written with Console.Error.Write, without a line terminator. What the
    scheduler then does is not part of this model. */
module PowerShellMain {
  import opened Common
  import opened XmlTree
  import opened CommandLine
  import LegacyFormat

  const Usage: string :=
    "Invalid Arguments. Valid Invocation are:\n  PowerShell.exe --validate_arguments\n  PowerShell.exe --scheme\n  PowerShell.exe\n"

  /** What happens before the arguments are looked at. */
  function Start(settings: LegacyFormat.Flags, args: seq<string>): (effects: seq<Effect>)
    ensures Continues(effects) && Stdout(effects) == []
  {
    var start := [Write(Err("INFO: PowerShell.exe " + Join(args, " "))), Configure(settings), UseConsoleLogger];
    assert Silent(start);
    SilentStdout(start);
    start
  }

  /** Main(args). `settings` holds the LogOutputErrors and
      OutputBlanksOnError application settings. */
  function Main(host: Host, settings: LegacyFormat.Flags, args: seq<string>): (effects: seq<Effect>)
    ensures |effects| > 3 && effects[..3] == Start(settings, args)
    ensures effects[1] == Configure(settings) && effects[2] == UseConsoleLogger
  {
    var m := Classify(args);
    Start(settings, args) + if ArgumentExit(m).Some? then Arguments(host, m) else Document(host, Source(host, m))
  }

  /** The argument forms that end the process: the scheme, or an error. */
  function Arguments(host: Host, m: Mode): (effects: seq<Effect>)
    requires ArgumentExit(m).Some?
    ensures |effects| == 2 && effects[1] == Exit(ArgumentExit(m).value) && !Ends(effects[0])
    ensures Stdout(effects) == if m.Scheme? then [host.scheme] else []
    ensures !m.Scheme? ==> effects[0].ErrorText? && "ERROR: " <= effects[0].text
  {
    match m
    case Scheme => [Write(Out(host.scheme)), Exit(0)]
    case ValidateArguments => [ErrorText("ERROR: --validate_arguments not implemented yet"), Exit(1)]
    case BadUsage => [ErrorText("ERROR: " + Usage), Exit(2)]
  }

  /** The document once read: a load or parse failure is not caught; the
      document is echoed, and a root other than `<input>` ends the process
      with code 6. */
  function Document(host: Host, d: Loaded): (effects: seq<Effect>)
    ensures |effects| > 0 && Stdout(effects) == [] && Continues(effects[..|effects| - 1])
    ensures d.LoadFails? ==> effects == [Crash(d.message)]
    ensures d.Parsed? && RootElement(d.root, "input").None? ==>
              |effects| > 1 && effects[|effects| - 1] == Exit(6) && effects[|effects| - 2].ErrorText? &&
              "ERROR: " <= effects[|effects| - 2].text
    ensures d.Parsed? && RootElement(d.root, "input").Some? ==>
              effects[|effects| - 1] == StartScheduler(d.root)
  {
    match d
    case LoadFails(message, _) => [Crash(message)]
    case Parsed(root) =>
      var shown := ErrorText("DEBUG: " + host.render(root));
      if RootElement(root, "input").None? then
        var effects := [shown, ErrorText("ERROR: input is not valid input xml"), Exit(6)];
        assert Silent(effects) && Continues(effects[..2]);
        SilentStdout(effects);
        effects
      else
        var effects := [shown, StartScheduler(root)];
        assert Silent(effects) && Continues(effects);
        SilentStdout(effects);
        effects
  }

  /** Main is its start followed by what the arguments or the document
      decide; the start neither ends the process nor writes to standard
      output, so the ending and the standard output are theirs. */
  lemma MainEnds(host: Host, settings: LegacyFormat.Flags, args: seq<string>)
    ensures var m := Classify(args);
            var rest := if ArgumentExit(m).Some? then Arguments(host, m) else Document(host, Source(host, m));
            var effects := Main(host, settings, args);
            Stdout(effects) == Stdout(rest) && effects[|effects| - 1] == rest[|rest| - 1] &&
            effects[|effects| - 2] == (if |rest| > 1 then rest[|rest| - 2] else effects[2]) &&
            (Continues(effects[..|effects| - 1]) <==> Continues(rest[..|rest| - 1]))
  {
    var m := Classify(args);
    var rest := if ArgumentExit(m).Some? then Arguments(host, m) else Document(host, Source(host, m));
    QuietPrefix(Start(settings, args), rest);
  }

  /** The three argument forms that read no input end the process with
      their exit code; only the scheme reaches standard output, and the two
      errors are reported with an "ERROR: " prefix. */
  lemma ArgumentsHandled(host: Host, settings: LegacyFormat.Flags, args: seq<string>)
    requires ArgumentExit(Classify(args)).Some?
    ensures var effects := Main(host, settings, args);
            effects[|effects| - 1] == Exit(ArgumentExit(Classify(args)).value) &&
            Continues(effects[..|effects| - 1]) &&
            Stdout(effects) == (if Classify(args).Scheme? then [host.scheme] else []) &&
            (!Classify(args).Scheme? ==> effects[|effects| - 2].ErrorText? && "ERROR: " <= effects[|effects| - 2].text)
  {
    MainEnds(host, settings, args);
  }

  /** A document that cannot be loaded or parsed raises an exception that
      nothing catches. */
  lemma LoadFailureCrashes(host: Host, settings: LegacyFormat.Flags, args: seq<string>)
    requires ArgumentExit(Classify(args)).None? && Source(host, Classify(args)).LoadFails?
    ensures var effects := Main(host, settings, args);
            effects[|effects| - 1] == Crash(Source(host, Classify(args)).message) &&
            Continues(effects[..|effects| - 1]) && Stdout(effects) == []
  {
    MainEnds(host, settings, args);
  }

  /** A document whose root is not `<input>` ends the process with exit
      code 6, after an "ERROR: " message. */
  lemma NotInputExitsSix(host: Host, settings: LegacyFormat.Flags, args: seq<string>)
    requires ArgumentExit(Classify(args)).None? && Source(host, Classify(args)).Parsed?
    requires InputRoot(host, args).None?
    ensures var effects := Main(host, settings, args);
            effects[|effects| - 1] == Exit(6) && Continues(effects[..|effects| - 1]) && Stdout(effects) == [] &&
            effects[|effects| - 2].ErrorText? && "ERROR: " <= effects[|effects| - 2].text
  {
    MainEnds(host, settings, args);
  }

  /** Otherwise the `<input>` element is what the scheduler starts with,
      and nothing has ended the process or reached standard output. */
  lemma InputStartsScheduler(host: Host, settings: LegacyFormat.Flags, args: seq<string>)
    requires InputRoot(host, args).Some?
    ensures var effects := Main(host, settings, args);
            effects[|effects| - 1] == StartScheduler(InputRoot(host, args).value) &&
            Continues(effects) && Stdout(effects) == []
  {
    MainEnds(host, settings, args);
    var effects := Main(host, settings, args);
    assert Continues(effects) by {
      forall k | 0 <= k < |effects| ensures !Ends(effects[k]) {
        if k < |effects| - 1 {
          assert effects[k] == effects[..|effects| - 1][k];
        }
      }
    }
  }
}
