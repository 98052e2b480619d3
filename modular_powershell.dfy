/** The entry point of the scheduling service (ModularPowerShell.cs): it
    configures the formatter, reads the input definition, copies the
    server settings into the environment, opens the event stream and hands
    one job per stanza to the scheduler. The scheduler and the cron parser
    are parameters: `cronError` gives the exception CronSchedule raises for
    a schedule (None: it parses), `scheduleJobs` the exception ScheduleJobs
    raises (None: scheduled). */
module ModularPowerShellMain {
  import opened Common
  import opened XmlTree
  import opened CommandLine
  import LegacyFormat
  import SplunkXmlHelpers

  const Usage: string :=
    "Invalid Arguments. Valid Invocation are:\n  ps.exe --validate_arguments\n  ps.exe --scheme\n  ps.exe\n"

  const InvalidInput: string := "input is not valid input xml"

  /** Error lines, one per message. */
  function Errors(msgs: seq<string>): (r: seq<Effect>)
    ensures |r| == |msgs| && Silent(r) && Continues(r)
    ensures forall k :: 0 <= k < |r| ==> r[k] == Error(msgs[k])
  {
    if msgs == [] then [] else [Error(msgs[0])] + Errors(msgs[1..])
  }

  /** Error lines and then an exit: the exit is the only ending, and
      nothing reaches standard output. */
  lemma ErrorsThenExit(msgs: seq<string>, code: int)
    ensures var tail := Errors(msgs) + [Exit(code)];
            tail[|tail| - 1] == Exit(code) && Continues(tail[..|tail| - 1]) && Stdout(tail) == []
  {
    var tail := Errors(msgs) + [Exit(code)];
    assert tail[..|tail| - 1] == Errors(msgs);
    SilentStdout(Errors(msgs));
    StdoutAppend(Errors(msgs), [Exit(code)]);
  }

  /** How ReadInput ends: the process exited during argument handling, the
      `<input>` element came back, or an exception (message, inner message)
      left it. */
  datatype ReadStatus = Exited | Document(input: XNode) | Thrown(message: string, inner: Option<string>)

  datatype ReadResult = ReadResult(effects: seq<Effect>, status: ReadStatus)

  /** ReadInput(args). */
  function ReadInput(host: Host, args: seq<string>): (r: ReadResult)
    ensures r.status.Exited? <==> ArgumentExit(Classify(args)).Some?
    ensures r.status.Exited? ==>
              |r.effects| > 0 && r.effects[|r.effects| - 1] == Exit(ArgumentExit(Classify(args)).value) &&
              Continues(r.effects[..|r.effects| - 1])
    ensures !r.status.Exited? ==> Continues(r.effects)
    ensures r.status.Document? <==> InputRoot(host, args).Some?
    ensures r.status.Document? ==> r.status.input == InputRoot(host, args).value
    ensures Stdout(r.effects) == if Classify(args).Scheme? then [host.scheme] else []
  {
    var m := Classify(args);
    if ArgumentExit(m).Some? then ReadArguments(host, m)
    else if m.InputFile? then
      ReadDocument(host, Info("Reading InputDefinition from parameter for testing"), host.load(m.path))
    else ReadDocument(host, Info("Reading InputDefinition"), host.stdin)
  }

  /** The argument forms that end the process: the scheme, or an error. */
  function ReadArguments(host: Host, m: Mode): (r: ReadResult)
    requires ArgumentExit(m).Some?
    ensures r.status.Exited? && |r.effects| > 0 && r.effects[|r.effects| - 1] == Exit(ArgumentExit(m).value)
    ensures Continues(r.effects[..|r.effects| - 1])
    ensures Stdout(r.effects) == if m.Scheme? then [host.scheme] else []
  {
    match m
    case Scheme => ReadResult([Write(Out(host.scheme)), Exit(0)], Exited)
    case ValidateArguments => ReadResult([Error("--validate_arguments not implemented yet"), Exit(1)], Exited)
    case BadUsage => ReadResult([Error(Usage), Exit(2)], Exited)
  }

  /** The rest of ReadInput once `log` is written and the document is read:
      its root must be `<input>`, which is then logged and returned. */
  function ReadDocument(host: Host, log: Effect, d: Loaded): (r: ReadResult)
    requires log.Log?
    ensures Continues(r.effects) && Stdout(r.effects) == []
    ensures r.status.Document? <==> d.Parsed? && RootElement(d.root, "input").Some?
    ensures r.status.Document? ==> r.status.input == d.root
    ensures !r.status.Exited?
  {
    match d
    case LoadFails(message, inner) => ReadResult([log], Thrown(message, inner))
    case Parsed(root) =>
      if RootElement(root, "input").None? then ReadResult([log], Thrown(InvalidInput, None))
      else ReadResult([log, Info(host.render(root))], Document(root))
  }

  /** An exception, as the catch block reads it: its message and the
      message of its InnerException, if any. */
  datatype Exception = Exception(message: string, inner: Option<string>)

  /** What `(from stanza ... select ...).ToDictionary(...)` gives: the jobs,
      or the first exception. */
  datatype Jobs = Built(jobs: seq<Job>) | BuildFails(error: Exception)

  /** What the query reads from one stanza: its name attribute (None: the
      null whose `.Value` throws), its "script" and its "schedule". */
  datatype Candidate = Candidate(name: Option<string>, script: string, schedule: string)

  function CandidateOf(stanza: XNode): Candidate {
    Candidate(Attribute(stanza, "name"), SplunkXmlHelpers.GetParameterValue(stanza, "script"),
              SplunkXmlHelpers.GetParameterValue(stanza, "schedule"))
  }

  /** The stanzas read in document order. */
  function Candidates(stanzas: seq<XNode>): (r: seq<Candidate>)
    ensures |r| == |stanzas| && forall i :: 0 <= i < |r| ==> r[i] == CandidateOf(stanzas[i])
  {
    if stanzas == [] then [] else [CandidateOf(stanzas[0])] + Candidates(stanzas[1..])
  }

  predicate Named(jobs: seq<Job>, name: string) {
    exists k :: 0 <= k < |jobs| && jobs[k].name == name
  }

  /** The candidates in document order, each evaluated in turn after the
      jobs already `built`: a missing name attribute is a null reference, a
      schedule the cron parser rejects raises its error, and a name already
      used is a duplicate dictionary key. Reading a stanza throws nothing
      else, so reading all of them first changes no outcome. */
  function BuildJobs(host: Host, duplicateKey: string, cronError: string -> Option<Exception>,
                     cs: seq<Candidate>, built: seq<Job>): (r: Jobs)
    decreases |cs|
  {
    if cs == [] then Built(built)
    else
      match cs[0].name
      case None => BuildFails(Exception(host.nullReference, None))
      case Some(name) =>
        var job := Job(name, cs[0].script, cs[0].schedule);
        if cronError(job.schedule).Some? then BuildFails(cronError(job.schedule).value)
        else if Named(built, name) then BuildFails(Exception(duplicateKey, None))
        else BuildJobs(host, duplicateKey, cronError, cs[1..], built + [job])
  }

  /** The jobs of the `<stanza>` elements below `input`. */
  function JobsOf(host: Host, duplicateKey: string, cronError: string -> Option<Exception>, input: XNode): Jobs {
    BuildJobs(host, duplicateKey, cronError, Candidates(Descendants(input, "stanza")), [])
  }

  predicate DistinctNames(jobs: seq<Job>) {
    forall i, j :: 0 <= i < j < |jobs| ==> jobs[i].name != jobs[j].name
  }

  /** `job` is what candidate `c` becomes: it carries the name, the script
      and the schedule read, and the schedule parses. */
  predicate Becomes(c: Candidate, job: Job, cronError: string -> Option<Exception>) {
    c == Candidate(Some(job.name), job.script, job.schedule) && cronError(job.schedule).None?
  }

  /** `job` is what `stanza` becomes: it carries the stanza's name
      attribute, its "script" and "schedule" parameters, and the schedule
      parses. */
  predicate MadeFrom(job: Job, stanza: XNode, cronError: string -> Option<Exception>) {
    Becomes(CandidateOf(stanza), job, cronError)
  }

  /** When the jobs are built, there is one per stanza, in document order,
      named after the stanza's full name attribute, with a schedule the cron
      parser accepts. */
  lemma JobsFollowStanzas(host: Host, duplicateKey: string, cronError: string -> Option<Exception>,
                          stanzas: seq<XNode>, jobs: seq<Job>)
    requires BuildJobs(host, duplicateKey, cronError, Candidates(stanzas), []) == Built(jobs)
    ensures |jobs| == |stanzas|
    ensures forall i :: 0 <= i < |stanzas| ==> MadeFrom(jobs[i], stanzas[i], cronError)
  {
    var cs := Candidates(stanzas);
    JobsExtend(host, duplicateKey, cronError, cs, [], jobs);
    forall i | 0 <= i < |stanzas| ensures MadeFrom(jobs[i], stanzas[i], cronError) {
      JobAt(host, duplicateKey, cronError, cs, [], jobs, i);
    }
  }

  /** The jobs built extend those already built by one per candidate. */
  lemma {:induction false} JobsExtend(host: Host, duplicateKey: string, cronError: string -> Option<Exception>,
                                      cs: seq<Candidate>, built: seq<Job>, jobs: seq<Job>)
    requires BuildJobs(host, duplicateKey, cronError, cs, built) == Built(jobs)
    ensures |jobs| == |built| + |cs| && jobs[..|built|] == built
    decreases |cs|
  {
    if cs != [] {
      BuildStep(host, duplicateKey, cronError, cs, built);
      var next := built + [Job(cs[0].name.value, cs[0].script, cs[0].schedule)];
      JobsExtend(host, duplicateKey, cronError, cs[1..], next, jobs);
      assert jobs[..|built|] == jobs[..|next|][..|built|];
    }
  }

  /** The job at position `i` among the new ones is what candidate `i`
      becomes. */
  lemma {:induction false} JobAt(host: Host, duplicateKey: string, cronError: string -> Option<Exception>,
                                 cs: seq<Candidate>, built: seq<Job>, jobs: seq<Job>, i: nat)
    requires BuildJobs(host, duplicateKey, cronError, cs, built) == Built(jobs)
    requires i < |cs|
    ensures |built| + i < |jobs| && Becomes(cs[i], jobs[|built| + i], cronError)
    decreases i
  {
    BuildStep(host, duplicateKey, cronError, cs, built);
    var job := Job(cs[0].name.value, cs[0].script, cs[0].schedule);
    var next := built + [job];
    if i == 0 {
      JobsExtend(host, duplicateKey, cronError, cs[1..], next, jobs);
      assert jobs[|built|] == jobs[..|next|][|built|] == job;
    } else {
      JobAt(host, duplicateKey, cronError, cs[1..], next, jobs, i - 1);
      assert |next| + (i - 1) == |built| + i && cs[1..][i - 1] == cs[i];
    }
  }

  /** The first candidate of a list that builds becomes a job, and the
      rest build after it. */
  lemma BuildStep(host: Host, duplicateKey: string, cronError: string -> Option<Exception>,
                  cs: seq<Candidate>, built: seq<Job>)
    requires cs != [] && BuildJobs(host, duplicateKey, cronError, cs, built).Built?
    ensures cs[0].name.Some?
    ensures var job := Job(cs[0].name.value, cs[0].script, cs[0].schedule);
            Becomes(cs[0], job, cronError) && !Named(built, job.name) &&
            BuildJobs(host, duplicateKey, cronError, cs, built) ==
            BuildJobs(host, duplicateKey, cronError, cs[1..], built + [job])
  {
  }

  /** No two jobs built share a name. */
  lemma JobNamesDistinct(host: Host, duplicateKey: string, cronError: string -> Option<Exception>,
                         stanzas: seq<XNode>, jobs: seq<Job>)
    requires BuildJobs(host, duplicateKey, cronError, Candidates(stanzas), []) == Built(jobs)
    ensures DistinctNames(jobs)
  {
    NamesStayDistinct(host, duplicateKey, cronError, Candidates(stanzas), [], jobs);
  }

  lemma {:induction false} NamesStayDistinct(host: Host, duplicateKey: string, cronError: string -> Option<Exception>,
                                             cs: seq<Candidate>, built: seq<Job>, jobs: seq<Job>)
    requires BuildJobs(host, duplicateKey, cronError, cs, built) == Built(jobs)
    requires DistinctNames(built)
    ensures DistinctNames(jobs)
    decreases |cs|
  {
    if cs != [] {
      BuildStep(host, duplicateKey, cronError, cs, built);
      var name := cs[0].name.value;
      var next := built + [Job(name, cs[0].script, cs[0].schedule)];
      assert DistinctNames(next) by {
        forall i | 0 <= i < |built| ensures built[i].name != name {
        }
      }
      NamesStayDistinct(host, duplicateKey, cronError, cs[1..], next, jobs);
    }
  }

  /** Conversely, stanzas that are all named, with schedules that parse
      and names that are all different, are all scheduled. */
  lemma ValidStanzasAreBuilt(host: Host, duplicateKey: string, cronError: string -> Option<Exception>,
                             stanzas: seq<XNode>)
    requires forall i :: 0 <= i < |stanzas| ==> Attribute(stanzas[i], "name").Some?
    requires forall i :: 0 <= i < |stanzas| ==>
               cronError(SplunkXmlHelpers.GetParameterValue(stanzas[i], "schedule")).None?
    requires forall i, j :: 0 <= i < j < |stanzas| ==> Attribute(stanzas[i], "name") != Attribute(stanzas[j], "name")
    ensures BuildJobs(host, duplicateKey, cronError, Candidates(stanzas), []).Built?
  {
    var cs := Candidates(stanzas);
    forall i | 0 <= i < |cs| ensures cs[i].name.Some? && cronError(cs[i].schedule).None? {
      assert cs[i] == CandidateOf(stanzas[i]);
    }
    forall i, j | 0 <= i < j < |cs| ensures cs[i].name != cs[j].name {
      assert cs[i] == CandidateOf(stanzas[i]) && cs[j] == CandidateOf(stanzas[j]);
    }
    ValidCandidatesAreBuilt(host, duplicateKey, cronError, cs, []);
  }

  lemma {:induction false} ValidCandidatesAreBuilt(host: Host, duplicateKey: string, cronError: string -> Option<Exception>,
                                                   cs: seq<Candidate>, built: seq<Job>)
    requires forall i :: 0 <= i < |cs| ==> cs[i].name.Some? && cronError(cs[i].schedule).None?
    requires forall i, j :: 0 <= i < j < |cs| ==> cs[i].name != cs[j].name
    requires forall i :: 0 <= i < |cs| ==> !Named(built, cs[i].name.value)
    ensures BuildJobs(host, duplicateKey, cronError, cs, built).Built?
    decreases |cs|
  {
    if cs != [] {
      var next := built + [Job(cs[0].name.value, cs[0].script, cs[0].schedule)];
      forall i | 0 <= i < |cs[1..]| ensures !Named(next, cs[1..][i].name.value) {
        assert cs[1..][i] == cs[i + 1];
      }
      forall i, j | 0 <= i < j < |cs[1..]| ensures cs[1..][i].name != cs[1..][j].name {
        assert cs[1..][i] == cs[i + 1] && cs[1..][j] == cs[j + 1];
      }
      forall i | 0 <= i < |cs[1..]| ensures cs[1..][i].name.Some? && cronError(cs[1..][i].schedule).None? {
        assert cs[1..][i] == cs[i + 1];
      }
      ValidCandidatesAreBuilt(host, duplicateKey, cronError, cs[1..], next);
    }
  }

  /** Why scheduling fails, if it does: building the jobs, then handing
      them to the scheduler. */
  function ScheduleFailure(host: Host, duplicateKey: string, cronError: string -> Option<Exception>,
                           scheduleJobs: seq<Job> -> Option<Exception>, input: XNode): (r: Option<Exception>)
  {
    match JobsOf(host, duplicateKey, cronError, input)
    case BuildFails(e) => Some(e)
    case Built(jobs) => scheduleJobs(jobs)
  }

  /** Main(args). `settings` holds the LogOutputErrors and
      OutputBlanksOnError application settings; `duplicateKey` is the
      message of the exception ToDictionary raises for a repeated key. */
  function Main(host: Host, settings: LegacyFormat.Flags, duplicateKey: string, cronError: string -> Option<Exception>,
                scheduleJobs: seq<Job> -> Option<Exception>, args: seq<string>): (effects: seq<Effect>)
    ensures |effects| > 2 && effects[..2] == Start(settings, args)
  {
    Start(settings, args) + Rest(host, duplicateKey, cronError, scheduleJobs, args)
  }

  /** The formatter is configured, then the command line logged. */
  function Start(settings: LegacyFormat.Flags, args: seq<string>): (effects: seq<Effect>)
    ensures |effects| == 2 && Continues(effects) && Stdout(effects) == []
    ensures effects[0] == Configure(settings) && effects[1] == Info("PowerShell.exe " + Join(args, " "))
  {
    var start := [Configure(settings), Info("PowerShell.exe " + Join(args, " "))];
    assert Silent(start);
    SilentStdout(start);
    start
  }

  /** ReadInput, and what Main does once it has returned or thrown. */
  function Rest(host: Host, duplicateKey: string, cronError: string -> Option<Exception>,
                scheduleJobs: seq<Job> -> Option<Exception>, args: seq<string>): (effects: seq<Effect>)
    ensures |effects| > 0
  {
    var read := ReadInput(host, args);
    read.effects +
    match read.status
    case Exited => []
    case Thrown(message, inner) =>
      Errors(["Failed to parse inputs", message] + (if inner.Some? then [inner.value] else [])) + [Exit(4)]
    case Document(input) => Serve(host, duplicateKey, cronError, scheduleJobs, input)
  }

  /** The part of Main after the input is read: the environment, then the
      event stream. */
  function Serve(host: Host, duplicateKey: string, cronError: string -> Option<Exception>,
                 scheduleJobs: seq<Job> -> Option<Exception>, input: XNode): (effects: seq<Effect>)
    ensures |effects| > 0
  {
    var variables := SetVariables(host, input, GlobalElements);
    if !HasElements(input, GlobalElements) then
      MissingElementCrashes(host, input, GlobalElements);
      variables
    else variables + ([Write(Out("<stream>"))] + Schedule(host, duplicateKey, cronError, scheduleJobs, input))
  }

  /** The lines the catch block logs: its own, the message, and the inner
      message when there is one. */
  function FailureReport(e: Exception): seq<string> {
    ["Failed to schedule jobs in Quartz", e.message] + (if e.inner.Some? then [e.inner.value] else [])
  }

  /** Scheduling one job per stanza, or reporting why it failed. */
  function Schedule(host: Host, duplicateKey: string, cronError: string -> Option<Exception>,
                    scheduleJobs: seq<Job> -> Option<Exception>, input: XNode): seq<Effect>
  {
    match ScheduleFailure(host, duplicateKey, cronError, scheduleJobs, input)
    case Some(e) => Errors(FailureReport(e)) + [Exit(5)]
    case None =>
      [ScheduleJobs(JobsOf(host, duplicateKey, cronError, input).jobs),
       Info("Finished InputDefinition")]
  }

  /** Main's standard output and ending are those of what follows its
      start. */
  lemma MainEnds(host: Host, settings: LegacyFormat.Flags, duplicateKey: string,
                 cronError: string -> Option<Exception>, scheduleJobs: seq<Job> -> Option<Exception>,
                 args: seq<string>)
    ensures var effects := Main(host, settings, duplicateKey, cronError, scheduleJobs, args);
            var rest := Rest(host, duplicateKey, cronError, scheduleJobs, args);
            Stdout(effects) == Stdout(rest) && effects[|effects| - 1] == rest[|rest| - 1] &&
            (|rest| > 1 ==> effects[|effects| - 2] == rest[|rest| - 2]) &&
            (Continues(effects) <==> Continues(rest)) &&
            (Continues(effects[..|effects| - 1]) <==> Continues(rest[..|rest| - 1]))
  {
    var rest := Rest(host, duplicateKey, cronError, scheduleJobs, args);
    assert Main(host, settings, duplicateKey, cronError, scheduleJobs, args) == Start(settings, args) + rest;
    QuietPrefix(Start(settings, args), rest);
  }

  /** The three argument forms that do not read input end the process with
      their own exit code, having written only the scheme (if asked for) to
      standard output. */
  lemma ArgumentsHandled(host: Host, settings: LegacyFormat.Flags, duplicateKey: string,
                         cronError: string -> Option<Exception>, scheduleJobs: seq<Job> -> Option<Exception>,
                         args: seq<string>)
    requires ArgumentExit(Classify(args)).Some?
    ensures var effects := Main(host, settings, duplicateKey, cronError, scheduleJobs, args);
            effects[|effects| - 1] == Exit(ArgumentExit(Classify(args)).value) &&
            Continues(effects[..|effects| - 1]) &&
            Stdout(effects) == if Classify(args).Scheme? then [host.scheme] else []
  {
    MainEnds(host, settings, duplicateKey, cronError, scheduleJobs, args);
    var read := ReadInput(host, args);
    assert Rest(host, duplicateKey, cronError, scheduleJobs, args) == read.effects + [];
    assert read.effects + [] == read.effects;
  }

  /** A document that cannot be read or parsed, or whose root is not
      `<input>`, ends the process with exit code 4 before anything is
      written to standard output. */
  lemma UnreadableInputExitsFour(host: Host, settings: LegacyFormat.Flags, duplicateKey: string,
                                 cronError: string -> Option<Exception>, scheduleJobs: seq<Job> -> Option<Exception>,
                                 args: seq<string>)
    requires ArgumentExit(Classify(args)).None? && InputRoot(host, args).None?
    ensures var effects := Main(host, settings, duplicateKey, cronError, scheduleJobs, args);
            effects[|effects| - 1] == Exit(4) && Continues(effects[..|effects| - 1]) && Stdout(effects) == []
  {
    MainEnds(host, settings, duplicateKey, cronError, scheduleJobs, args);
    ThrownRest(host, duplicateKey, cronError, scheduleJobs, args);
  }

  /** When ReadInput throws, what follows it is the report and exit code 4. */
  lemma ThrownRest(host: Host, duplicateKey: string, cronError: string -> Option<Exception>,
                   scheduleJobs: seq<Job> -> Option<Exception>, args: seq<string>)
    requires ArgumentExit(Classify(args)).None? && InputRoot(host, args).None?
    ensures var rest := Rest(host, duplicateKey, cronError, scheduleJobs, args);
            rest[|rest| - 1] == Exit(4) && Continues(rest[..|rest| - 1]) && Stdout(rest) == []
  {
    var read := ReadInput(host, args);
    assert read.status.Thrown?;
    var inner := read.status.inner;
    var msgs := ["Failed to parse inputs", read.status.message] + (if inner.Some? then [inner.value] else []);
    RestWhenThrown(host, duplicateKey, cronError, scheduleJobs, args, read, msgs);
    ReportAfterQuiet(read.effects, msgs, 4, Rest(host, duplicateKey, cronError, scheduleJobs, args));
  }

  /** Quiet effects followed by a report and an exit end with that exit and
      write nothing to standard output. */
  lemma ReportAfterQuiet(front: seq<Effect>, msgs: seq<string>, code: int, all: seq<Effect>)
    requires Continues(front) && Stdout(front) == []
    requires all == front + (Errors(msgs) + [Exit(code)])
    ensures all[|all| - 1] == Exit(code) && Continues(all[..|all| - 1]) && Stdout(all) == []
  {
    ErrorsThenExit(msgs, code);
    QuietPrefix(front, Errors(msgs) + [Exit(code)]);
  }

  /** Rest once ReadInput has thrown: its logging, the report, exit code 4. */
  lemma RestWhenThrown(host: Host, duplicateKey: string, cronError: string -> Option<Exception>,
                       scheduleJobs: seq<Job> -> Option<Exception>, args: seq<string>,
                       read: ReadResult, msgs: seq<string>)
    requires read == ReadInput(host, args) && read.status.Thrown?
    requires msgs == ["Failed to parse inputs", read.status.message] +
                     (if read.status.inner.Some? then [read.status.inner.value] else [])
    ensures Rest(host, duplicateKey, cronError, scheduleJobs, args) == read.effects + (Errors(msgs) + [Exit(4)])
  {
  }

  /** Once `input` is read, what follows ReadInput's logging is Serve. */
  lemma InputServed(host: Host, duplicateKey: string, cronError: string -> Option<Exception>,
                    scheduleJobs: seq<Job> -> Option<Exception>, args: seq<string>, input: XNode)
    requires InputRoot(host, args) == Some(input)
    ensures var read := ReadInput(host, args);
            var served := Serve(host, duplicateKey, cronError, scheduleJobs, input);
            var rest := Rest(host, duplicateKey, cronError, scheduleJobs, args);
            Stdout(rest) == Stdout(served) && rest[|rest| - 1] == served[|served| - 1] &&
            (|served| > 1 ==> rest[|rest| - 2] == served[|served| - 2]) &&
            (Continues(rest) <==> Continues(served)) &&
            (Continues(rest[..|rest| - 1]) <==> Continues(served[..|served| - 1]))
  {
    var read := ReadInput(host, args);
    var served := Serve(host, duplicateKey, cronError, scheduleJobs, input);
    assert read.status == Document(input);
    assert Rest(host, duplicateKey, cronError, scheduleJobs, args) == read.effects + served;
    QuietPrefix(read.effects, served);
  }

  /** Scheduling writes nothing to standard output; it either logs the
      failure, its message and any inner message and exits with code 5, or
      hands the jobs over and logs that it has finished. */
  lemma ScheduleOutcome(host: Host, duplicateKey: string, cronError: string -> Option<Exception>,
                        scheduleJobs: seq<Job> -> Option<Exception>, input: XNode)
    ensures var tail := Schedule(host, duplicateKey, cronError, scheduleJobs, input);
            var failure := ScheduleFailure(host, duplicateKey, cronError, scheduleJobs, input);
            |tail| > 1 && Stdout(tail) == [] &&
            (failure.Some? ==>
               tail[|tail| - 1] == Exit(5) && Continues(tail[..|tail| - 1]) &&
               |tail| == (if failure.value.inner.Some? then 4 else 3) &&
               tail[0] == Error("Failed to schedule jobs in Quartz") && tail[1] == Error(failure.value.message) &&
               (failure.value.inner.Some? ==> tail[2] == Error(failure.value.inner.value))) &&
            (failure.None? ==>
               Continues(tail) &&
               tail == [ScheduleJobs(JobsOf(host, duplicateKey, cronError, input).jobs),
                        Info("Finished InputDefinition")])
  {
    var tail := Schedule(host, duplicateKey, cronError, scheduleJobs, input);
    match ScheduleFailure(host, duplicateKey, cronError, scheduleJobs, input) {
      case Some(e) =>
        ErrorsThenExit(FailureReport(e), 5);
      case None =>
        assert Silent(tail);
        SilentStdout(tail);
    }
  }

  /** `<stream>` written between quiet effects and a tail that writes
      nothing to standard output. */
  lemma OpenStream(front: seq<Effect>, tail: seq<Effect>)
    requires Continues(front) && Stdout(front) == [] && Stdout(tail) == [] && |tail| > 1
    ensures var all := front + ([Write(Out("<stream>"))] + tail);
            Stdout(all) == ["<stream>"] &&
            all[|all| - 1] == tail[|tail| - 1] && all[|all| - 2] == tail[|tail| - 2] &&
            (Continues(all) <==> Continues(tail)) &&
            (Continues(all[..|all| - 1]) <==> Continues(tail[..|tail| - 1]))
  {
    var stream := [Write(Out("<stream>"))];
    assert Continues(stream) && Stdout(stream) == ["<stream>"];
    var streamed := stream + tail;
    StdoutAppend(stream, tail);
    assert streamed[..|streamed| - 1] == stream + tail[..|tail| - 1];
    QuietPrefix(front, streamed);
    if Continues(tail) {
      ContinuesAppend(stream, tail);
    }
    if Continues(tail[..|tail| - 1]) {
      ContinuesAppend(stream, tail[..|tail| - 1]);
    }
  }

  /** With the settings present, Serve writes `<stream>` and nothing else to
      standard output, and ends as scheduling ends. */
  lemma ServeOutcome(host: Host, duplicateKey: string, cronError: string -> Option<Exception>,
                     scheduleJobs: seq<Job> -> Option<Exception>, input: XNode)
    requires HasElements(input, GlobalElements)
    ensures var served := Serve(host, duplicateKey, cronError, scheduleJobs, input);
            var tail := Schedule(host, duplicateKey, cronError, scheduleJobs, input);
            |served| > 1 && |tail| > 1 && Stdout(served) == ["<stream>"] &&
            served[|served| - 1] == tail[|tail| - 1] && served[|served| - 2] == tail[|tail| - 2] &&
            (Continues(served) <==> Continues(tail)) &&
            (Continues(served[..|served| - 1]) <==> Continues(tail[..|tail| - 1]))
  {
    ScheduleOutcome(host, duplicateKey, cronError, scheduleJobs, input);
    VariablesSet(host, input, GlobalElements);
    OpenStream(SetVariables(host, input, GlobalElements), Schedule(host, duplicateKey, cronError, scheduleJobs, input));
  }

  /** A server setting missing from the input is a null reference that
      ends the process before the event stream is opened. */
  lemma MissingSettingCrashes(host: Host, settings: LegacyFormat.Flags, duplicateKey: string,
                              cronError: string -> Option<Exception>, scheduleJobs: seq<Job> -> Option<Exception>,
                              args: seq<string>, input: XNode)
    requires InputRoot(host, args) == Some(input) && !HasElements(input, GlobalElements)
    ensures var effects := Main(host, settings, duplicateKey, cronError, scheduleJobs, args);
            effects[|effects| - 1] == Crash(host.nullReference) && Continues(effects[..|effects| - 1]) &&
            Stdout(effects) == []
  {
    MainEnds(host, settings, duplicateKey, cronError, scheduleJobs, args);
    InputServed(host, duplicateKey, cronError, scheduleJobs, args, input);
    ServedVariablesOnly(host, duplicateKey, cronError, scheduleJobs, input);
    MissingElementCrashes(host, input, GlobalElements);
  }

  lemma ServedVariablesOnly(host: Host, duplicateKey: string, cronError: string -> Option<Exception>,
                            scheduleJobs: seq<Job> -> Option<Exception>, input: XNode)
    requires !HasElements(input, GlobalElements)
    ensures Serve(host, duplicateKey, cronError, scheduleJobs, input) == SetVariables(host, input, GlobalElements)
  {
  }

  /** With the settings present, `<stream>` is the one line written to
      standard output; then either every stanza is scheduled and the
      process goes on, or scheduling fails and it exits with code 5. */
  lemma StreamThenSchedule(host: Host, settings: LegacyFormat.Flags, duplicateKey: string,
                           cronError: string -> Option<Exception>, scheduleJobs: seq<Job> -> Option<Exception>,
                           args: seq<string>, input: XNode)
    requires InputRoot(host, args) == Some(input) && HasElements(input, GlobalElements)
    ensures var effects := Main(host, settings, duplicateKey, cronError, scheduleJobs, args);
            var failure := ScheduleFailure(host, duplicateKey, cronError, scheduleJobs, input);
            Stdout(effects) == ["<stream>"] &&
            (failure.Some? ==> effects[|effects| - 1] == Exit(5) && Continues(effects[..|effects| - 1])) &&
            (failure.None? ==>
               Continues(effects) && effects[|effects| - 1] == Info("Finished InputDefinition") &&
               effects[|effects| - 2] ==
                 ScheduleJobs(JobsOf(host, duplicateKey, cronError, input).jobs))
  {
    MainEnds(host, settings, duplicateKey, cronError, scheduleJobs, args);
    InputServed(host, duplicateKey, cronError, scheduleJobs, args, input);
    ServeOutcome(host, duplicateKey, cronError, scheduleJobs, input);
    ScheduleOutcome(host, duplicateKey, cronError, scheduleJobs, input);
  }
}
