/** The property loop the two older SplunkXmlFormatter cmdlets share
    (ModularInputsModule and ModularPowerShell hold the same code): each
    gettable, non-script property is read with Value.ToString(); a failed
    read is logged and, when asked, emitted as a blank value; a reserved
    name becomes a metadata tag inserted at the front of the buffer, before
    `<data>`; any other name becomes a `name="value"` line after it. Nothing
    is escaped. */
module LegacyFormat {
  import opened Common
  import opened PsModel
  import XmlFormatter

  /** The log levels of the older formatters. */
  datatype LogLevel = Debug | Info | Warn | Error | Fatal

  function LevelName(level: LogLevel): string {
    match level
    case Debug => "Debug"
    case Info => "Info"
    case Warn => "Warn"
    case Error => "Error"
    case Fatal => "Fatal"
  }

  /** WriteLog(level, msg): one standard-error line, the upper-cased level
      name, a space, and the message. */
  function WriteLog(level: LogLevel, msg: string): (r: Line)
    ensures r.Err?
    ensures var n := |LevelName(level)|;
            |r.text| == n + 1 + |msg| && r.text[n] == ' ' && r.text[n + 1..] == msg &&
            EqualsIgnoreCase(r.text[..n], LevelName(level)) &&
            forall k :: 0 <= k < n ==> !('a' <= r.text[k] <= 'z')
  {
    var name := Upper(LevelName(level));
    UpperKeepsLowerCase(LevelName(level));
    assert (name + " " + msg)[..|name|] == name;
    assert (name + " " + msg)[|name| + 1..] == msg;
    Err(name + " " + msg)
  }

  /** The upper-cased level name, spelled out. */
  function LevelPrefix(level: LogLevel): string {
    match level
    case Debug => "DEBUG"
    case Info => "INFO"
    case Warn => "WARN"
    case Error => "ERROR"
    case Fatal => "FATAL"
  }

  /** WriteLog starts with the level's prefix, spelled out. */
  lemma LevelPrefixes(level: LogLevel, msg: string)
    ensures WriteLog(level, msg).text == LevelPrefix(level) + " " + msg
  {
    var name := LevelName(level);
    var up := LevelPrefix(level);
    assert |up| == |name|;
    forall k | 0 <= k < |name|
      ensures Upper(name)[k] == up[k]
    {
      assert Upper(name)[k] == UpperChar(name[k]);
    }
    assert Upper(name) == up;
  }

  /** WriteLog(msg): the Info level. */
  function WriteInfo(msg: string): (r: Line)
    ensures r == WriteLog(Info, msg)
  {
    WriteLog(Info, msg)
  }

  /** OutputBlanksOnError and LogOutputErrors (static properties in one
      cmdlet, application settings in the other). */
  datatype Flags = Flags(outputBlanksOnError: bool, logOutputErrors: bool)

  /** The outcome of `property.Value.ToString()`. */
  datatype Read = Read(text: string) | ReadFails(error: Failure)

  function ReadValue(rt: Runtime, v: Value): (r: Read)
    ensures r.Read? <==> v.Boxed? && v.shown.Shown?
    ensures r.Read? ==> r.text == XmlFormatter.ValueText(v)
    ensures v.Null? ==> r == ReadFails(rt.nullReference)
  {
    match v
    case Null => ReadFails(rt.nullReference)
    case GetterFails(e) => ReadFails(e)
    case Boxed(shown, _, _) =>
      match shown
      case Shown(s) => Read(s)
      case ToStringFails(e) => ReadFails(e)
  }

  /** Array.IndexOf: the first position of `x`, or -1. */
  function IndexOf(a: seq<string>, x: string): (r: int)
    ensures -1 <= r < |a|
    ensures r >= 0 ==> a[r] == x && forall j :: 0 <= j < r ==> a[j] != x
    ensures r == -1 <==> x !in a
  {
    if a == [] then -1
    else if a[0] == x then 0
    else
      var k := IndexOf(a[1..], x);
      if k < 0 then -1 else k + 1
  }

  /** The guard as written, `Array.IndexOf(ReservedProperties, name) > 0`:
      it skips position 0, which holds SplunkIndex. */
  predicate RecognisedAsWritten(name: string) {
    IndexOf(XmlFormatter.ReservedProperties, name) > 0
  }

  /** The evidently intended guard, `>= 0`. */
  predicate Recognised(name: string) {
    IndexOf(XmlFormatter.ReservedProperties, name) >= 0
  }

  /** Which of the two guards a run of the loop applies. Both cmdlets run
      the guard as written; the intended one is kept beside it so that the
      two can be compared with XmlFormatter. */
  datatype Guard = AsWritten | Intended

  predicate Reserves(g: Guard, name: string) {
    match g
    case AsWritten => RecognisedAsWritten(name)
    case Intended => Recognised(name)
  }

  /** Either guard passes only reserved names, and they differ on
      SplunkIndex alone. */
  lemma ReservesOnlyReserved(g: Guard, name: string)
    ensures Reserves(g, name) ==> XmlFormatter.IsReserved(name)
    ensures name != "SplunkIndex" ==> (Reserves(g, name) <==> XmlFormatter.IsReserved(name))
  {
    RecognisedIsReserved(name);
    SplunkIndexMissedAsWritten(name);
  }

  lemma RecognisedIsReserved(name: string)
    ensures Recognised(name) <==> XmlFormatter.IsReserved(name)
  {
  }

  /** The guard as written lets SplunkIndex through as ordinary data, and
      differs from the intended one on no other name. */
  lemma SplunkIndexMissedAsWritten(name: string)
    ensures !RecognisedAsWritten("SplunkIndex") && Recognised("SplunkIndex")
    ensures name != "SplunkIndex" ==> (RecognisedAsWritten(name) <==> Recognised(name))
  {
    var a := XmlFormatter.ReservedProperties;
    assert a[0] == "SplunkIndex";
    assert IndexOf(a, "SplunkIndex") == 0;
  }

  function ErrorReport(name: string, e: Failure): string {
    e.message + " Encountered while reading '" + name + "'.\nSTACK TRACE:\n" + e.stackTrace
  }

  function AsNameValue(p: PsProperty): XmlFormatter.NameValue {
    XmlFormatter.NameValue(p.name, p.value)
  }

  /** The metadata tag one property contributes. */
  function PropertyTag(rt: Runtime, g: Guard, p: PsProperty): seq<XmlFormatter.Tag> {
    if ReadValue(rt, p.value).Read? && Reserves(g, p.name) then
      ReservesOnlyReserved(g, p.name);
      [XmlFormatter.TagFor(rt, AsNameValue(p))]
    else []
  }

  function DataLine(name: string, value: string): string {
    name + "=\"" + value + "\"\n"
  }

  /** The data line one property contributes. */
  function PropertyData(rt: Runtime, flags: Flags, g: Guard, p: PsProperty): string {
    var rd := ReadValue(rt, p.value);
    if rd.Read? then (if Reserves(g, p.name) then "" else DataLine(p.name, rd.text))
    else if flags.outputBlanksOnError then DataLine(p.name, "")
    else ""
  }

  /** The log line one property contributes. */
  function PropertyLogs(rt: Runtime, flags: Flags, p: PsProperty): seq<Line> {
    var rd := ReadValue(rt, p.value);
    if rd.ReadFails? && flags.logOutputErrors then [WriteLog(Error, ErrorReport(p.name, rd.error))] else []
  }

  predicate SetsTime(rt: Runtime, p: PsProperty) {
    ReadValue(rt, p.value).Read? && p.name == "SplunkTime"
  }

  /** The properties the loop visits, in order: the gettable, non-script
      ones, and, when a name list is given, only those it names ignoring
      case. */
  function Selected(ps: seq<PsProperty>, names: Option<seq<string>>): (r: seq<PsProperty>)
    ensures |r| <= |ps|
    ensures forall p :: p in r <==> p in ps && XmlFormatter.Selectable(p, names)
    decreases |ps|
  {
    if ps == [] then []
    else
      var n := |ps| - 1;
      assert ps == ps[..n] + [ps[n]];
      Selected(ps[..n], names) + (if XmlFormatter.Selectable(ps[n], names) then [ps[n]] else [])
  }

  /** The metadata tags, most recent first. */
  function Tags(rt: Runtime, g: Guard, ps: seq<PsProperty>): seq<XmlFormatter.Tag>
    decreases |ps|
  {
    if ps == [] then [] else PropertyTag(rt, g, ps[|ps| - 1]) + Tags(rt, g, ps[..|ps| - 1])
  }

  function Data(rt: Runtime, flags: Flags, g: Guard, ps: seq<PsProperty>): string
    decreases |ps|
  {
    if ps == [] then "" else Data(rt, flags, g, ps[..|ps| - 1]) + PropertyData(rt, flags, g, ps[|ps| - 1])
  }

  function Logs(rt: Runtime, flags: Flags, ps: seq<PsProperty>): seq<Line>
    decreases |ps|
  {
    if ps == [] then [] else Logs(rt, flags, ps[..|ps| - 1]) + PropertyLogs(rt, flags, ps[|ps| - 1])
  }

  predicate HasTime(rt: Runtime, ps: seq<PsProperty>)
    decreases |ps|
  {
    ps != [] && (HasTime(rt, ps[..|ps| - 1]) || SetsTime(rt, ps[|ps| - 1]))
  }

  /** The metadata with the default time tag in front when none was set. */
  function Metadata(rt: Runtime, g: Guard, ps: seq<PsProperty>): seq<XmlFormatter.Tag> {
    (if HasTime(rt, ps) then [] else [XmlFormatter.DefaultTime(rt)]) + Tags(rt, g, ps)
  }

  /** `string.Format("<event {0}>", ...)`: note the space kept when there is
      no stanza. */
  function Opening(stanza: Option<string>): string {
    "<event " + (if IsNullOrEmpty(stanza) then "" else "stanza=\"" + stanza.value + "\"") + ">"
  }

  /** The foreach over the selected properties, under guard `g`. */
  method PropertyLoop(rt: Runtime, flags: Flags, g: Guard, ps: seq<PsProperty>)
    returns (sb: string, hasTime: bool, logs: seq<Line>)
    ensures sb == XmlFormatter.RenderTags(Tags(rt, g, ps)) + "<data>" + Data(rt, flags, g, ps)
    ensures hasTime == HasTime(rt, ps)
    ensures logs == Logs(rt, flags, ps)
  {
    hasTime := false;
    sb := "<data>";
    logs := [];
    var i := 0;
    while i < |ps|
      invariant 0 <= i <= |ps|
      invariant sb == XmlFormatter.RenderTags(Tags(rt, g, ps[..i])) + "<data>" + Data(rt, flags, g, ps[..i])
      invariant hasTime == HasTime(rt, ps[..i])
      invariant logs == Logs(rt, flags, ps[..i])
    {
      var property := ps[i];
      var value := "";
      var name := property.name;
      var hasError := false;
      PrefixStep(ps, i);
      var rd := ReadValue(rt, property.value);
      LogsStep(rt, flags, ps, i);
      if rd.ReadFails? {
        hasError := true;
        if flags.logOutputErrors {
          logs := logs + [WriteLog(Error, ErrorReport(name, rd.error))];
        }
      } else {
        value := rd.text;
      }
      ghost var tags := XmlFormatter.RenderTags(Tags(rt, g, ps[..i]));
      ghost var data := Data(rt, flags, g, ps[..i]);
      TagsStep(rt, g, ps, i);
      DataStep(rt, flags, g, ps, i);
      PropertyStep(rt, flags, g, property);
      if !hasError || flags.outputBlanksOnError {
        if !hasError && Reserves(g, name) {
          name := XmlFormatter.MetaName(name);
          if name == "time" {
            value := rt.epochSeconds(XmlFormatter.TimeOf(rt, property.value));
            hasTime := true;
          }
          var tag := XmlFormatter.Tag(name, value);
          XmlFormatter.RenderTagsCons(tag, Tags(rt, g, ps[..i]));
          PrependTag(XmlFormatter.Render(tag), tags, data);
          sb := XmlFormatter.Render(tag) + sb;
          assert data + "" == data;
        } else {
          AppendLine(tags, data, DataLine(name, value));
          sb := sb + DataLine(name, value);
        }
      } else {
        assert data + "" == data;
      }
      ghost var before := i;
      i := i + 1;
      assert ps[..i] == ps[..before + 1];
    }
    assert ps[..i] == ps;
  }

  /** What one property contributes to the tags, the data lines and the
      time flag, in the loop body's three cases. */
  lemma PropertyStep(rt: Runtime, flags: Flags, g: Guard, p: PsProperty)
    ensures var rd := ReadValue(rt, p.value);
            rd.Read? && Reserves(g, p.name) ==>
              XmlFormatter.IsReserved(p.name) &&
              PropertyTag(rt, g, p) ==
                [XmlFormatter.Tag(XmlFormatter.MetaName(p.name),
                                  if XmlFormatter.MetaName(p.name) == "time"
                                  then rt.epochSeconds(XmlFormatter.TimeOf(rt, p.value)) else rd.text)] &&
              PropertyData(rt, flags, g, p) == "" &&
              (SetsTime(rt, p) <==> XmlFormatter.MetaName(p.name) == "time")
    ensures var rd := ReadValue(rt, p.value);
            !(rd.Read? && Reserves(g, p.name)) ==>
              PropertyTag(rt, g, p) == [] && !SetsTime(rt, p) &&
              PropertyData(rt, flags, g, p) ==
                if rd.Read? then DataLine(p.name, rd.text)
                else if flags.outputBlanksOnError then DataLine(p.name, "") else ""
  {
    ReservesOnlyReserved(g, p.name);
    ReservesOnlyReserved(g, "SplunkTime");
    if XmlFormatter.IsReserved(p.name) {
      XmlFormatter.TimeTagName(p.name);
    }
  }

  lemma PrependTag(t: string, tags: string, data: string)
    ensures t + (tags + "<data>" + data) == (t + tags) + "<data>" + data
  {
  }

  lemma AppendLine(tags: string, data: string, line: string)
    ensures (tags + "<data>" + data) + line == tags + "<data>" + (data + line)
  {
  }

  lemma LogsStep(rt: Runtime, flags: Flags, ps: seq<PsProperty>, i: nat)
    requires i < |ps|
    ensures Logs(rt, flags, ps[..i + 1]) == Logs(rt, flags, ps[..i]) + PropertyLogs(rt, flags, ps[i])
    ensures PropertyLogs(rt, flags, ps[i]) == [] ==> Logs(rt, flags, ps[..i + 1]) == Logs(rt, flags, ps[..i])
  {
    PrefixStep(ps, i);
    assert Logs(rt, flags, ps[..i]) + [] == Logs(rt, flags, ps[..i]);
  }

  lemma TagsStep(rt: Runtime, g: Guard, ps: seq<PsProperty>, i: nat)
    requires i < |ps|
    ensures Tags(rt, g, ps[..i + 1]) == PropertyTag(rt, g, ps[i]) + Tags(rt, g, ps[..i])
    ensures PropertyTag(rt, g, ps[i]) == [] ==> Tags(rt, g, ps[..i + 1]) == Tags(rt, g, ps[..i])
  {
    PrefixStep(ps, i);
    assert Tags(rt, g, ps[..i + 1]) == PropertyTag(rt, g, ps[i]) + Tags(rt, g, ps[..i]);
    if PropertyTag(rt, g, ps[i]) == [] {
      assert [] + Tags(rt, g, ps[..i]) == Tags(rt, g, ps[..i]);
    }
  }

  lemma DataStep(rt: Runtime, flags: Flags, g: Guard, ps: seq<PsProperty>, i: nat)
    requires i < |ps|
    ensures Data(rt, flags, g, ps[..i + 1]) == Data(rt, flags, g, ps[..i]) + PropertyData(rt, flags, g, ps[i])
  {
    PrefixStep(ps, i);
  }

  lemma PrefixStep(ps: seq<PsProperty>, i: nat)
    requires i < |ps|
    ensures ps[..i + 1][..i] == ps[..i] && ps[..i + 1][i] == ps[i]
  {
  }

  // ---------------------------------------------------------------------
  // Properties.

  function NameValues(ps: seq<PsProperty>): (r: seq<XmlFormatter.NameValue>)
    ensures |r| == |ps|
    decreases |ps|
  {
    if ps == [] then [] else NameValues(ps[..|ps| - 1]) + [AsNameValue(ps[|ps| - 1])]
  }

  predicate AllReadable(rt: Runtime, ps: seq<PsProperty>) {
    forall i :: 0 <= i < |ps| ==> ReadValue(rt, ps[i].value).Read?
  }

  predicate NoSplunkIndex(ps: seq<PsProperty>) {
    forall i :: 0 <= i < |ps| ==> ps[i].name != "SplunkIndex"
  }

  /** When every value reads, the older loop emits the same metadata tags
      and data lines as XmlFormatter.KeyValuePairs on the same pairs, sets
      the time exactly when it does, and logs nothing: always under the
      intended guard, and under the guard as written as long as no property
      is named SplunkIndex. */
  lemma {:induction false} AgreesWithXmlFormatter(rt: Runtime, flags: Flags, g: Guard, ps: seq<PsProperty>)
    requires AllReadable(rt, ps)
    requires g == Intended || NoSplunkIndex(ps)
    ensures Tags(rt, g, ps) == XmlFormatter.MetaTags(rt, NameValues(ps))
    ensures Data(rt, flags, g, ps) == XmlFormatter.DataText(NameValues(ps))
    ensures HasTime(rt, ps) <==> XmlFormatter.HasTime(NameValues(ps))
    ensures Logs(rt, flags, ps) == []
    decreases |ps|
  {
    if ps != [] {
      var n := |ps| - 1;
      assert AllReadable(rt, ps[..n]) && (g == Intended || NoSplunkIndex(ps[..n])) by {
        forall i | 0 <= i < n
          ensures ReadValue(rt, ps[..n][i].value).Read? && (g == Intended || ps[..n][i].name != "SplunkIndex")
        {
          assert ps[..n][i] == ps[i];
        }
      }
      AgreesWithXmlFormatter(rt, flags, g, ps[..n]);
      AgreementStep(rt, flags, g, ps);
    }
  }

  /** One more readable property keeps the older loop and
      XmlFormatter.KeyValuePairs in agreement. */
  lemma AgreementStep(rt: Runtime, flags: Flags, g: Guard, ps: seq<PsProperty>)
    requires ps != [] && ReadValue(rt, ps[|ps| - 1].value).Read?
    requires g == Intended || ps[|ps| - 1].name != "SplunkIndex"
    requires var front := ps[..|ps| - 1];
             Tags(rt, g, front) == XmlFormatter.MetaTags(rt, NameValues(front)) &&
             Data(rt, flags, g, front) == XmlFormatter.DataText(NameValues(front)) &&
             (HasTime(rt, front) <==> XmlFormatter.HasTime(NameValues(front))) &&
             Logs(rt, flags, front) == []
    ensures Tags(rt, g, ps) == XmlFormatter.MetaTags(rt, NameValues(ps))
    ensures Data(rt, flags, g, ps) == XmlFormatter.DataText(NameValues(ps))
    ensures HasTime(rt, ps) <==> XmlFormatter.HasTime(NameValues(ps))
    ensures Logs(rt, flags, ps) == []
  {
    var n := |ps| - 1;
    var nvs := NameValues(ps);
    assert nvs[..n] == NameValues(ps[..n]) && nvs[n] == AsNameValue(ps[n]) && nvs[..n + 1] == nvs;
    ReservesOnlyReserved(g, ps[n].name);
    RecognisedIsReserved(ps[n].name);
    assert Reserves(g, ps[n].name) <==> XmlFormatter.IsReserved(ps[n].name);
    TagsAgree(rt, g, ps, nvs);
    DataAgrees(rt, flags, g, ps, nvs);
    TimeAgrees(rt, ps, nvs);
    NoLogsStep(rt, flags, ps);
  }

  /** A readable property adds no log lines. */
  lemma NoLogsStep(rt: Runtime, flags: Flags, ps: seq<PsProperty>)
    requires ps != [] && ReadValue(rt, ps[|ps| - 1].value).Read? && Logs(rt, flags, ps[..|ps| - 1]) == []
    ensures Logs(rt, flags, ps) == []
  {
    assert Logs(rt, flags, ps) == Logs(rt, flags, ps[..|ps| - 1]) + [];
  }

  lemma TagsAgree(rt: Runtime, g: Guard, ps: seq<PsProperty>, nvs: seq<XmlFormatter.NameValue>)
    requires ps != [] && ReadValue(rt, ps[|ps| - 1].value).Read? && |nvs| == |ps|
    requires nvs[..|ps| - 1] == NameValues(ps[..|ps| - 1]) && nvs[|ps| - 1] == AsNameValue(ps[|ps| - 1])
    requires Reserves(g, ps[|ps| - 1].name) <==> XmlFormatter.IsReserved(ps[|ps| - 1].name)
    requires Tags(rt, g, ps[..|ps| - 1]) == XmlFormatter.MetaTags(rt, NameValues(ps[..|ps| - 1]))
    ensures Tags(rt, g, ps) == XmlFormatter.MetaTags(rt, nvs)
  {
    var n := |ps| - 1;
    XmlFormatter.MetaTagsStep(rt, nvs, n);
    assert nvs[..n + 1] == nvs;
    assert Tags(rt, g, ps) == PropertyTag(rt, g, ps[n]) + Tags(rt, g, ps[..n]);
  }

  lemma DataAgrees(rt: Runtime, flags: Flags, g: Guard, ps: seq<PsProperty>, nvs: seq<XmlFormatter.NameValue>)
    requires ps != [] && ReadValue(rt, ps[|ps| - 1].value).Read? && |nvs| == |ps|
    requires nvs[..|ps| - 1] == NameValues(ps[..|ps| - 1]) && nvs[|ps| - 1] == AsNameValue(ps[|ps| - 1])
    requires Reserves(g, ps[|ps| - 1].name) <==> XmlFormatter.IsReserved(ps[|ps| - 1].name)
    requires Data(rt, flags, g, ps[..|ps| - 1]) == XmlFormatter.DataText(NameValues(ps[..|ps| - 1]))
    ensures Data(rt, flags, g, ps) == XmlFormatter.DataText(nvs)
  {
    var n := |ps| - 1;
    XmlFormatter.DataTextStep(nvs, n);
    assert nvs[..n + 1] == nvs;
  }

  lemma TimeAgrees(rt: Runtime, ps: seq<PsProperty>, nvs: seq<XmlFormatter.NameValue>)
    requires ps != [] && ReadValue(rt, ps[|ps| - 1].value).Read? && |nvs| == |ps|
    requires nvs[..|ps| - 1] == NameValues(ps[..|ps| - 1]) && nvs[|ps| - 1] == AsNameValue(ps[|ps| - 1])
    requires Recognised(ps[|ps| - 1].name) <==> XmlFormatter.IsReserved(ps[|ps| - 1].name)
    requires HasTime(rt, ps[..|ps| - 1]) <==> XmlFormatter.HasTime(NameValues(ps[..|ps| - 1]))
    ensures HasTime(rt, ps) <==> XmlFormatter.HasTime(nvs)
  {
    var n := |ps| - 1;
    XmlFormatter.HasTimeStep(nvs, n);
    assert nvs[..n + 1] == nvs;
  }

  /** As written, a readable SplunkIndex property becomes a
      `SplunkIndex="..."` data line and no tag, where XmlFormatter, and the
      loop under the intended guard, make it an `<index>` tag in front of
      `<data>` and no data line. */
  lemma SplunkIndexIsDataAsWritten(rt: Runtime, flags: Flags, p: PsProperty)
    requires p.name == "SplunkIndex" && ReadValue(rt, p.value).Read?
    ensures Tags(rt, AsWritten, [p]) == [] &&
            Data(rt, flags, AsWritten, [p]) == DataLine("SplunkIndex", ReadValue(rt, p.value).text)
    ensures Tags(rt, AsWritten, [p]) != XmlFormatter.MetaTags(rt, NameValues([p]))
    ensures Tags(rt, Intended, [p]) == XmlFormatter.MetaTags(rt, NameValues([p])) &&
            Data(rt, flags, Intended, [p]) == XmlFormatter.DataText(NameValues([p])) == ""
  {
    assert [p][..0] == [];
    SplunkIndexMissedAsWritten(p.name);
    assert AllReadable(rt, [p]);
    AgreesWithXmlFormatter(rt, flags, Intended, [p]);
    assert |Tags(rt, Intended, [p])| == 1;
  }

  function CountFailures(rt: Runtime, ps: seq<PsProperty>): nat
    decreases |ps|
  {
    if ps == [] then 0
    else CountFailures(rt, ps[..|ps| - 1]) + (if ReadValue(rt, ps[|ps| - 1].value).ReadFails? then 1 else 0)
  }

  /** One ERROR line per failed read when LogOutputErrors is set, none
      otherwise; every log line goes to standard error. */
  lemma {:induction false} FailuresAreLogged(rt: Runtime, flags: Flags, ps: seq<PsProperty>)
    ensures |Logs(rt, flags, ps)| == if flags.logOutputErrors then CountFailures(rt, ps) else 0
    ensures forall l :: l in Logs(rt, flags, ps) ==> l.Err?
    decreases |ps|
  {
    if ps != [] {
      FailuresAreLogged(rt, flags, ps[..|ps| - 1]);
    }
  }

  /** A value that fails to read never becomes metadata, and yields a blank
      `name=""` line only when OutputBlanksOnError is set. */
  lemma FailedReadOutput(rt: Runtime, flags: Flags, g: Guard, p: PsProperty)
    requires ReadValue(rt, p.value).ReadFails?
    ensures Tags(rt, g, [p]) == [] && !HasTime(rt, [p])
    ensures flags.outputBlanksOnError ==> Data(rt, flags, g, [p]) == p.name + "=\"\"\n"
    ensures !flags.outputBlanksOnError ==> Data(rt, flags, g, [p]) == ""
  {
    assert [p][..0] == [];
  }

  function CountTimeSetters(rt: Runtime, ps: seq<PsProperty>): nat
    decreases |ps|
  {
    if ps == [] then 0
    else CountTimeSetters(rt, ps[..|ps| - 1]) + (if SetsTime(rt, ps[|ps| - 1]) then 1 else 0)
  }

  lemma {:induction false} TagsTimeCount(rt: Runtime, g: Guard, ps: seq<PsProperty>)
    ensures XmlFormatter.CountTimeTags(Tags(rt, g, ps)) == CountTimeSetters(rt, ps)
    ensures HasTime(rt, ps) <==> CountTimeSetters(rt, ps) > 0
    decreases |ps|
  {
    if ps != [] {
      var n := |ps| - 1;
      TagsTimeCount(rt, g, ps[..n]);
      XmlFormatter.CountTimeTagsAppend(PropertyTag(rt, g, ps[n]), Tags(rt, g, ps[..n]));
      PropertyTagTimeCount(rt, g, ps[n]);
    }
  }

  /** One property gives a `<time>` tag exactly when it sets the time. */
  lemma PropertyTagTimeCount(rt: Runtime, g: Guard, p: PsProperty)
    ensures XmlFormatter.CountTimeTags(PropertyTag(rt, g, p)) == if SetsTime(rt, p) then 1 else 0
  {
    ReservesOnlyReserved(g, p.name);
    if XmlFormatter.IsReserved(p.name) {
      XmlFormatter.TimeTagName(p.name);
    }
  }

  /** Exactly one `<time>` tag when no readable SplunkTime exists (the
      default one, first), otherwise one per readable SplunkTime. */
  lemma TimeAlwaysDefined(rt: Runtime, g: Guard, ps: seq<PsProperty>)
    ensures XmlFormatter.CountTimeTags(Metadata(rt, g, ps)) ==
              if CountTimeSetters(rt, ps) == 0 then 1 else CountTimeSetters(rt, ps)
    ensures !HasTime(rt, ps) ==> Metadata(rt, g, ps)[0] == XmlFormatter.DefaultTime(rt)
  {
    TagsTimeCount(rt, g, ps);
    if HasTime(rt, ps) {
      assert Metadata(rt, g, ps) == Tags(rt, g, ps);
    } else {
      XmlFormatter.CountTimeTagsAppend([XmlFormatter.DefaultTime(rt)], Tags(rt, g, ps));
    }
  }

  /** The loop visits the same properties, as the same pairs, as
      XmlFormatter.FilterNameValueObjects selects. */
  lemma {:induction false} SelectedMatchesFilter(ps: seq<PsProperty>, names: Option<seq<string>>)
    ensures NameValues(Selected(ps, names)) == XmlFormatter.FilterNameValueObjects(ps, names)
    decreases |ps|
  {
    if ps != [] {
      var n := |ps| - 1;
      var front := Selected(ps[..n], names);
      SelectedMatchesFilter(ps[..n], names);
      if XmlFormatter.Selectable(ps[n], names) {
        assert (front + [ps[n]])[..|front|] == front;
      } else {
        assert front + [] == front;
      }
    }
  }

  /** Values are copied verbatim: a readable ordinary property yields its
      ToString() text between the quotes, markup characters included. */
  lemma UnescapedDataLine(rt: Runtime, flags: Flags, g: Guard, p: PsProperty)
    requires ReadValue(rt, p.value).Read? && !XmlFormatter.IsReserved(p.name)
    ensures Data(rt, flags, g, [p]) == p.name + "=\"" + ReadValue(rt, p.value).text + "\"\n"
    ensures Tags(rt, g, [p]) == []
  {
    assert [p][..0] == [];
    ReservesOnlyReserved(g, p.name);
  }
}
