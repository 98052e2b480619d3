/** The SplunkXmlFormatter of the ModularPowerShell service
    (ModularPowerShell/SplunkXmlFormatter.cs): the older formatter without a
    property list. A string object is taken to be already formatted and is
    returned as it is; any other object is wrapped in an event. The two
    flags come from the application settings. The property loop runs the
    reserved-name guard as written, as the ModularInputsModule cmdlet does. */
module ServiceXmlFormatter {
  import opened Common
  import opened PsModel
  import opened LegacyFormat
  import XmlFormatter
  import ModuleXmlFormatter

  /** The properties GetData visits: every gettable, non-script one. */
  function Visited(o: PsObject): seq<PsProperty> {
    Selected(o.properties, None)
  }

  /** What GetData returns. */
  function EventText(rt: Runtime, flags: Flags, o: PsObject, stanza: Option<string>): string {
    if o.base.Str? then o.base.text
    else
      var ps := Visited(o);
      Opening(stanza) + XmlFormatter.RenderTags(Metadata(rt, AsWritten, ps)) + "<data>" + Data(rt, flags, AsWritten, ps) +
      "</data></event>\n"
  }

  /** The log lines of GetData: none for a string. */
  function EventLogs(rt: Runtime, flags: Flags, o: PsObject): seq<Line> {
    if o.base.Str? then [] else Logs(rt, flags, Visited(o))
  }

  method GetData(rt: Runtime, flags: Flags, output: PsObject, stanza: Option<string>)
    returns (r: string, logs: seq<Line>)
    ensures r == EventText(rt, flags, output, stanza)
    ensures logs == EventLogs(rt, flags, output)
  {
    if output.base.Str? {
      return output.base.text, [];
    }
    var ps := Selected(output.properties, None);
    var sb, hasTime;
    sb, hasTime, logs := PropertyLoop(rt, flags, AsWritten, ps);
    ghost var tags := Tags(rt, AsWritten, ps);
    ghost var data := Data(rt, flags, AsWritten, ps);
    if !hasTime {
      var dt := XmlFormatter.DefaultTime(rt);
      XmlFormatter.RenderTagsCons(dt, tags);
      assert Metadata(rt, AsWritten, ps) == [dt] + tags;
      PrependTag(XmlFormatter.Render(dt), XmlFormatter.RenderTags(tags), data);
      sb := XmlFormatter.Render(dt) + sb;
    } else {
      assert Metadata(rt, AsWritten, ps) == tags;
    }
    PrependTag(Opening(stanza), XmlFormatter.RenderTags(Metadata(rt, AsWritten, ps)), data);
    sb := Opening(stanza) + sb;
    r := sb + "</data></event>\n";
  }

  /** ProcessRecord: the event for the bound parameters, written to the
      pipeline, with the log lines of failed reads. */
  method ProcessRecord(rt: Runtime, flags: Flags, inputObject: PsObject, stanza: Option<string>)
    returns (written: string, logs: seq<Line>)
    ensures written == EventText(rt, flags, inputObject, stanza)
    ensures logs == EventLogs(rt, flags, inputObject)
  {
    written, logs := GetData(rt, flags, inputObject, stanza);
  }

  /** What WriteOutput writes: for each object, the log lines of its failed
      reads, then its text on standard output. */
  function Transcript(rt: Runtime, flags: Flags, outputs: seq<PsObject>, stanza: Option<string>): seq<Line>
    decreases |outputs|
  {
    if outputs == [] then []
    else
      var o := outputs[|outputs| - 1];
      Transcript(rt, flags, outputs[..|outputs| - 1], stanza) + EventLogs(rt, flags, o) +
      [Out(EventText(rt, flags, o, stanza))]
  }

  /** WriteOutput(outputCollection) and WriteOutput(outputCollection, stanza). */
  method WriteOutput(rt: Runtime, flags: Flags, outputs: seq<PsObject>, stanza: Option<string>)
    returns (lines: seq<Line>)
    ensures lines == Transcript(rt, flags, outputs, stanza)
  {
    lines := [];
    var i := 0;
    while i < |outputs|
      invariant 0 <= i <= |outputs|
      invariant lines == Transcript(rt, flags, outputs[..i], stanza)
    {
      var event, logs := GetData(rt, flags, outputs[i], stanza);
      TranscriptStep(rt, flags, outputs, i, stanza);
      lines := lines + logs + [Out(event)];
      i := i + 1;
    }
    assert outputs[..i] == outputs;
  }

  lemma TranscriptStep(rt: Runtime, flags: Flags, outputs: seq<PsObject>, i: nat, stanza: Option<string>)
    requires i < |outputs|
    ensures Transcript(rt, flags, outputs[..i + 1], stanza) ==
              Transcript(rt, flags, outputs[..i], stanza) + EventLogs(rt, flags, outputs[i]) +
              [Out(EventText(rt, flags, outputs[i], stanza))]
  {
    assert outputs[..i + 1][..i] == outputs[..i];
  }

  // ---------------------------------------------------------------------
  // Properties.

  function Events(rt: Runtime, flags: Flags, outputs: seq<PsObject>, stanza: Option<string>): (r: seq<string>)
    ensures |r| == |outputs|
    decreases |outputs|
  {
    if outputs == [] then []
    else Events(rt, flags, outputs[..|outputs| - 1], stanza) + [EventText(rt, flags, outputs[|outputs| - 1], stanza)]
  }

  /** Standard output receives exactly one text per object, in order. */
  lemma {:induction false} OneEventPerObject(rt: Runtime, flags: Flags, outputs: seq<PsObject>, stanza: Option<string>)
    ensures OutTexts(Transcript(rt, flags, outputs, stanza)) == Events(rt, flags, outputs, stanza)
    decreases |outputs|
  {
    if outputs != [] {
      var n := |outputs| - 1;
      var o := outputs[n];
      var front := Transcript(rt, flags, outputs[..n], stanza);
      var logs := EventLogs(rt, flags, o);
      OneEventPerObject(rt, flags, outputs[..n], stanza);
      assert forall l :: l in logs ==> l.Err? by {
        if !o.base.Str? {
          FailuresAreLogged(rt, flags, Visited(o));
        }
      }
      OutTextsStep(front, logs, EventText(rt, flags, o, stanza));
    }
  }

  /** For an object that is not a string, the service formatter and the
      ModularInputsModule cmdlet without a property list give the same event;
      for a string, the service passes the text through unchanged, where the
      cmdlet wraps it in an event that ends with the text, a newline and the
      closing tags. */
  lemma AgreesWithModuleFormatter(rt: Runtime, flags: Flags, o: PsObject, stanza: Option<string>)
    ensures !o.base.Str? ==>
              EventText(rt, flags, o, stanza) == ModuleXmlFormatter.EventText(rt, flags, o, stanza, None)
    ensures o.base.Str? ==>
              EventText(rt, flags, o, stanza) == o.base.text &&
              |ModuleXmlFormatter.EventText(rt, flags, o, stanza, None)| > |EventText(rt, flags, o, stanza)| &&
              exists front :: ModuleXmlFormatter.EventText(rt, flags, o, stanza, None) ==
                              front + o.base.text + "\n" + "</data></event>\n"
  {
    if !o.base.Str? {
      SameObjectEvent(rt, flags, o, stanza);
    } else {
      StringEventLonger(rt, flags, o, stanza);
      ModuleXmlFormatter.StringContentEndsData(rt, flags, o, stanza, None);
    }
  }

  lemma SameObjectEvent(rt: Runtime, flags: Flags, o: PsObject, stanza: Option<string>)
    requires !o.base.Str?
    ensures EventText(rt, flags, o, stanza) == ModuleXmlFormatter.EventText(rt, flags, o, stanza, None)
  {
    var ps := Visited(o);
    assert ps == ModuleXmlFormatter.Visited(o, None);
    assert ModuleXmlFormatter.Content(o) == "";
    Regroup(Opening(stanza), XmlFormatter.RenderTags(Metadata(rt, AsWritten, ps)), "<data>", Data(rt, flags, AsWritten, ps), "</data></event>\n");
  }

  lemma Regroup(a: string, b: string, m: string, d: string, c: string)
    ensures a + b + m + d + c == a + (b + m + d + "") + c
  {
    assert b + m + d + "" == b + m + d;
  }

  lemma StringEventLonger(rt: Runtime, flags: Flags, o: PsObject, stanza: Option<string>)
    requires o.base.Str?
    ensures |ModuleXmlFormatter.EventText(rt, flags, o, stanza, None)| > |EventText(rt, flags, o, stanza)|
  {
    var ps := ModuleXmlFormatter.Visited(o, None);
    assert |ModuleXmlFormatter.Buffer(rt, flags, o, ps)| >= |ModuleXmlFormatter.Content(o)|;
  }
}
