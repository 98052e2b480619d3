/** The ConvertTo-SplunkEventXml cmdlet of ModularInputsModule
    (ModularInputsModule/SplunkXmlFormatter.cs): the older formatter with an
    optional property list. A string object's text is appended, unescaped,
    after the data lines. The property loop runs the reserved-name guard as
    written, so a SplunkIndex property is an ordinary data line. */
module ModuleXmlFormatter {
  import opened Common
  import opened PsModel
  import opened LegacyFormat
  import XmlFormatter

  /** The name list GetData filters by: none when the list is null or empty. */
  function NameFilter(properties: Option<seq<string>>): Option<seq<string>> {
    if properties.None? || properties.value == [] then None else properties
  }

  /** The properties GetData hands to KeyValuePairs. */
  function Visited(o: PsObject, properties: Option<seq<string>>): seq<PsProperty> {
    Selected(o.properties, NameFilter(properties))
  }

  /** `output + "\n"`, appended when the object is a string. */
  function Content(o: PsObject): string {
    if o.base.Str? then o.base.text + "\n" else ""
  }

  /** The buffer KeyValuePairs returns: the metadata (default time first when
      needed), `<data>`, the data lines, the string content. */
  function Buffer(rt: Runtime, flags: Flags, o: PsObject, ps: seq<PsProperty>): string {
    XmlFormatter.RenderTags(Metadata(rt, AsWritten, ps)) + "<data>" + Data(rt, flags, AsWritten, ps) + Content(o)
  }

  /** What GetData returns. */
  function EventText(rt: Runtime, flags: Flags, o: PsObject, stanza: Option<string>,
                     properties: Option<seq<string>>): string {
    Opening(stanza) + Buffer(rt, flags, o, Visited(o, properties)) + "</data></event>\n"
  }

  method KeyValuePairs(rt: Runtime, flags: Flags, output: PsObject, ps: seq<PsProperty>)
    returns (sb: string, logs: seq<Line>)
    ensures sb == Buffer(rt, flags, output, ps)
    ensures logs == Logs(rt, flags, ps)
  {
    var hasTime;
    sb, hasTime, logs := PropertyLoop(rt, flags, AsWritten, ps);
    ghost var tags := Tags(rt, AsWritten, ps);
    ghost var data := Data(rt, flags, AsWritten, ps);
    if output.base.Str? {
      var line := output.base.text + "\n";
      assert line == Content(output);
      sb := sb + line;
    } else {
      assert Content(output) == "";
      assert sb + "" == sb;
    }
    ghost var content := Content(output);
    assert sb == XmlFormatter.RenderTags(tags) + "<data>" + data + content;
    if !hasTime {
      var dt := XmlFormatter.DefaultTime(rt);
      XmlFormatter.RenderTagsCons(dt, tags);
      assert Metadata(rt, AsWritten, ps) == [dt] + tags;
      PrependFront(XmlFormatter.Render(dt), XmlFormatter.RenderTags(tags), "<data>", data, content);
      sb := XmlFormatter.Render(dt) + sb;
    } else {
      assert Metadata(rt, AsWritten, ps) == tags;
    }
  }

  lemma PrependFront(t: string, a: string, m: string, b: string, c: string)
    ensures t + (a + m + b + c) == (t + a) + m + b + c
  {
  }

  method GetData(rt: Runtime, flags: Flags, output: PsObject, stanza: Option<string>,
                 properties: Option<seq<string>>)
    returns (r: string, logs: seq<Line>)
    ensures r == EventText(rt, flags, output, stanza, properties)
    ensures logs == Logs(rt, flags, Visited(output, properties))
  {
    var psPropertyInfos := Selected(output.properties, NameFilter(properties));
    var sb;
    sb, logs := KeyValuePairs(rt, flags, output, psPropertyInfos);
    sb := Opening(stanza) + sb;
    r := sb + "</data></event>\n";
  }

  /** ProcessRecord: the event for the bound parameters, written to the
      pipeline, with the log lines of failed reads. */
  method ProcessRecord(rt: Runtime, flags: Flags, inputObject: PsObject, stanza: Option<string>,
                       property: Option<seq<string>>)
    returns (written: string, logs: seq<Line>)
    ensures written == EventText(rt, flags, inputObject, stanza, property)
    ensures logs == Logs(rt, flags, Visited(inputObject, property))
  {
    written, logs := GetData(rt, flags, inputObject, stanza, property);
  }

  /** What WriteOutput writes: for each object, the log lines of its failed
      reads, then its event on standard output. */
  function Transcript(rt: Runtime, flags: Flags, outputs: seq<PsObject>, stanza: Option<string>): seq<Line>
    decreases |outputs|
  {
    if outputs == [] then []
    else
      var o := outputs[|outputs| - 1];
      Transcript(rt, flags, outputs[..|outputs| - 1], stanza) + Logs(rt, flags, Visited(o, None)) +
      [Out(EventText(rt, flags, o, stanza, None))]
  }

  /** WriteOutput(outputCollection) and WriteOutput(outputCollection, stanza). */
  method WriteOutput(rt: Runtime, flags: Flags, outputs: seq<PsObject>, stanza: Option<string>)
    returns (lines: seq<Line>)
    ensures lines == Transcript(rt, flags, outputs, stanza)
  {
    lines := [];
    var i := 0;
    while i < |outputs|
      invariant 0 <= i <= |outputs|
      invariant lines == Transcript(rt, flags, outputs[..i], stanza)
    {
      var event, logs := GetData(rt, flags, outputs[i], stanza, None);
      TranscriptStep(rt, flags, outputs, stanza, i);
      lines := lines + logs + [Out(event)];
      ghost var before := i;
      i := i + 1;
      assert outputs[..i] == outputs[..before + 1];
    }
    assert outputs[..i] == outputs;
  }

  lemma TranscriptStep(rt: Runtime, flags: Flags, outputs: seq<PsObject>, stanza: Option<string>, i: nat)
    requires i < |outputs|
    ensures Transcript(rt, flags, outputs[..i + 1], stanza) ==
            Transcript(rt, flags, outputs[..i], stanza) + Logs(rt, flags, Visited(outputs[i], None)) +
            [Out(EventText(rt, flags, outputs[i], stanza, None))]
  {
    assert outputs[..i + 1][..i] == outputs[..i] && outputs[..i + 1][i] == outputs[i];
  }

  // ---------------------------------------------------------------------
  // Properties.

  function Events(rt: Runtime, flags: Flags, outputs: seq<PsObject>, stanza: Option<string>): (r: seq<string>)
    ensures |r| == |outputs|
    decreases |outputs|
  {
    if outputs == [] then []
    else Events(rt, flags, outputs[..|outputs| - 1], stanza) + [EventText(rt, flags, outputs[|outputs| - 1], stanza, None)]
  }

  /** Standard output receives exactly one event per object, in order;
      everything else goes to standard error. */
  lemma {:induction false} OneEventPerObject(rt: Runtime, flags: Flags, outputs: seq<PsObject>, stanza: Option<string>)
    ensures OutTexts(Transcript(rt, flags, outputs, stanza)) == Events(rt, flags, outputs, stanza)
    decreases |outputs|
  {
    if outputs != [] {
      var n := |outputs| - 1;
      var o := outputs[n];
      var front := Transcript(rt, flags, outputs[..n], stanza);
      var logs := Logs(rt, flags, Visited(o, None));
      OneEventPerObject(rt, flags, outputs[..n], stanza);
      FailuresAreLogged(rt, flags, Visited(o, None));
      OutTextsStep(front, logs, EventText(rt, flags, o, stanza, None));
    }
  }

  /** An empty property list selects as a null one does. */
  lemma EmptyListMeansAll(rt: Runtime, flags: Flags, o: PsObject, stanza: Option<string>)
    ensures EventText(rt, flags, o, stanza, Some([])) == EventText(rt, flags, o, stanza, None)
    ensures Visited(o, Some([])) == Selected(o.properties, None)
  {
  }

  /** A string object's text ends the data block, right before the closing
      tags, unchanged. */
  lemma StringContentEndsData(rt: Runtime, flags: Flags, o: PsObject, stanza: Option<string>,
                              properties: Option<seq<string>>)
    requires o.base.Str?
    ensures exists front :: EventText(rt, flags, o, stanza, properties) ==
                            front + o.base.text + "\n" + "</data></event>\n"
  {
    var ps := Visited(o, properties);
    var head := Opening(stanza) + XmlFormatter.RenderTags(Metadata(rt, AsWritten, ps)) + "<data>";
    var data := Data(rt, flags, AsWritten, ps);
    var text := o.base.text;
    var tail := "</data></event>\n";
    assert Content(o) == text + "\n";
    ContentRegroup(Opening(stanza), XmlFormatter.RenderTags(Metadata(rt, AsWritten, ps)), "<data>", data, text, "\n", tail);
    assert EventText(rt, flags, o, stanza, properties) == (head + data) + text + "\n" + tail;
  }

  lemma ContentRegroup(o: string, m: string, d: string, data: string, text: string, nl: string, tail: string)
    ensures o + (m + d + data + (text + nl)) + tail == (o + m + d + data) + text + nl + tail
  {
  }

  /** With nothing to visit, a non-string object gives the default time and
      an empty data block. */
  lemma NothingVisited(rt: Runtime, flags: Flags, o: PsObject, stanza: Option<string>,
                       properties: Option<seq<string>>)
    requires !o.base.Str? && Visited(o, properties) == []
    ensures EventText(rt, flags, o, stanza, properties) ==
            Opening(stanza) + XmlFormatter.Render(XmlFormatter.DefaultTime(rt)) + "<data>" + "</data></event>\n"
  {
    var dt := XmlFormatter.DefaultTime(rt);
    assert Metadata(rt, AsWritten, []) == [dt];
    XmlFormatter.RenderTagsCons(dt, []);
  }
}
