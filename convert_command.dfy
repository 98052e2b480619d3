/** The ConvertTo-SplunkEventXml cmdlet of ModularInputsModule
    (ConvertToSplunkEventXmlCommand.cs): it defaults its stanza to the
    `$SplunkStanzaName` variable and writes one object per input record,
    either a complete event string marked `SplunkPreFormatted` (with
    -AsXml) or the plain formatted string. */
module ConvertToSplunkEventXml {
  import opened Common
  import opened PsModel
  import ConsoleLogging

  /** The note property `SplunkPreFormatted = $true`: a boxed bool, whose
      ToString() is "True" and which does not cast to DateTimeOffset. */
  function MarkerProperty(): PsProperty {
    PsProperty(PreFormattedMarker, false, true, Boxed(Shown("True"), None, Some(true)))
  }

  /** `new PSObject(text)` with the marker added. The properties a string
      adapter contributes (Length) are not listed. */
  function Marked(text: string): (o: PsObject)
    ensures o.base == Str(text) && IsPreFormatted(o)
  {
    var o := PsObject(Str(text), [MarkerProperty()]);
    FoundFirst(MarkerProperty(), PreFormattedMarker);
    o
  }

  /** A property named `name` is found first when it comes first. */
  lemma FoundFirst(p: PsProperty, name: string)
    requires p.name == name
    ensures FindProperty([p], name) == Some(p)
  {
  }

  /** A string written as it is: no marker. */
  function Plain(text: string): (o: PsObject)
    ensures o.base == Str(text) && !IsPreFormatted(o)
    ensures FindProperty(o.properties, PreFormattedMarker).None?
  {
    PsObject(Str(text), [])
  }

  /** ConvertToXml and the ConvertToString overload the cmdlet calls take
      the input object, the stanza (ConvertToXml only) and the property list. */
  type ToXml = (PsObject, Option<string>, Option<seq<string>>) -> string
  type ToText = (PsObject, Option<seq<string>>, bool) -> string

  class ConvertToSplunkEventXmlCommand {
    var stanza: Option<string>
    var inputObject: PsObject
    var property: Option<seq<string>>
    var asXml: bool

    constructor (stanza: Option<string>, inputObject: PsObject, property: Option<seq<string>>, asXml: bool)
      ensures this.stanza == stanza && this.inputObject == inputObject
      ensures this.property == property && this.asXml == asXml
    {
      this.stanza := stanza;
      this.inputObject := inputObject;
      this.property := property;
      this.asXml := asXml;
    }

    /** BeginProcessing: an unset or empty Stanza takes the value of
        `$SplunkStanzaName` (`variable`). */
    method BeginProcessing(variable: Option<string>)
      modifies this
      ensures IsNullOrEmpty(old(stanza)) ==> stanza == variable
      ensures !IsNullOrEmpty(old(stanza)) ==> stanza == old(stanza)
      ensures inputObject == old(inputObject) && property == old(property) && asXml == old(asXml)
    {
      if IsNullOrEmpty(stanza) {
        stanza := variable;
      }
    }

    /** ProcessRecord: the one object written for the current record. */
    method ProcessRecord(toXml: ToXml, toText: ToText) returns (written: PsObject)
      ensures asXml ==> written.base == Str(toXml(inputObject, stanza, property)) && IsPreFormatted(written)
      ensures !asXml ==> written.base == Str(toText(inputObject, property, false)) && !IsPreFormatted(written)
      ensures !asXml ==> FindProperty(written.properties, PreFormattedMarker).None?
    {
      var output := if asXml then toXml(inputObject, stanza, property) else toText(inputObject, property, false);
      if asXml {
        var psOutput := Marked(output);
        written := psOutput;
      } else {
        written := Plain(output);
      }
    }
  }

  /** What -AsXml writes passes through ConsoleLogger.WriteOutput verbatim:
      the logger's own serialiser is never applied to it. */
  lemma AsXmlIsNotSerialisedAgain(serialise: (PsObject, Option<string>) -> string, text: string,
                                  stanza: Option<string>)
    ensures ConsoleLogging.WriteOutput(serialise, Marked(text), stanza).text == text
  {
  }

  /** Without -AsXml, the string written is serialised again by the logger. */
  lemma PlainIsSerialisedAgain(serialise: (PsObject, Option<string>) -> string, text: string,
                               stanza: Option<string>)
    ensures ConsoleLogging.WriteOutput(serialise, Plain(text), stanza).text == serialise(Plain(text), stanza)
  {
  }
}
