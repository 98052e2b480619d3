/** An abstraction of the PowerShell objects a script emits (PSObject), of the
    values their properties hold, and of the runtime services the formatters
    use (the clock, DateTimeOffset parsing, epoch-seconds formatting). */
module PsModel {
  import opened Common

  /** A DateTimeOffset, kept abstract: only equality of instants matters. */
  datatype Instant = Instant(ticks: int)

  /** A .NET exception: its Message and its StackTrace. */
  datatype Failure = Failure(message: string, stackTrace: string)

  /** The outcome of calling ToString() on a non-null value. */
  datatype Shown = Shown(text: string) | ToStringFails(error: Failure)

  /** A property value as the formatters see it: a null reference, a value
      whose getter threw, or a boxed object, with what ToString() gives and
      what the (DateTimeOffset) and (bool) casts give (None: the cast throws). */
  datatype Value =
    | Null
    | GetterFails(error: Failure)
    | Boxed(shown: Shown, asTime: Option<Instant>, asBool: Option<bool>)

  /** A PSPropertyInfo: its name, whether it is a ScriptProperty, whether it
      is gettable (IsGettable), and its value. */
  datatype PsProperty = PsProperty(name: string, isScript: bool, gettable: bool, value: Value)

  /** The kinds of BaseObject the formatters distinguish. */
  datatype BaseObject =
    | NullBase
    | Str(text: string)                           // a System.String
    | Pairs(entries: seq<(string, Value)>)        // an IEnumerable<KeyValuePair<string, object>>
    | Dict(entries: seq<(string, Value)>, ignoreCase: bool)  // a non-generic IDictionary (key already
                                                  // stringified); ignoreCase: its comparer ignores case,
                                                  // as a PowerShell hashtable's does
    | Other                                       // any other object

  /** A PSObject: the wrapped object and the members of its Properties collection. */
  datatype PsObject = PsObject(base: BaseObject, properties: seq<PsProperty>)

  /** The runtime services used while formatting: DateTimeOffset.UtcNow, the
      epoch-seconds rendering `(t - Epoch).TotalSeconds.ToString(InvariantCulture)`,
      DateTimeOffset.TryParse, and the exception that calling a member on a
      null reference raises. */
  datatype Runtime = Runtime(
    now: Instant,
    epochSeconds: Instant -> string,
    tryParse: string -> Option<Instant>,
    nullReference: Failure)

  /** The value of the (DateTimeOffset) cast, None when the cast throws. */
  function CastTime(v: Value): Option<Instant> {
    if v.Boxed? then v.asTime else None
  }

  /** The value of the (bool) cast, None when the cast throws. */
  function CastBool(v: Value): Option<bool> {
    if v.Boxed? then v.asBool else None
  }

  /** The first property whose name matches `name` ignoring case, as
      `Properties.Match(name)` and `Properties[name]` find it. */
  function FindProperty(ps: seq<PsProperty>, name: string): (r: Option<PsProperty>)
    ensures r.Some? ==> r.value in ps && EqualsIgnoreCase(r.value.name, name)
    ensures r.None? ==> forall p :: p in ps ==> !EqualsIgnoreCase(p.name, name)
  {
    if ps == [] then None
    else if EqualsIgnoreCase(ps[0].name, name) then Some(ps[0])
    else FindProperty(ps[1..], name)
  }

  /** The marker property a pre-formatted event string carries. */
  const PreFormattedMarker: string := "SplunkPreFormatted"

  /** The pre-formatted bypass shared by ConsoleLogger and SplunkLogger: the
      base object is a string, a SplunkPreFormatted property exists, and its
      value casts to `true`. A non-boolean marker makes the cast throw, and
      the caller swallows the exception. */
  predicate IsPreFormatted(o: PsObject) {
    o.base.Str? &&
    var marker := FindProperty(o.properties, PreFormattedMarker);
    marker.Some? && CastBool(marker.value.value) == Some(true)
  }
}
