/** XmlFormatter (ModularInputsModule): turns one PSObject into one Splunk
    streaming `<event>` element. Reserved `Splunk*` properties become
    metadata tags, inserted at the front of the metadata (so they come out in
    reverse order of encounter); every other selected property becomes a
    `name="value"` line of the data block; a `<time>` tag is always present;
    only the data block is escaped. */
module XmlFormatter {
  import opened Common
  import opened PsModel
  import opened SecurityEscape

  /** The names of the special properties, compared by exact case (the
      HashSet uses the default ordinal comparer). */
  const ReservedProperties: seq<string> :=
    ["SplunkIndex", "SplunkSource", "SplunkHost", "SplunkSourceType", "SplunkTime"]

  predicate IsReserved(name: string) {
    name in ReservedProperties
  }

  /** The first six characters ("Splunk") removed, the rest lower-cased. */
  function MetaName(name: string): string
    requires IsReserved(name)
  {
    Lower(name[6..])
  }

  lemma MetaNameTime()
    ensures MetaName("SplunkTime") == "time"
  {
    assert "SplunkTime"[6..] == "Time";
    var l := Lower("Time");
    assert l[0] == 't' && l[1] == 'i' && l[2] == 'm' && l[3] == 'e';
  }

  /** Only SplunkTime yields the `time` tag: the other suffixes differ from
      "time" in length, or (Host) in their first letter. */
  lemma TimeTagName(name: string)
    requires IsReserved(name)
    ensures MetaName(name) == "time" <==> name == "SplunkTime"
  {
    if name == "SplunkTime" {
      MetaNameTime();
    } else if name == "SplunkHost" {
      assert name[6..][0] == 'H';
      assert MetaName(name)[0] == 'h';
    } else {
      assert |name| != 10;
    }
  }

  // ---------------------------------------------------------------------
  // The property set (HashSet<string>) the caller may pass in.

  /** The elements of `a` followed by those of `b` not already present:
      HashSet.UnionWith on a set enumerated in insertion order. */
  function Union(a: seq<string>, b: seq<string>): seq<string>
    decreases |b|
  {
    if b == [] then a
    else
      var u := Union(a, b[..|b| - 1]);
      if b[|b| - 1] in u then u else u + [b[|b| - 1]]
  }

  lemma {:induction false} UnionProperties(a: seq<string>, b: seq<string>)
    ensures |a| <= |Union(a, b)| && Union(a, b)[..|a|] == a
    ensures forall x :: x in Union(a, b) <==> x in a || x in b
    decreases |b|
  {
    if b != [] {
      UnionProperties(a, b[..|b| - 1]);
      var u := Union(a, b[..|b| - 1]);
      assert forall x :: x in b <==> x in b[..|b| - 1] || x == b[|b| - 1];
      if b[|b| - 1] !in u {
        assert (u + [b[|b| - 1]])[..|a|] == u[..|a|];
      }
    }
  }

  ghost predicate Distinct(s: seq<string>) {
    forall i, j :: 0 <= i < j < |s| ==> s[i] != s[j]
  }

  /** A HashSet<string> with the default comparer, elements in insertion order. */
  class StringSet {
    var elements: seq<string>

    ghost predicate Valid()
      reads this
    {
      Distinct(elements)
    }

    /** new HashSet<string>(items) */
    constructor (items: seq<string>)
      ensures Valid()
      ensures elements == Union([], items)
    {
      elements := [];
      new;
      UnionWith(items);
    }

    method UnionWith(other: seq<string>)
      requires Valid()
      modifies this
      ensures Valid()
      ensures elements == Union(old(elements), other)
    {
      var i := 0;
      while i < |other|
        invariant 0 <= i <= |other|
        invariant Distinct(elements)
        invariant elements == Union(old(elements), other[..i])
      {
        assert other[..i + 1][..i] == other[..i];
        if other[i] !in elements {
          elements := elements + [other[i]];
        }
        i := i + 1;
      }
      assert other[..i] == other;
    }
  }

  // ---------------------------------------------------------------------
  // Selection of the (name, value) pairs to serialise.

  /** The `dynamic` objects with Name and Value that KeyValuePairs consumes. */
  datatype NameValue = NameValue(name: string, value: Value)

  predicate ContainsIgnoringCase(keys: seq<string>, name: string) {
    exists k :: k in keys && EqualsIgnoreCase(k, name)
  }

  predicate Selectable(p: PsProperty, keys: Option<seq<string>>) {
    (keys.None? || ContainsIgnoringCase(keys.value, p.name)) && !p.isScript && p.gettable
  }

  /** FilterNameValueObjects: the gettable, non-script properties, and when a
      key list is given only those it names (ignoring case). */
  function FilterNameValueObjects(ps: seq<PsProperty>, keys: Option<seq<string>>): (r: seq<NameValue>)
    ensures |r| <= |ps|
    decreases |ps|
  {
    if ps == [] then []
    else
      var last := ps[|ps| - 1];
      FilterNameValueObjects(ps[..|ps| - 1], keys) +
      (if Selectable(last, keys) then [NameValue(last.name, last.value)] else [])
  }

  /** ConvertToNameValueObjects over key/value pairs: every pair, or, with a
      key list, those whose key it contains (ordinal comparison). */
  function ConvertPairs(entries: seq<(string, Value)>, keys: Option<seq<string>>): (r: seq<NameValue>)
    ensures |r| <= |entries|
    ensures keys.None? ==> |r| == |entries|
    decreases |entries|
  {
    if entries == [] then []
    else
      var last := entries[|entries| - 1];
      ConvertPairs(entries[..|entries| - 1], keys) +
      (if keys.None? || last.0 in keys.value then [NameValue(last.0, last.1)] else [])
  }

  /** The dictionary's key comparison: ordinal, or ignoring case. */
  predicate SameKey(ignoreCase: bool, a: string, b: string) {
    if ignoreCase then EqualsIgnoreCase(a, b) else a == b
  }

  /** IDictionary.Contains(key) under the dictionary's comparer. */
  predicate HasKey(entries: seq<(string, Value)>, ignoreCase: bool, key: string) {
    exists i :: 0 <= i < |entries| && SameKey(ignoreCase, entries[i].0, key)
  }

  /** The dictionary indexer output[name]. */
  function Lookup(entries: seq<(string, Value)>, ignoreCase: bool, key: string): Value
    requires HasKey(entries, ignoreCase, key)
  {
    if SameKey(ignoreCase, entries[0].0, key) then entries[0].1
    else
      assert SameKey(ignoreCase, entries[1..][FirstIndexAfter(entries, ignoreCase, key)].0, key);
      Lookup(entries[1..], ignoreCase, key)
  }

  ghost function FirstIndexAfter(entries: seq<(string, Value)>, ignoreCase: bool, key: string): (k: nat)
    requires HasKey(entries, ignoreCase, key) && !SameKey(ignoreCase, entries[0].0, key)
    ensures k + 1 < |entries| && SameKey(ignoreCase, entries[k + 1].0, key)
  {
    var i :| 0 <= i < |entries| && SameKey(ignoreCase, entries[i].0, key); i - 1
  }

  function DictionaryNameValues(entries: seq<(string, Value)>): (r: seq<NameValue>)
    ensures |r| == |entries|
    decreases |entries|
  {
    if entries == [] then []
    else DictionaryNameValues(entries[..|entries| - 1]) +
         [NameValue(entries[|entries| - 1].0, entries[|entries| - 1].1)]
  }

  function KeyedNameValues(entries: seq<(string, Value)>, ignoreCase: bool, keys: seq<string>): seq<NameValue>
    decreases |keys|
  {
    if keys == [] then []
    else
      var k := keys[|keys| - 1];
      KeyedNameValues(entries, ignoreCase, keys[..|keys| - 1]) +
      (if HasKey(entries, ignoreCase, k) then [NameValue(k, Lookup(entries, ignoreCase, k))] else [])
  }

  /** ConvertToNameValueObjects over an IDictionary: every entry, or, with a
      key list, the keys the dictionary contains under its own comparer, in
      key-list order and named as listed. */
  function ConvertDictionary(entries: seq<(string, Value)>, ignoreCase: bool, keys: Option<seq<string>>): (r: seq<NameValue>)
    ensures keys.None? ==> |r| == |entries|
    ensures keys.Some? ==> |r| <= |keys.value|
  {
    if keys.None? then DictionaryNameValues(entries)
    else
      DictionarySound(entries, ignoreCase, keys.value);
      KeyedNameValues(entries, ignoreCase, keys.value)
  }

  /** The key list ConvertToString uses: the caller's list with the reserved
      names added, or the reserved names alone for a bare string. */
  function EffectiveKeys(o: PsObject, properties: Option<seq<string>>): Option<seq<string>> {
    if properties.Some? then Some(Union(properties.value, ReservedProperties))
    else if o.base.Str? then Some(ReservedProperties)
    else None
  }

  function Selection(o: PsObject, keys: Option<seq<string>>): seq<NameValue> {
    match o.base
    case Pairs(es) => ConvertPairs(es, keys)
    case Dict(es, ignoreCase) => ConvertDictionary(es, ignoreCase, keys)
    case _ => FilterNameValueObjects(o.properties, keys)
  }

  // ---------------------------------------------------------------------
  // KeyValuePairs: the specification.

  datatype Tag = Tag(name: string, value: string)

  /** `<name>value</name>` and a newline. */
  function Render(t: Tag): string {
    "<" + t.name + ">" + t.value + "</" + t.name + ">\n"
  }

  function RenderTags(ts: seq<Tag>): string {
    if ts == [] then "" else Render(ts[0]) + RenderTags(ts[1..])
  }

  lemma RenderTagsCons(t: Tag, ts: seq<Tag>)
    ensures RenderTags([t] + ts) == Render(t) + RenderTags(ts)
  {
    assert ([t] + ts)[1..] == ts;
  }

  /** The string value: ToString() of a non-null value; "" when the value is
      null or the getter or ToString throws. */
  function ValueText(v: Value): string {
    if v.Boxed? && v.shown.Shown? then v.shown.text else ""
  }

  /** The instant a SplunkTime value denotes: the value cast to
      DateTimeOffset, else its string parsed, else the current time. */
  function TimeOf(rt: Runtime, v: Value): Instant {
    match CastTime(v)
    case Some(t) => t
    case None =>
      match rt.tryParse(ValueText(v))
      case Some(t) => t
      case None => rt.now
  }

  function TagFor(rt: Runtime, nv: NameValue): Tag
    requires IsReserved(nv.name)
  {
    var name := MetaName(nv.name);
    if name == "time" then Tag(name, rt.epochSeconds(TimeOf(rt, nv.value)))
    else Tag(name, ValueText(nv.value))
  }

  function DataLine(nv: NameValue): string {
    nv.name + "=\"" + ValueText(nv.value) + "\"\n"
  }

  /** The metadata tags of the reserved properties, most recent first. */
  function MetaTags(rt: Runtime, objs: seq<NameValue>): seq<Tag>
    decreases |objs|
  {
    if objs == [] then []
    else
      var last := objs[|objs| - 1];
      (if IsReserved(last.name) then [TagFor(rt, last)] else []) + MetaTags(rt, objs[..|objs| - 1])
  }

  /** The data lines of the other properties, in encounter order. */
  function DataText(objs: seq<NameValue>): string
    decreases |objs|
  {
    if objs == [] then ""
    else
      var last := objs[|objs| - 1];
      DataText(objs[..|objs| - 1]) + LineFor(last)
  }

  /** The line a pair contributes to the data text: none for a reserved
      name. */
  function LineFor(nv: NameValue): string {
    if IsReserved(nv.name) then "" else DataLine(nv)
  }

  predicate HasTime(objs: seq<NameValue>) {
    exists i :: 0 <= i < |objs| && objs[i].name == "SplunkTime"
  }

  function DefaultTime(rt: Runtime): Tag {
    Tag("time", rt.epochSeconds(rt.now))
  }

  /** All metadata: the default time tag first when no SplunkTime was seen. */
  function Metadata(rt: Runtime, objs: seq<NameValue>): seq<Tag> {
    (if HasTime(objs) then [] else [DefaultTime(rt)]) + MetaTags(rt, objs)
  }

  function ContentText(content: Option<string>): string {
    if IsNullOrWhiteSpace(content) then "" else content.value
  }

  /** What KeyValuePairs returns: unescaped metadata, then the escaped data
      block. */
  function Body(rt: Runtime, objs: seq<NameValue>, content: Option<string>): string {
    RenderTags(Metadata(rt, objs)) + "<data>" + Escape(DataText(objs) + ContentText(content)) + "</data>"
  }

  function Opening(stanza: Option<string>): string {
    "<event" + (if IsNullOrEmpty(stanza) then ">" else " stanza=\"" + stanza.value + "\">")
  }

  function ContentOf(o: PsObject): Option<string> {
    if o.base.Str? then Some(o.base.text) else None
  }

  /** What ConvertToString returns for `o`, given the property list the
      caller passed (None: null). */
  function EventXml(rt: Runtime, o: PsObject, stanza: Option<string>, properties: Option<seq<string>>): string {
    Opening(stanza) + Body(rt, Selection(o, EffectiveKeys(o, properties)), ContentOf(o)) + "</event>\n"
  }

  // ---------------------------------------------------------------------
  // The imperative code.

  /** KeyValuePairs: one pass over the pairs, inserting metadata at the front
      of `meta` and appending data lines to `data`. */
  method KeyValuePairs(rt: Runtime, objects: seq<NameValue>, content: Option<string>) returns (r: string)
    ensures r == Body(rt, objects, content)
  {
    var hasTime := false;
    var meta := "";
    var data := "";
    var i := 0;
    while i < |objects|
      invariant 0 <= i <= |objects|
      invariant meta == RenderTags(MetaTags(rt, objects[..i]))
      invariant data == DataText(objects[..i])
      invariant hasTime == HasTime(objects[..i])
    {
      var property := objects[i];
      var name := property.name;
      var value := ValueText(property.value);
      HasTimeStep(objects, i);
      if IsReserved(name) {
        TimeTagName(name);
        name := MetaName(name);
        if name == "time" {
          value := rt.epochSeconds(TimeOf(rt, property.value));
          hasTime := true;
        }
        assert Tag(name, value) == TagFor(rt, property);
        MetaTagsStep(rt, objects, i);
        RenderTagsCons(Tag(name, value), MetaTags(rt, objects[..i]));
        meta := Render(Tag(name, value)) + meta;
        DataTextStep(objects, i);
      } else {
        MetaTagsStep(rt, objects, i);
        DataTextStep(objects, i);
        data := data + DataLine(property);
      }
      ghost var before := i;
      i := i + 1;
      assert objects[..i] == objects[..before + 1];
    }
    assert objects[..i] == objects;
    if !hasTime {
      RenderTagsCons(DefaultTime(rt), MetaTags(rt, objects));
      meta := Render(DefaultTime(rt)) + meta;
    } else {
      assert Metadata(rt, objects) == MetaTags(rt, objects);
    }
    if !IsNullOrWhiteSpace(content) {
      data := data + content.value;
    } else {
      assert data + ContentText(content) == data;
    }
    r := meta + "<data>" + Escape(data) + "</data>";
  }

  /** What one more pair adds to the metadata. */
  lemma MetaTagsStep(rt: Runtime, objects: seq<NameValue>, i: nat)
    requires i < |objects|
    ensures IsReserved(objects[i].name) ==>
              MetaTags(rt, objects[..i + 1]) == [TagFor(rt, objects[i])] + MetaTags(rt, objects[..i])
    ensures !IsReserved(objects[i].name) ==> MetaTags(rt, objects[..i + 1]) == MetaTags(rt, objects[..i])
  {
    assert objects[..i + 1][..i] == objects[..i];
    assert [] + MetaTags(rt, objects[..i]) == MetaTags(rt, objects[..i]);
  }

  /** What one more pair adds to the data block. */
  lemma DataTextStep(objects: seq<NameValue>, i: nat)
    requires i < |objects|
    ensures IsReserved(objects[i].name) ==> DataText(objects[..i + 1]) == DataText(objects[..i])
    ensures !IsReserved(objects[i].name) ==>
              DataText(objects[..i + 1]) == DataText(objects[..i]) + DataLine(objects[i])
  {
    assert objects[..i + 1][..i] == objects[..i];
    assert DataText(objects[..i]) + "" == DataText(objects[..i]);
  }

  lemma HasTimeStep(objects: seq<NameValue>, i: nat)
    requires i < |objects|
    ensures HasTime(objects[..i + 1]) <==> HasTime(objects[..i]) || objects[i].name == "SplunkTime"
  {
    assert objects[..i + 1][i] == objects[i];
    if HasTime(objects[..i]) {
      var j :| 0 <= j < i && objects[..i][j].name == "SplunkTime";
      assert objects[..i + 1][j] == objects[..i][j];
    }
  }

  /** ConvertToString: a caller-supplied property set is extended in place
      with the reserved names; a bare string without one selects only them. */
  method ConvertToString(rt: Runtime, output: PsObject, stanza: Option<string>, properties: StringSet?) returns (r: string)
    requires properties != null ==> properties.Valid()
    modifies properties
    ensures properties != null ==> properties.Valid()
    ensures properties != null ==> properties.elements == Union(old(properties.elements), ReservedProperties)
    ensures r == EventXml(rt, output, stanza, if properties == null then None else Some(old(properties.elements)))
  {
    ghost var given := if properties == null then None else Some(properties.elements);
    var keys: Option<seq<string>> := None;
    if properties != null {
      properties.UnionWith(ReservedProperties);
      keys := Some(properties.elements);
    } else if output.base.Str? {
      var reserved := new StringSet(ReservedProperties);
      assert reserved.elements == Union([], ReservedProperties);
      UnionOfDistinct(ReservedProperties);
      keys := Some(reserved.elements);
    }
    assert keys == EffectiveKeys(output, given);
    var values := Selection(output, keys);
    var data := KeyValuePairs(rt, values, ContentOf(output));
    r := "<event" + (if IsNullOrEmpty(stanza) then ">" else " stanza=\"" + stanza.value + "\">") +
         data +
         "</event>\n";
  }

  lemma UnionOfDistinct(s: seq<string>)
    requires s == ReservedProperties
    ensures Union([], s) == s
  {
    assert s[..1][..0] == [] && s[..2][..1] == s[..1] && s[..3][..2] == s[..2];
    assert s[..4][..3] == s[..3] && s[..5][..4] == s[..4] && s[..5] == s;
    assert Union([], s[..1]) == s[..1];
    assert Union([], s[..2]) == s[..2];
    assert Union([], s[..3]) == s[..3];
    assert Union([], s[..4]) == s[..4];
  }

  // ---------------------------------------------------------------------
  // Properties.

  /** Metadata insertion at the front: the tags of a later batch of pairs
      precede those of an earlier one. */
  lemma {:induction false} MetaTagsReversed(rt: Runtime, xs: seq<NameValue>, ys: seq<NameValue>)
    ensures MetaTags(rt, xs + ys) == MetaTags(rt, ys) + MetaTags(rt, xs)
    decreases |ys|
  {
    if ys == [] {
      assert xs + ys == xs;
    } else {
      var n := |ys| - 1;
      var t := if IsReserved(ys[n].name) then [TagFor(rt, ys[n])] else [];
      assert MetaTags(rt, xs + ys) == t + MetaTags(rt, xs + ys[..n]) by {
        FrontOfAppend(xs, ys);
        MetaTagsLast(rt, xs + ys);
      }
      assert MetaTags(rt, ys) == t + MetaTags(rt, ys[..n]) by {
        MetaTagsLast(rt, ys);
      }
      MetaTagsReversed(rt, xs, ys[..n]);
      Associate(t, MetaTags(rt, ys[..n]), MetaTags(rt, xs));
    }
  }

  lemma MetaTagsLast(rt: Runtime, objs: seq<NameValue>)
    requires objs != []
    ensures MetaTags(rt, objs) ==
            (if IsReserved(objs[|objs| - 1].name) then [TagFor(rt, objs[|objs| - 1])] else []) +
            MetaTags(rt, objs[..|objs| - 1])
  {
  }

  /** Two reserved pairs give their tags in the opposite order. */
  lemma LaterReservedComesFirst(rt: Runtime, a: NameValue, b: NameValue)
    requires IsReserved(a.name) && IsReserved(b.name)
    ensures MetaTags(rt, [a, b]) == [TagFor(rt, b), TagFor(rt, a)]
  {
    MetaTagsReversed(rt, [a], [b]);
    assert [a] + [b] == [a, b];
    assert [b][..0] == [] && [a][..0] == [];
  }

  /** Data lines keep encounter order. */
  lemma {:induction false} DataTextInOrder(xs: seq<NameValue>, ys: seq<NameValue>)
    ensures DataText(xs + ys) == DataText(xs) + DataText(ys)
    decreases |ys|
  {
    if ys == [] {
      assert xs + ys == xs;
    } else {
      var n := |ys| - 1;
      FrontOfAppend(xs, ys);
      DataTextLast(xs + ys);
      DataTextLast(ys);
      DataTextInOrder(xs, ys[..n]);
      Associate(DataText(xs), DataText(ys[..n]), LineFor(ys[n]));
    }
  }

  /** The data text of a non-empty list is that of its front followed by
      the line of its last pair. */
  lemma DataTextLast(objs: seq<NameValue>)
    requires objs != []
    ensures DataText(objs) == DataText(objs[..|objs| - 1]) + LineFor(objs[|objs| - 1])
  {
  }

  lemma FrontOfAppend<T>(xs: seq<T>, ys: seq<T>)
    requires ys != []
    ensures (xs + ys)[..|xs + ys| - 1] == xs + ys[..|ys| - 1]
    ensures (xs + ys)[|xs + ys| - 1] == ys[|ys| - 1]
  {
  }

  lemma Associate<T>(a: seq<T>, b: seq<T>, c: seq<T>)
    ensures (a + b) + c == a + (b + c)
  {
  }

  function CountSplunkTime(objs: seq<NameValue>): nat
    decreases |objs|
  {
    if objs == [] then 0
    else CountSplunkTime(objs[..|objs| - 1]) + (if objs[|objs| - 1].name == "SplunkTime" then 1 else 0)
  }

  function CountTimeTags(ts: seq<Tag>): nat {
    if ts == [] then 0 else (if ts[0].name == "time" then 1 else 0) + CountTimeTags(ts[1..])
  }

  lemma {:induction false} CountTimeTagsAppend(a: seq<Tag>, b: seq<Tag>)
    ensures CountTimeTags(a + b) == CountTimeTags(a) + CountTimeTags(b)
  {
    if a == [] {
      assert a + b == b;
    } else {
      assert (a + b)[1..] == a[1..] + b;
      CountTimeTagsAppend(a[1..], b);
    }
  }

  lemma {:induction false} HasTimeCounts(objs: seq<NameValue>)
    ensures HasTime(objs) <==> CountSplunkTime(objs) > 0
    decreases |objs|
  {
    if objs != [] {
      var n := |objs| - 1;
      HasTimeCounts(objs[..n]);
      HasTimeStep(objs, n);
      assert objs[..n + 1] == objs;
    }
  }

  lemma {:induction false} MetaTagsTimeCount(rt: Runtime, objs: seq<NameValue>)
    ensures CountTimeTags(MetaTags(rt, objs)) == CountSplunkTime(objs)
    decreases |objs|
  {
    if objs != [] {
      var n := |objs| - 1;
      var last := objs[n];
      MetaTagsTimeCount(rt, objs[..n]);
      if IsReserved(last.name) {
        TimeTagName(last.name);
        CountTimeTagsAppend([TagFor(rt, last)], MetaTags(rt, objs[..n]));
      } else {
        assert MetaTags(rt, objs) == MetaTags(rt, objs[..n]);
      }
    }
  }

  /** Exactly one `<time>` tag when no SplunkTime property exists (the
      default one, first), otherwise one per SplunkTime property. */
  lemma TimeAlwaysDefined(rt: Runtime, objs: seq<NameValue>)
    ensures CountTimeTags(Metadata(rt, objs)) ==
              if CountSplunkTime(objs) == 0 then 1 else CountSplunkTime(objs)
    ensures CountSplunkTime(objs) == 0 ==> Metadata(rt, objs)[0] == DefaultTime(rt)
  {
    HasTimeCounts(objs);
    MetaTagsTimeCount(rt, objs);
    if HasTime(objs) {
      assert Metadata(rt, objs) == MetaTags(rt, objs);
    } else {
      CountTimeTagsAppend([DefaultTime(rt)], MetaTags(rt, objs));
    }
  }

  /** A reserved name other than SplunkTime renders its value under the
      lower-cased suffix; SplunkTime renders the epoch seconds of its instant. */
  lemma ReservedTagContents(rt: Runtime, nv: NameValue)
    requires IsReserved(nv.name)
    ensures nv.name != "SplunkTime" ==> TagFor(rt, nv) == Tag(Lower(nv.name[6..]), ValueText(nv.value))
    ensures nv.name == "SplunkTime" ==> TagFor(rt, nv) == Tag("time", rt.epochSeconds(TimeOf(rt, nv.value)))
  {
    TimeTagName(nv.name);
  }

  /** Reserved names are recognised by exact case only: `splunkhost` is an
      ordinary data line. */
  lemma ReservedNamesAreCaseSensitive(rt: Runtime, v: Value)
    ensures var x := NameValue("splunkhost", v);
            MetaTags(rt, [x]) == [] && DataText([x]) == "splunkhost=\"" + ValueText(v) + "\"\n"
  {
    var x := NameValue("splunkhost", v);
    assert "splunkhost"[0] != "SplunkHost"[0];
    assert [x][..0] == [];
    assert !IsReserved(x.name);
  }

  /** UnionWith adds the reserved names to a caller's list and keeps the
      list's own names first. */
  lemma SuppliedListGainsReserved(properties: seq<string>)
    ensures |properties| <= |Union(properties, ReservedProperties)|
    ensures var u := Union(properties, ReservedProperties);
            u[..|properties|] == properties &&
            (forall r :: r in ReservedProperties ==> r in u) &&
            (forall x :: x in u ==> x in properties || IsReserved(x))
  {
    UnionProperties(properties, ReservedProperties);
  }

  /** Soundness of the property filter: only gettable, non-script
      properties, and only names the list holds (ignoring case). */
  lemma {:induction false} FilterSound(ps: seq<PsProperty>, keys: Option<seq<string>>)
    ensures forall nv :: nv in FilterNameValueObjects(ps, keys) ==>
              exists p :: p in ps && Selectable(p, keys) && nv == NameValue(p.name, p.value)
    decreases |ps|
  {
    if ps != [] {
      var n := |ps| - 1;
      FilterSound(ps[..n], keys);
      forall nv | nv in FilterNameValueObjects(ps, keys)
        ensures exists p :: p in ps && Selectable(p, keys) && nv == NameValue(p.name, p.value)
      {
        if nv in FilterNameValueObjects(ps[..n], keys) {
          var p :| p in ps[..n] && Selectable(p, keys) && nv == NameValue(p.name, p.value);
          assert p in ps;
        } else {
          assert ps[n] in ps;
        }
      }
    }
  }

  /** Completeness of the property filter. */
  lemma {:induction false} FilterComplete(ps: seq<PsProperty>, keys: Option<seq<string>>)
    ensures forall p :: p in ps && Selectable(p, keys) ==> NameValue(p.name, p.value) in FilterNameValueObjects(ps, keys)
    decreases |ps|
  {
    if ps != [] {
      var n := |ps| - 1;
      FilterComplete(ps[..n], keys);
      assert forall p :: p in ps ==> p in ps[..n] || p == ps[n];
    }
  }

  /** No reserved name equals `Length` ignoring case: a bare string's
      Length property is never emitted. */
  lemma LengthIsNotReserved()
    ensures !ContainsIgnoringCase(ReservedProperties, "Length")
  {
    forall k | k in ReservedProperties
      ensures !EqualsIgnoreCase(k, "Length")
    {
      assert k[0] == 'S';
      assert Lower(k)[0] == 's' && Lower("Length")[0] == 'l';
    }
  }

  /** A bare string without a property list selects only properties whose
      name is a reserved one (ignoring case); its Length never appears. */
  lemma BareStringSelectsOnlyReserved(o: PsObject)
    requires o.base.Str?
    ensures forall nv :: nv in Selection(o, EffectiveKeys(o, None)) ==>
              ContainsIgnoringCase(ReservedProperties, nv.name) && nv.name != "Length"
  {
    FilterSound(o.properties, Some(ReservedProperties));
    LengthIsNotReserved();
  }

  /** A dictionary with a key list follows the list's order: the pairs for
      two lists concatenated are those of the first list, then the second. */
  lemma {:induction false} DictionaryFollowsKeyOrder(entries: seq<(string, Value)>, ignoreCase: bool,
                                                     k1: seq<string>, k2: seq<string>)
    ensures KeyedNameValues(entries, ignoreCase, k1 + k2) ==
            KeyedNameValues(entries, ignoreCase, k1) + KeyedNameValues(entries, ignoreCase, k2)
    decreases |k2|
  {
    if k2 == [] {
      assert k1 + k2 == k1;
    } else {
      var n := |k2| - 1;
      assert (k1 + k2)[..|k1 + k2| - 1] == k1 + k2[..n];
      assert (k1 + k2)[|k1 + k2| - 1] == k2[n];
      DictionaryFollowsKeyOrder(entries, ignoreCase, k1, k2[..n]);
    }
  }

  /** Each pair taken from a dictionary with a key list is a listed key the
      dictionary contains under its comparer, with the dictionary's value for
      it; absent keys are skipped. */
  lemma {:induction false} DictionarySound(entries: seq<(string, Value)>, ignoreCase: bool, keys: seq<string>)
    ensures |KeyedNameValues(entries, ignoreCase, keys)| <= |keys|
    ensures forall nv :: nv in KeyedNameValues(entries, ignoreCase, keys) ==>
              nv.name in keys && HasKey(entries, ignoreCase, nv.name) &&
              nv.value == Lookup(entries, ignoreCase, nv.name)
    decreases |keys|
  {
    if keys != [] {
      var n := |keys| - 1;
      DictionarySound(entries, ignoreCase, keys[..n]);
      assert forall k :: k in keys[..n] ==> k in keys;
    }
  }

  /** Conversely, every listed key the dictionary contains gives a pair; for
      a hashtable that ignores case, a listed key finds an entry whose key
      differs from it in case only, and the pair is named as listed. */
  lemma {:induction false} DictionaryComplete(entries: seq<(string, Value)>, ignoreCase: bool, keys: seq<string>)
    ensures forall k :: k in keys && HasKey(entries, ignoreCase, k) ==>
              NameValue(k, Lookup(entries, ignoreCase, k)) in KeyedNameValues(entries, ignoreCase, keys)
    ensures ignoreCase ==>
              forall k, i :: k in keys && 0 <= i < |entries| && EqualsIgnoreCase(entries[i].0, k) ==>
                NameValue(k, Lookup(entries, ignoreCase, k)) in KeyedNameValues(entries, ignoreCase, keys)
    decreases |keys|
  {
    if keys != [] {
      var n := |keys| - 1;
      DictionaryComplete(entries, ignoreCase, keys[..n]);
      assert forall k :: k in keys ==> k in keys[..n] || k == keys[n];
    }
  }

  /** Key/value pairs with a key list keep exactly the pairs whose key is
      listed (exact case), in their own order. */
  lemma {:induction false} PairsSound(entries: seq<(string, Value)>, keys: seq<string>)
    ensures forall nv :: nv in ConvertPairs(entries, Some(keys)) <==>
              nv.name in keys && (nv.name, nv.value) in entries
    decreases |entries|
  {
    if entries != [] {
      var n := |entries| - 1;
      PairsSound(entries[..n], keys);
      assert forall e :: e in entries <==> e in entries[..n] || e == entries[n];
    }
  }

  /** The data block decodes back to the data lines and content: escaping
      loses nothing, and no '<', '>' or quote survives in it. */
  lemma DataBlockRoundTrip(rt: Runtime, objs: seq<NameValue>, content: Option<string>)
    ensures var e := Escape(DataText(objs) + ContentText(content));
            Body(rt, objs, content) == RenderTags(Metadata(rt, objs)) + "<data>" + e + "</data>" &&
            Unescape(e) == DataText(objs) + ContentText(content) &&
            forall i :: 0 <= i < |e| ==> !IsMarkupChar(e[i]) || e[i] == '&'
  {
    UnescapeEscape(DataText(objs) + ContentText(content));
    EscapedHasNoMarkup(DataText(objs) + ContentText(content));
  }

  /** The stanza name is copied into the attribute without escaping; an
      empty or missing stanza gives a bare `<event>`. */
  lemma EventEnvelope(rt: Runtime, o: PsObject, stanza: Option<string>, properties: Option<seq<string>>)
    ensures var r := EventXml(rt, o, stanza, properties);
            var b := Body(rt, Selection(o, EffectiveKeys(o, properties)), ContentOf(o));
            (IsNullOrEmpty(stanza) ==> r == "<event>" + b + "</event>\n") &&
            (!IsNullOrEmpty(stanza) ==> r == "<event stanza=\"" + stanza.value + "\">" + b + "</event>\n")
  {
    if IsNullOrEmpty(stanza) {
      assert Opening(stanza) == "<event>";
    } else {
      assert Opening(stanza) == "<event stanza=\"" + stanza.value + "\">";
    }
  }

  /** A bare string with no reserved-named property and no property list is
      the default time tag (see RenderTime) and the escaped string (when it
      is not blank). */
  lemma PlainStringEvent(rt: Runtime, text: string, ps: seq<PsProperty>)
    requires forall p :: p in ps ==> !ContainsIgnoringCase(ReservedProperties, p.name)
    ensures EventXml(rt, PsObject(Str(text), ps), None, None) ==
              "<event>" + Render(DefaultTime(rt)) + "<data>" + Escape(ContentText(Some(text))) + "</data>" + "</event>\n"
  {
    var o := PsObject(Str(text), ps);
    var b := Body(rt, [], Some(text));
    assert EventXml(rt, o, None, None) == "<event>" + b + "</event>\n" by {
      NothingSelected(o);
      EventEnvelope(rt, o, None, None);
    }
    var time, escaped := Render(DefaultTime(rt)), Escape(ContentText(Some(text)));
    assert b == time + "<data>" + escaped + "</data>" by {
      EmptyBody(rt, Some(text));
    }
    Regroup("<event>", time, "<data>", escaped, "</data>", "</event>\n");
  }

  lemma Regroup(open: string, a: string, b: string, c: string, d: string, close: string)
    ensures open + (a + b + c + d) + close == open + a + b + c + d + close
  {
  }

  lemma NothingSelected(o: PsObject)
    requires o.base.Str?
    requires forall p :: p in o.properties ==> !ContainsIgnoringCase(ReservedProperties, p.name)
    ensures Selection(o, EffectiveKeys(o, None)) == []
  {
    FilterEmpty(o.properties, Some(ReservedProperties));
  }

  /** With no selectable property, nothing is selected. */
  lemma {:induction false} FilterEmpty(ps: seq<PsProperty>, keys: Option<seq<string>>)
    requires forall p :: p in ps ==> !Selectable(p, keys)
    ensures FilterNameValueObjects(ps, keys) == []
    decreases |ps|
  {
    if ps != [] {
      var n := |ps| - 1;
      assert ps[n] in ps;
      assert forall p :: p in ps[..n] ==> p in ps;
      FilterEmpty(ps[..n], keys);
    }
  }

  lemma EmptyBody(rt: Runtime, content: Option<string>)
    ensures Body(rt, [], content) ==
              Render(DefaultTime(rt)) + "<data>" + Escape(ContentText(content)) + "</data>"
  {
    assert RenderTags(Metadata(rt, [])) == Render(DefaultTime(rt)) by {
      assert Metadata(rt, []) == [DefaultTime(rt)];
      assert RenderTags([DefaultTime(rt)]) == Render(DefaultTime(rt)) + RenderTags([]);
    }
    assert DataText([]) + ContentText(content) == ContentText(content);
  }

  /** The `<time>` tag, written out. */
  lemma RenderTime(v: string)
    ensures Render(Tag("time", v)) == "<time>" + v + "</time>\n"
  {
    var n := "time";
    assert "<" + n + ">" == "<time>";
    assert "</" + n + ">\n" == "</time>\n";
    assert Render(Tag(n, v)) == ("<" + n + ">") + v + ("</" + n + ">\n");
  }

}
