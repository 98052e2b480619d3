/** ObjectLogger (ObjectLogger.cs): an in-memory logger that keeps every
    output per stanza and appends log messages to a text buffer. */
module ObjectLogging {
  import opened Common
  import opened PsModel
  import Logging

  type Cache = map<string, seq<Option<PsObject>>>

  /** The list kept for `stanza`; empty when there is none yet. */
  function Cached(cache: Cache, stanza: string): seq<Option<PsObject>> {
    if stanza in cache then cache[stanza] else []
  }

  /** The forwarded objects as stored: non-null references. */
  function Wrapped(xs: seq<PsObject>): (r: seq<Option<PsObject>>)
    ensures |r| == |xs|
    ensures forall i :: 0 <= i < |xs| ==> r[i] == Some(xs[i])
    decreases |xs|
  {
    if xs == [] then [] else Wrapped(xs[..|xs| - 1]) + [Some(xs[|xs| - 1])]
  }

  /** The line WriteLog appends: the level name, `: `, the formatted message
      (string.Format with the invariant culture, `fmt`) after BaseLogger.Trim
      has replaced its matches with a space (`trim`), and a newline. */
  function LogEntry(trim: string -> string, fmt: (string, seq<string>) -> string,
                    level: Logging.LogLevel, format: string, args: seq<string>): string {
    Logging.LevelName(level) + ": " + trim(fmt(format, args)) + NewLine
  }

  /** No stored output is null or wraps a null base object. */
  predicate NoNulls(cache: Cache) {
    forall s :: s in cache ==> forall i :: 0 <= i < |cache[s]| ==> Logging.Survives(cache[s][i])
  }

  class ObjectLogger {
    var outputCache: Cache
    var log: string

    constructor ()
      ensures outputCache == map[] && log == ""
    {
      outputCache := map[];
      log := "";
    }

    /** The Output property. */
    function Output(): Cache
      reads this
    {
      outputCache
    }

    /** The Log property. */
    function Log(): string
      reads this
    {
      log
    }

    method Clear()
      modifies this
      ensures outputCache == map[] && log == ""
    {
      outputCache := map[];
      log := "";
    }

    method WriteLog(trim: string -> string, fmt: (string, seq<string>) -> string,
                    level: Logging.LogLevel, format: string, args: seq<string>)
      modifies this
      ensures log == old(log) + LogEntry(trim, fmt, level, format, args)
      ensures outputCache == old(outputCache)
    {
      log := log + Logging.LevelName(level) + ": ";
      log := log + trim(fmt(format, args));
      log := log + NewLine;
    }

    /** WriteOutput(output, stanza): stores whatever it is given. A null
        stanza makes Dictionary.ContainsKey throw (`thrown`) before anything
        changes. */
    method WriteOutput(output: Option<PsObject>, stanza: Option<string>) returns (thrown: bool)
      modifies this
      ensures thrown <==> stanza.None?
      ensures stanza.Some? ==>
                outputCache == old(outputCache)[stanza.value := Cached(old(outputCache), stanza.value) + [output]]
      ensures stanza.None? ==> outputCache == old(outputCache)
      ensures log == old(log)
    {
      if stanza.None? {
        return true;
      }
      var s := stanza.value;
      if s !in outputCache {
        outputCache := outputCache[s := []];
      }
      outputCache := outputCache[s := outputCache[s] + [output]];
      thrown := false;
    }

    /** BaseLogger.WriteOutput(outputCollection, stanza) on this logger: the
        forwarded objects are appended, in order, to the stanza's list; an
        exception from the first store ends the loop. */
    method WriteOutputs(collection: seq<Option<PsObject>>, stanza: Option<string>) returns (thrown: bool)
      modifies this
      ensures thrown <==> stanza.None? && Logging.Forwarded(collection) != []
      ensures stanza.Some? && Logging.Forwarded(collection) != [] ==>
                outputCache == old(outputCache)[stanza.value :=
                  Cached(old(outputCache), stanza.value) + Wrapped(Logging.Forwarded(collection))]
      ensures stanza.None? || Logging.Forwarded(collection) == [] ==> outputCache == old(outputCache)
      ensures log == old(log)
    {
      thrown := false;
      var k := 0;
      while k < |collection|
        invariant 0 <= k <= |collection|
        invariant stanza.None? ==> Logging.Forwarded(collection[..k]) == []
        invariant Logging.Forwarded(collection[..k]) == [] ==> outputCache == old(outputCache)
        invariant stanza.Some? && Logging.Forwarded(collection[..k]) != [] ==>
                    outputCache == old(outputCache)[stanza.value :=
                      Cached(old(outputCache), stanza.value) + Wrapped(Logging.Forwarded(collection[..k]))]
        invariant log == old(log)
      {
        var output := collection[k];
        Logging.ForwardedStep(collection, k);
        ghost var sent := Logging.Forwarded(collection[..k]);
        if output.Some? && !output.value.base.NullBase? {
          var psOutput := output.value;
          ghost var prev := outputCache;
          thrown := WriteOutput(Some(psOutput), stanza);
          if thrown {
            assert Logging.Forwarded(collection) != [] by {
              Logging.ForwardedAppend(collection[..k + 1], collection[k + 1..]);
              assert collection[..k + 1] + collection[k + 1..] == collection;
            }
            return;
          }
          StoreStep(old(outputCache), stanza.value, sent, prev, psOutput);
        } else {
          assert sent + [] == sent;
        }
        ghost var before := k;
        k := k + 1;
        assert collection[..k] == collection[..before + 1];
      }
      assert collection[..k] == collection;
    }
  }

  /** One more forwarded object extends what the earlier ones stored. */
  lemma StoreStep(cache: Cache, s: string, sent: seq<PsObject>, prev: Cache, p: PsObject)
    requires sent == [] ==> prev == cache
    requires sent != [] ==> prev == cache[s := Cached(cache, s) + Wrapped(sent)]
    ensures prev[s := Cached(prev, s) + [Some(p)]] == cache[s := Cached(cache, s) + Wrapped(sent + [p])]
  {
    assert Wrapped(sent + [p]) == Wrapped(sent) + [Some(p)] by {
      assert (sent + [p])[..|sent|] == sent;
    }
    if sent == [] {
      assert Cached(cache, s) + Wrapped(sent + [p]) == Cached(cache, s) + [Some(p)];
    } else {
      assert Cached(prev, s) == Cached(cache, s) + Wrapped(sent);
      assert (Cached(cache, s) + Wrapped(sent)) + [Some(p)] == Cached(cache, s) + Wrapped(sent + [p]);
    }
  }

  /** Storing what BaseLogger forwards never puts a null in the cache. */
  lemma KeepsNoNulls(cache: Cache, stanza: string, c: seq<Option<PsObject>>)
    requires NoNulls(cache)
    ensures NoNulls(cache[stanza := Cached(cache, stanza) + Wrapped(Logging.Forwarded(c))])
  {
    var added := Wrapped(Logging.Forwarded(c));
    var next := Cached(cache, stanza) + added;
    forall i | 0 <= i < |next|
      ensures Logging.Survives(next[i])
    {
      if i >= |Cached(cache, stanza)| {
        assert next[i] == added[i - |Cached(cache, stanza)|];
      }
    }
  }

  /** One store grows the stanza's list by exactly the stored object and
      leaves every other stanza's list as it was. */
  lemma StoreIsLocal(cache: Cache, stanza: string, output: Option<PsObject>, other: string)
    requires other != stanza
    ensures var next := cache[stanza := Cached(cache, stanza) + [output]];
            Cached(next, stanza) == Cached(cache, stanza) + [output] &&
            |Cached(next, stanza)| == |Cached(cache, stanza)| + 1 &&
            Cached(next, other) == Cached(cache, other) &&
            next.Keys == cache.Keys + {stanza}
  {
  }
}
