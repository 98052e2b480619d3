# Splunk PowerShell modular input — a Dafny model

This project models the core of the Splunk modular input that runs
PowerShell scripts. It has two parts.

- **The ModularInputsModule library.**
  - The XmlFormatter turns one PSObject into one Splunk streaming `<event>`.
  - Four loggers (BaseLogger, ConsoleLogger, SplunkLogger, ObjectLogger)
    decide where log messages and script output go.
  - The ConvertTo-SplunkEventXml cmdlet.
  - PowerShellJob, the scheduled job that runs one stanza's script. Its
    variables are built with the options as written, which leave them
    writable (see "## Findings").
- **The ModularPowerShell service.**
  - Its three entry points (ModularPowerShell.cs, PowerShell.cs, Program.cs).
    Each classifies its command line, reads the `<input>` definition, sets
    the server environment and opens the `<stream>`. Then it either
    schedules one job per `<stanza>`, or (Program.cs) runs every stanza's
    script in turn.
  - The two older SplunkXmlFormatter cmdlets. They are modelled with their
    reserved-name guard as written, and beside it the evidently intended one
    (see "## Findings").
  - The GetParameterValue helper.

Everything that only computes is a function. Where the source works step by
step, the model is imperative:
- the formatter's property loops (`KeyValuePairs`, `PropertyLoop`);
- `StringSet.UnionWith`;
- the ObjectLogger's output cache and log, as a class;
- the cmdlet's fields, as a class;
- the job's shared session state, as a class;
- the stanza loop of Program.cs.

Each imperative member is proved against a specification function, and the
lemmas beside that function state what the source promises.

What each entry point does to the outside world is a sequence of `Effect`s:
- a standard-output or standard-error line;
- a log call;
- an environment assignment;
- a call into the scheduler;
- an exit code;
- an exception that nothing catches.

Standard output (`Stdout`) and "the process has not ended yet"
(`Continues`) are read off that sequence.

The modules:
- `Common` holds Option, ASCII case mapping, whitespace and lines.
- `PsModel` models PSObject, its properties and values, the clock and the
  time parser.
- `XmlTree` models the part of System.Xml.Linq that is used.
- `SecurityEscape` models SecurityElement.Escape, with the entity decoding of
  section 4.6 of XML 1.0 (Fifth Edition) as its inverse.
- `CommandLine` holds the argument handling the three entry points share.
- `ScriptRunner` is the PowerShell engine, as a function parameter.

## Model

| member | source | states |
|---|---|---|
| XmlFormatter.TimeTagName | ModularInputsModule/Serialization/XmlFormatter.cs:210-213 | A reserved name yields the `time` tag exactly when it is SplunkTime (the first six characters removed, the rest lower-cased). |
| XmlFormatter.ReservedTagContents | ModularInputsModule/Serialization/XmlFormatter.cs:210-230 | A reserved property other than SplunkTime becomes a tag named by its lower-cased suffix, holding its value. SplunkTime becomes `<time>` with the epoch seconds of its instant. |
| XmlFormatter.ReservedNamesAreCaseSensitive | ModularInputsModule/Serialization/XmlFormatter.cs:43 | Reserved names are matched by exact case. `splunkhost` gives no tag, only a `name="value"` data line. |
| XmlFormatter.UnionProperties | ModularInputsModule/Serialization/XmlFormatter.cs:79-82 | The union keeps the caller's list as its prefix and holds exactly the names of either list. |
| XmlFormatter.StringSet.constructor | ModularInputsModule/Serialization/XmlFormatter.cs:79-82 | A set built from a list holds that list's distinct names in order. |
| XmlFormatter.StringSet.UnionWith | ModularInputsModule/Serialization/XmlFormatter.cs:79-82 | UnionWith mutates the caller's set into the union with the reserved names and keeps it duplicate-free. |
| XmlFormatter.SuppliedListGainsReserved | ModularInputsModule/Serialization/XmlFormatter.cs:79-82 | After UnionWith, a caller's property list still comes first, contains every reserved name, and contains nothing else. |
| XmlFormatter.KeyValuePairs | ModularInputsModule/Serialization/XmlFormatter.cs:175-257 | The loop returns the metadata tags (each reserved one inserted at the front), the default time when none was set, and then the escaped data block with its content. |
| XmlFormatter.ConvertToString | ModularInputsModule/Serialization/XmlFormatter.cs:76-109 | The result is the event for the object, stanza and property list as given. A supplied property set is left holding the union with the reserved names. |
| XmlFormatter.MetaTagsReversed | ModularInputsModule/Serialization/XmlFormatter.cs:233 | The tags of a later run of properties come before those of an earlier run. |
| XmlFormatter.LaterReservedComesFirst | ModularInputsModule/Serialization/XmlFormatter.cs:233 | Of two reserved properties, the second one's tag is written first. |
| XmlFormatter.DataTextInOrder | ModularInputsModule/Serialization/XmlFormatter.cs:237 | Data lines follow property order: the data of `xs + ys` is the data of `xs` followed by that of `ys`. |
| XmlFormatter.MetaTagsTimeCount | ModularInputsModule/Serialization/XmlFormatter.cs:213-230 | Each SplunkTime property contributes exactly one `<time>` tag, and no other property does. |
| XmlFormatter.TimeAlwaysDefined | ModularInputsModule/Serialization/XmlFormatter.cs:242-247 | The metadata holds exactly one `<time>` tag, the current time and first, when no SplunkTime exists. Otherwise it holds one per SplunkTime. |
| XmlFormatter.FilterNameValueObjects | ModularInputsModule/Serialization/XmlFormatter.cs:117-130 | At most one pair per property, in property order; FilterSound and FilterComplete give its members in both directions. |
| XmlFormatter.FilterSound | ModularInputsModule/Serialization/XmlFormatter.cs:117-130 | Every selected pair comes from a gettable, non-script property whose name is in the list, ignoring case. |
| XmlFormatter.FilterComplete | ModularInputsModule/Serialization/XmlFormatter.cs:117-130 | Every gettable, non-script property named in the list is selected. |
| XmlFormatter.FilterEmpty | ModularInputsModule/Serialization/XmlFormatter.cs:117-130 | With no selectable property, nothing is selected. |
| XmlFormatter.LengthIsNotReserved | ModularInputsModule/Serialization/XmlFormatter.cs:83-87 | No reserved name equals `Length` ignoring case, so a string's Length property is never emitted. |
| XmlFormatter.BareStringSelectsOnlyReserved | ModularInputsModule/Serialization/XmlFormatter.cs:83-87 | A bare string with no property list selects only reserved-named properties, and never Length. |
| XmlFormatter.NothingSelected | ModularInputsModule/Serialization/XmlFormatter.cs:83-87 | A bare string without reserved-named properties selects nothing. |
| XmlFormatter.ConvertDictionary | ModularInputsModule/Serialization/XmlFormatter.cs:151-167 | Without a key list, one pair per entry; with one, at most one pair per listed key. |
| XmlFormatter.DictionaryFollowsKeyOrder | ModularInputsModule/Serialization/XmlFormatter.cs:151-167 | With a key list, a dictionary's pairs follow the list's order, whichever comparer the dictionary uses. |
| XmlFormatter.DictionarySound | ModularInputsModule/Serialization/XmlFormatter.cs:151-167 | Each pair taken from a dictionary has a listed key that the dictionary holds under its own comparer (ordinal, or ignoring case as a PowerShell hashtable does), with the dictionary's value for it. Absent keys are skipped. |
| XmlFormatter.DictionaryComplete | ModularInputsModule/Serialization/XmlFormatter.cs:161-164 | Every listed key the dictionary holds gives a pair named as listed, with its value; in a hashtable that ignores case, a key that differs from an entry's only in case finds that entry. |
| XmlFormatter.ConvertPairs | ModularInputsModule/Serialization/XmlFormatter.cs:138-143 | At most one pair per entry, and one for every entry when there is no key list; PairsSound states which. |
| XmlFormatter.PairsSound | ModularInputsModule/Serialization/XmlFormatter.cs:138-143 | Key/value pairs with a key list keep exactly the pairs whose key is listed (exact case). |
| XmlFormatter.DataBlockRoundTrip | ModularInputsModule/Serialization/XmlFormatter.cs:256 | Only the data block is escaped. Decoding it gives back the data lines and content, and no `<`, `>` or quote survives in it. |
| XmlFormatter.EventXml | ModularInputsModule/Serialization/XmlFormatter.cs:76-108 | What ConvertToString returns: the pairs the object's kind selects, formatted and wrapped in `<event>`; EventEnvelope, PlainStringEvent and DataBlockRoundTrip state its shape. |
| XmlFormatter.EventEnvelope | ModularInputsModule/Serialization/XmlFormatter.cs:106-108 | The event is `<event>` (or `<event stanza="…">`, unescaped, for a non-empty stanza), then the body, then `</event>` and a newline. |
| XmlFormatter.PlainStringEvent | ModularInputsModule/Serialization/XmlFormatter.cs:83-108 | A plain string becomes the default time tag and its escaped text as data. |
| XmlFormatter.EmptyBody | ModularInputsModule/Serialization/XmlFormatter.cs:242-252 | With no properties, the body is the default time tag and the escaped content. |
| XmlFormatter.RenderTime | ModularInputsModule/Serialization/XmlFormatter.cs:242-247 | The time tag is written as `<time>…</time>` and a newline. |
| SecurityEscape.Escape | ModularInputsModule/Serialization/XmlFormatter.cs:256 | Escaping never shortens the text; UnescapeEscape, EscapedHasNoMarkup and EscapeIdentity state what it does. |
| SecurityEscape.UnescapeEscape | ModularInputsModule/Serialization/XmlFormatter.cs:256 | Escaping loses nothing: decoding the escaped text gives the original text. |
| SecurityEscape.EscapedHasNoMarkup | ModularInputsModule/Serialization/XmlFormatter.cs:256 | Escaped text contains no `<`, `>`, `"` or `'`, and every `&` in it starts one of `&amp;`, `&lt;`, `&gt;`, `&quot;`, `&apos;`. |
| SecurityEscape.EscapeIdentity | ModularInputsModule/Serialization/XmlFormatter.cs:256 | Text without markup characters is unchanged. |
| LegacyFormat.WriteLog | ModularPowerShell/SplunkXmlFormatter.cs:105-119 | A log call writes one standard-error line: the level name with no lower-case letter (equal to it ignoring case), a space, and the message. |
| LegacyFormat.LevelPrefixes | ModularPowerShell/SplunkXmlFormatter.cs:117 | The line starts with exactly "DEBUG", "INFO", "WARN", "ERROR" or "FATAL", then a space and the message. |
| LegacyFormat.WriteInfo | ModularPowerShell/SplunkXmlFormatter.cs:105-119 | The one-argument overload logs at Info. |
| LegacyFormat.ReadValue | ModularPowerShell/SplunkXmlFormatter.cs:169-181 | A read succeeds exactly for a boxed value whose ToString works. A null value fails with a null reference. |
| LegacyFormat.IndexOf | ModularPowerShell/SplunkXmlFormatter.cs:186 | Array.IndexOf gives the first position of the name, or -1 when it is absent. |
| LegacyFormat.RecognisedAsWritten | ModularPowerShell/SplunkXmlFormatter.cs:186 | The guard as written, `IndexOf(ReservedProperties, name) > 0`; SplunkIndexMissedAsWritten states what it misses. |
| LegacyFormat.Recognised | ModularPowerShell/SplunkXmlFormatter.cs:186 | The evidently intended guard, `>= 0`; RecognisedIsReserved states that it passes exactly the reserved names. |
| LegacyFormat.ReservesOnlyReserved | ModularInputsModule/SplunkXmlFormatter.cs:221 | Either guard passes only reserved names, and the two agree on every name but SplunkIndex. |
| LegacyFormat.RecognisedIsReserved | ModularPowerShell/SplunkXmlFormatter.cs:186 | With the intended `>= 0` guard, a name is treated as metadata exactly when it is reserved. |
| LegacyFormat.SplunkIndexMissedAsWritten | ModularInputsModule/SplunkXmlFormatter.cs:221 | The `> 0` guard as written misses SplunkIndex and agrees with the intended guard on every other name. |
| LegacyFormat.Selected | ModularInputsModule/SplunkXmlFormatter.cs:162-185 | The loop visits exactly the gettable, non-script properties in the name list. |
| LegacyFormat.PropertyLoop | ModularPowerShell/SplunkXmlFormatter.cs:152-230 | The loop builds the tags (most recent first), `<data>` and the data lines under the given guard (both cmdlets pass the guard as written). It reports whether a time was set and returns the error log lines. |
| LegacyFormat.AgreesWithXmlFormatter | ModularInputsModule/SplunkXmlFormatter.cs:187-267 | When every value reads, the older loop emits the same tags, data lines and time flag as the XmlFormatter, and logs nothing: always under the intended guard, and under the guard as written when no property is named SplunkIndex. |
| LegacyFormat.SplunkIndexIsDataAsWritten | ModularInputsModule/SplunkXmlFormatter.cs:221 | As written, a readable SplunkIndex becomes a `SplunkIndex="…"` data line and no tag, unlike XmlFormatter's `<index>` tag; under the intended guard it is that tag and no data line. |
| LegacyFormat.FailuresAreLogged | ModularPowerShell/SplunkXmlFormatter.cs:169-181 | With LogOutputErrors set there is one standard-error line per failed read, and none otherwise. |
| LegacyFormat.FailedReadOutput | ModularPowerShell/SplunkXmlFormatter.cs:183 | A failed read never becomes metadata. With OutputBlanksOnError it gives `name=""`, and otherwise nothing. |
| LegacyFormat.TagsTimeCount | ModularPowerShell/SplunkXmlFormatter.cs:188-209 | Each readable SplunkTime gives one `<time>` tag, and "has time" holds exactly when one exists. |
| LegacyFormat.TimeAlwaysDefined | ModularPowerShell/SplunkXmlFormatter.cs:219-224 | There is exactly one `<time>` tag, the current time and first, when no SplunkTime was read. |
| LegacyFormat.SelectedMatchesFilter | ModularInputsModule/SplunkXmlFormatter.cs:162-185 | The older loop visits the same pairs, in the same order, as the XmlFormatter's property filter selects. |
| LegacyFormat.UnescapedDataLine | ModularPowerShell/SplunkXmlFormatter.cs:213 | The older formatters copy values into data lines without escaping. |
| ModuleXmlFormatter.EventText | ModularInputsModule/SplunkXmlFormatter.cs:162-185 | The event GetData returns, built with the guard as written; GetData, StringContentEndsData and NothingVisited state its contents. |
| ModuleXmlFormatter.KeyValuePairs | ModularInputsModule/SplunkXmlFormatter.cs:187-267 | The buffer holds the metadata (default time first when none was set), then `<data>`, the data lines and a string's content, with the reserved-name guard as written. The log lines are those of the failed reads. |
| ModuleXmlFormatter.GetData | ModularInputsModule/SplunkXmlFormatter.cs:162-185 | GetData returns the event text for the object, stanza and property list, and the log lines of the visited properties. |
| ModuleXmlFormatter.ProcessRecord | ModularInputsModule/SplunkXmlFormatter.cs:102-107 | The record's event is written, with its log lines. |
| ModuleXmlFormatter.WriteOutput | ModularInputsModule/SplunkXmlFormatter.cs:134-153 | For each object: its log lines, then its event on standard output. |
| ModuleXmlFormatter.Events | ModularInputsModule/SplunkXmlFormatter.cs:134-153 | There is one event per object. |
| ModuleXmlFormatter.OneEventPerObject | ModularInputsModule/SplunkXmlFormatter.cs:134-153 | Standard output receives exactly the objects' events, in order. |
| ModuleXmlFormatter.EmptyListMeansAll | ModularInputsModule/SplunkXmlFormatter.cs:166-177 | An empty property list selects as a null one does: every gettable, non-script property. |
| ModuleXmlFormatter.StringContentEndsData | ModularInputsModule/SplunkXmlFormatter.cs:254-257 | A string's text and a newline end the data block, unchanged. |
| ModuleXmlFormatter.NothingVisited | ModularInputsModule/SplunkXmlFormatter.cs:260-265 | With nothing to visit, a non-string object gives the default time and an empty data block. |
| ServiceXmlFormatter.EventText | ModularPowerShell/SplunkXmlFormatter.cs:152-230 | The text GetData returns: a string unchanged, any other object as an event built with the guard as written; AgreesWithModuleFormatter relates it to the cmdlet's. |
| ServiceXmlFormatter.GetData | ModularPowerShell/SplunkXmlFormatter.cs:152-230 | A string is returned as it is, with no logs. Any other object gives its event and the log lines of its failed reads. |
| ServiceXmlFormatter.ProcessRecord | ModularPowerShell/SplunkXmlFormatter.cs:94-99 | The record's event is written, with its log lines. |
| ServiceXmlFormatter.WriteOutput | ModularPowerShell/SplunkXmlFormatter.cs:126-145 | For each object: its log lines, then its text on standard output. |
| ServiceXmlFormatter.Events | ModularPowerShell/SplunkXmlFormatter.cs:126-145 | There is one text per object. |
| ServiceXmlFormatter.OneEventPerObject | ModularPowerShell/SplunkXmlFormatter.cs:126-145 | Standard output receives exactly the objects' texts, in order. |
| ServiceXmlFormatter.AgreesWithModuleFormatter | ModularPowerShell/SplunkXmlFormatter.cs:154-157 | For a non-string object, the service and module formatters give the same event. A string is returned unchanged by the service, while the cmdlet's event ends with the string, a newline and `</data></event>`. |
| Logging.Forwarded | ModularInputsModule/Serialization/ILogger.cs:60-73 | No forwarded object has a null base, and every non-null item with a non-null base is forwarded. |
| Logging.ForwardedAppend | ModularInputsModule/Serialization/ILogger.cs:62-72 | Forwarding follows collection order: the forwarded items of `a + b` are those of `a`, then those of `b`. |
| Logging.ForwardedFromCollection | ModularInputsModule/Serialization/ILogger.cs:60-73 | Nothing is forwarded that the collection does not hold. |
| Logging.ForwardedKeepsNonNull | ModularInputsModule/Serialization/ILogger.cs:60-73 | A collection without nulls is forwarded whole, in order. |
| Logging.WriteOutputs | ModularInputsModule/Serialization/ILogger.cs:60-73 | The per-item WriteOutput runs once per forwarded object, with the same stanza, in order. |
| Logging.BypassCases | ModularInputsModule/Serialization/ConsoleLogger.cs:73-91 | The text is written as it is exactly when the object is a string marked SplunkPreFormatted = true. Otherwise it is serialised. |
| ConsoleLogging.WriteLog | ModularInputsModule/Serialization/ConsoleLogger.cs:36-66 | All and Trace go to the output log at trace level, and the severity levels to the debug log at their level. Off writes nothing, and Output or an unnamed level throws ArgumentOutOfRange. |
| ConsoleLogging.WriteOutput | ModularInputsModule/Serialization/ConsoleLogger.cs:73-91 | Output goes to the output log at trace level: the text itself when pre-formatted, the serialised event otherwise. |
| SplunkLogging.WriteLog | ModularInputsModule/Serialization/SplunkLogger.cs:49-68 | Levels above Output go to standard error as the level name with no lower-case letter (equal to it ignoring case), a space and the message. The others go to standard output. |
| SplunkLogging.NoArgumentsKeepsFormat | ModularInputsModule/Serialization/SplunkLogger.cs:49-68 | Without arguments, the format text is written unchanged. |
| SplunkLogging.WriteOutput | ModularInputsModule/Serialization/SplunkLogger.cs:75-94 | Output is one standard-output line: the text when pre-formatted, the serialised event otherwise. |
| SplunkLogging.OutputsAreOneLineEach | ModularInputsModule/Serialization/SplunkLogger.cs:75-94 | A collection becomes one standard-output line per forwarded object, in order. |
| ObjectLogging.ObjectLogger.constructor | ModularInputsModule/Serialization/ObjectLogger.cs:26-28 | A new logger has an empty cache and an empty log. |
| ObjectLogging.ObjectLogger.Clear | ModularInputsModule/Serialization/ObjectLogger.cs:57-61 | Clear empties both the cache and the log. |
| ObjectLogging.ObjectLogger.WriteLog | ModularInputsModule/Serialization/ObjectLogger.cs:69-74 | WriteLog appends one entry (level, `: `, normalised message, newline) to the log and leaves the cache alone. |
| ObjectLogging.ObjectLogger.WriteOutput | ModularInputsModule/Serialization/ObjectLogger.cs:81-88 | WriteOutput appends the object, unfiltered, to its stanza's list (created when new). A null stanza throws and changes nothing. The log is untouched. |
| ObjectLogging.ObjectLogger.WriteOutputs | ModularInputsModule/Serialization/ILogger.cs:60-73 | The forwarded objects are appended in order to the stanza's list. A null stanza throws at the first store. |
| ObjectLogging.KeepsNoNulls | ModularInputsModule/Serialization/ILogger.cs:64-70 | Through the collection overload, the cache never holds a null. |
| ObjectLogging.StoreIsLocal | ModularInputsModule/Serialization/ObjectLogger.cs:83-87 | A store grows its stanza's list by exactly one and leaves every other stanza's list as it was. |
| ConvertToSplunkEventXml.Marked | ModularInputsModule/Serialization/ConvertToSplunkEventXmlCommand.cs:71-76 | The -AsXml object is the text carrying SplunkPreFormatted = true, so it is pre-formatted. |
| ConvertToSplunkEventXml.Plain | ModularInputsModule/Serialization/ConvertToSplunkEventXmlCommand.cs:77 | The plain object carries no marker. |
| ConvertToSplunkEventXml.ConvertToSplunkEventXmlCommand.BeginProcessing | ModularInputsModule/Serialization/ConvertToSplunkEventXmlCommand.cs:53-60 | A null or empty Stanza takes `$SplunkStanzaName`. A non-empty one is kept. |
| ConvertToSplunkEventXml.ConvertToSplunkEventXmlCommand.ProcessRecord | ModularInputsModule/Serialization/ConvertToSplunkEventXmlCommand.cs:65-81 | Exactly one object is written. With -AsXml it is the marked ConvertToXml text, and otherwise the plain ConvertToString text. |
| ConvertToSplunkEventXml.AsXmlIsNotSerialisedAgain | ModularInputsModule/Serialization/ConvertToSplunkEventXmlCommand.cs:74 | -AsXml output passes through ConsoleLogger.WriteOutput verbatim. |
| ConvertToSplunkEventXml.PlainIsSerialisedAgain | ModularInputsModule/Serialization/ConvertToSplunkEventXmlCommand.cs:77 | Without -AsXml, the logger serialises the string again. |
| PowerShellJobs.OptionsAsWritten | ModularInputsModule/PowerShellJob.cs:89 | `Constant & ReadOnly` is ScopedItemOptions.None: neither read-only nor constant. |
| PowerShellJobs.ReadOnlyOptions | ModularInputsModule/PowerShellJob.cs:89 | `Constant \| ReadOnly` is both read-only and constant. |
| PowerShellJobs.EntryAsWritten | ModularInputsModule/PowerShellJob.cs:84-89 | The variable entry as written keeps name, value and description, and can be overwritten by a script. |
| PowerShellJobs.ReadOnlyEntry | ModularInputsModule/PowerShellJob.cs:84-89 | The intended entry keeps name, value and description, and is read-only and constant. |
| PowerShellJobs.AsWrittenIsNotReadOnly | ModularInputsModule/PowerShellJob.cs:138 | The written entry differs from the intended one, and only in its options. |
| PowerShellJobs.SessionState.constructor | ModularInputsModule/PowerShellJob.cs:80-91 | A session state holds the variables it is given. |
| PowerShellJobs.SessionState.Clone | ModularInputsModule/PowerShellJob.cs:129 | The clone is a fresh state with the same variables. |
| PowerShellJobs.SessionState.AddVariable | ModularInputsModule/PowerShellJob.cs:133-138 | Adding appends the entry and keeps the others. |
| PowerShellJobs.EntriesAsWritten | ModularInputsModule/PowerShellJob.cs:80-91 | There is one entry per tuple, in order, with the tuple's name, value and description, and as written none of them is read-only or constant. |
| PowerShellJobs.AddReadOnlyVariables | ModularInputsModule/PowerShellJob.cs:80-91 | Every tuple is appended to the shared state's variables, in input order, with the options as written (neither read-only nor constant). |
| PowerShellJobs.ErrorLogs | ModularInputsModule/PowerShellJob.cs:197-212 | There is one Error log per error record, in order. |
| PowerShellJobs.ExecuteScript | ModularInputsModule/PowerShellJob.cs:179-219 | The logger calls and outcome are those of the engine's result: output first, then the error logs, or the exception log and a failure. |
| PowerShellJobs.OutputsBeforeErrors | ModularInputsModule/PowerShellJob.cs:189-195 | Outputs reach WriteOutput first and once. Every later call is an Error log, and there is none without errors. |
| PowerShellJobs.ErrorsAreTagged | ModularInputsModule/PowerShellJob.cs:197-212 | Error log i carries the stanza, the script and record i's details. |
| PowerShellJobs.ExceptionLoggedThenRethrown | ModularInputsModule/PowerShellJob.cs:214-218 | An engine exception is logged once and ends in a failure. Nothing reaches WriteOutput. |
| PowerShellJobs.PowerShellJob.constructor | ModularInputsModule/PowerShellJob.cs:80-91 | A job starts with the shared state and no logger. |
| PowerShellJobs.PowerShellJob.SetLogger | ModularInputsModule/PowerShellJob.cs:97-115 | The logger always ends up a ConsoleLogger, whatever the type name. |
| PowerShellJobs.PowerShellJob.Execute | ModularInputsModule/PowerShellJob.cs:123-170 | The shared state is unchanged. A missing script logs one Error and runs nothing. A PSModulePath failure is logged and fails the run. Otherwise the banner and the script's calls follow, with `$SplunkStanzaName` in the run's session. |
| PowerShellJobs.RunSessionHoldsStanzaName | ModularInputsModule/PowerShellJob.cs:129-138 | The run's session is every shared variable, followed by `$SplunkStanzaName` holding the stanza name, which as written is neither read-only nor constant. |
| SplunkXmlHelpers.Matching | ModularPowerShell/SplunkXmlHelpers.cs:36 | The matches are exactly the params whose name attribute equals the name. |
| SplunkXmlHelpers.GetParameterValue | ModularPowerShell/SplunkXmlHelpers.cs:32-42 | If every param is named and exactly one matches, the result is its text. Otherwise it is `""`, and no exception escapes. |
| SplunkXmlHelpers.NonEmptyMeansUniqueMatch | ModularPowerShell/SplunkXmlHelpers.cs:32-42 | A non-empty result is the text of the only param with that name. |
| SplunkXmlHelpers.DuplicateNamesGiveEmpty | ModularPowerShell/SplunkXmlHelpers.cs:36-41 | Two params with the name give `""`, even when their texts agree. |
| SplunkXmlHelpers.MatchingCountsOccurrences | ModularPowerShell/SplunkXmlHelpers.cs:36 | Two occurrences of the name give at least two matches. |
| CommandLine.Classify | ModularPowerShell/ModularPowerShell.cs:147-174 | No arguments reads standard input. Exactly two with `--input` read that file. A first argument of `--scheme` or `--validate_arguments` (ignoring case) selects those. Anything else is usage. |
| CommandLine.ClassifyIgnoresCase | ModularPowerShell/ModularPowerShell.cs:147-174 | Changing the case of the first argument changes nothing. |
| CommandLine.UsageOtherwise | ModularPowerShell/ModularPowerShell.cs:147-174 | Any other non-empty argument list is bad usage. |
| CommandLine.ArgumentExit | ModularPowerShell/Program.cs:43-68 | Exactly the two forms that read input (a file, standard input) go on; the scheme, validation and usage end the process with an exit code. |
| CommandLine.InputRoot | ModularPowerShell/ModularPowerShell.cs:176-190 | An input is found only when the arguments read a document whose root is `<input>`. |
| CommandLine.SetVariables | ModularPowerShell/ModularPowerShell.cs:72-75 | One SetEnvironmentVariable per row; VariablesSet and MissingElementCrashes state the complete and the crashing case. |
| CommandLine.VariablesSet | ModularPowerShell/ModularPowerShell.cs:72-75 | With the elements present, each row sets its environment variable to its element's value, in order. Nothing is written to standard output. |
| CommandLine.MissingElementCrashes | ModularPowerShell/ModularPowerShell.cs:72-75 | A missing element ends the process with a null reference, after the rows before it. |
| ModularPowerShellMain.Start | ModularPowerShell/ModularPowerShell.cs:48-51 | The formatter is configured and then the command line is logged. Nothing ends, and nothing reaches standard output. |
| ModularPowerShellMain.Main | ModularPowerShell/ModularPowerShell.cs:45-115 | Main begins with its start. |
| ModularPowerShellMain.ReadInput | ModularPowerShell/ModularPowerShell.cs:123-194 | ReadInput exits exactly for the argument forms that read no input. It yields a document exactly when an `<input>` root was read, and otherwise throws. Only the scheme reaches standard output. |
| ModularPowerShellMain.ReadArguments | ModularPowerShell/ModularPowerShell.cs:147-174 | The scheme, validation and usage forms end with their exit codes. |
| ModularPowerShellMain.ReadDocument | ModularPowerShell/ModularPowerShell.cs:176-192 | A parsed `<input>` root is returned, and anything else throws. Neither exits. |
| ModularPowerShellMain.Errors | ModularPowerShell/ModularPowerShell.cs:58-68 | Each message becomes one Error log, in order. |
| ModularPowerShellMain.ErrorsThenExit | ModularPowerShell/ModularPowerShell.cs:58-68 | The error logs are followed by the exit, and nothing reaches standard output. |
| ModularPowerShellMain.MainEnds | ModularPowerShell/ModularPowerShell.cs:45-115 | Main's standard output and ending are those of what follows its start. |
| ModularPowerShellMain.ArgumentsHandled | ModularPowerShell/ModularPowerShell.cs:147-174 | The argument forms end with their exit code, and only the scheme is written. |
| ModularPowerShellMain.UnreadableInputExitsFour | ModularPowerShell/ModularPowerShell.cs:53-68 | Input that cannot be read, or whose root is not `<input>`, ends with exit code 4 before any output. |
| ModularPowerShellMain.ThrownRest | ModularPowerShell/ModularPowerShell.cs:53-68 | After a throw, the errors are logged and the process exits with 4. |
| ModularPowerShellMain.InputServed | ModularPowerShell/ModularPowerShell.cs:69-79 | Once `<input>` is read, only log lines precede the environment and stream. |
| ModularPowerShellMain.Candidates | ModularPowerShell/ModularPowerShell.cs:84-96 | There is one candidate per stanza: its name attribute, and its "script" and "schedule" parameters. |
| ModularPowerShellMain.BuildJobs | ModularPowerShell/ModularPowerShell.cs:83-96 | The jobs in document order, or the first exception (a missing name, a rejected schedule, a repeated name); JobsFollowStanzas, JobNamesDistinct and ValidStanzasAreBuilt state its results. |
| ModularPowerShellMain.JobsFollowStanzas | ModularPowerShell/ModularPowerShell.cs:84-96 | Built jobs correspond one to one with the stanzas, in document order. Each job has its stanza's full name, script and a valid schedule. |
| ModularPowerShellMain.JobNamesDistinct | ModularPowerShell/ModularPowerShell.cs:96 | Built jobs have distinct names. |
| ModularPowerShellMain.ValidStanzasAreBuilt | ModularPowerShell/ModularPowerShell.cs:84-98 | Named stanzas with valid schedules and distinct names always build. |
| ModularPowerShellMain.Schedule | ModularPowerShell/ModularPowerShell.cs:83-114 | Scheduling the jobs, or reporting why it failed; ScheduleOutcome states both cases. |
| ModularPowerShellMain.ScheduleOutcome | ModularPowerShell/ModularPowerShell.cs:83-114 | Scheduling writes nothing to standard output. A failure logs "Failed to schedule jobs in Quartz", the exception's message and its inner message when there is one, then exits with 5. Otherwise the jobs are handed over and "Finished InputDefinition" is logged. |
| ModularPowerShellMain.Serve | ModularPowerShell/ModularPowerShell.cs:69-114 | What follows a read input: the environment, then `<stream>` and scheduling; ServeOutcome and MissingSettingCrashes state both cases. |
| ModularPowerShellMain.ServeOutcome | ModularPowerShell/ModularPowerShell.cs:72-98 | With the settings present, `<stream>` is the only standard output, and the run ends as scheduling ends. |
| ModularPowerShellMain.MissingSettingCrashes | ModularPowerShell/ModularPowerShell.cs:72-75 | A missing setting is a null reference that ends the process before `<stream>`. |
| ModularPowerShellMain.StreamThenSchedule | ModularPowerShell/ModularPowerShell.cs:79-114 | Standard output is `<stream>` alone. Then the jobs are scheduled and the process goes on, or it exits with 5. |
| PowerShellMain.Start | ModularPowerShell/PowerShell.cs:44-49 | The command-line line goes to standard error, then the formatter is configured and the console logger set. Nothing ends. |
| PowerShellMain.Main | ModularPowerShell/PowerShell.cs:41-101 | The flags and the logger are set before any argument handling. |
| PowerShellMain.Arguments | ModularPowerShell/PowerShell.cs:53-79 | The scheme exits with 0, validation with 1 and usage with 2. Errors carry "ERROR: ". |
| PowerShellMain.Document | ModularPowerShell/PowerShell.cs:82-100 | A load failure is not caught. A non-`<input>` root exits with 6 after an "ERROR: " line. Otherwise the scheduler starts. |
| PowerShellMain.MainEnds | ModularPowerShell/PowerShell.cs:41-101 | Main's output and ending are those of the arguments or the document. |
| PowerShellMain.ArgumentsHandled | ModularPowerShell/PowerShell.cs:53-79 | The argument forms end with their exit codes, and errors are prefixed "ERROR: ". |
| PowerShellMain.LoadFailureCrashes | ModularPowerShell/PowerShell.cs:53-79 | A document that cannot be loaded ends with an uncaught exception. |
| PowerShellMain.NotInputExitsSix | ModularPowerShell/PowerShell.cs:82-96 | A root other than `<input>` exits with 6 after an "ERROR: " line. |
| PowerShellMain.InputStartsScheduler | ModularPowerShell/PowerShell.cs:98-100 | With an `<input>` root, the scheduler starts with it, and nothing has ended or been written to standard output. |
| ProgramMain.FindScript | ModularPowerShell/Program.cs:156 | The script is the first param named "script". None means every param is named otherwise, and a nameless param reached first throws. |
| ProgramMain.NonNull | ModularPowerShell/Program.cs:164 | These are the outputs before the first null. |
| ProgramMain.ErrorLogs | ModularPowerShell/Program.cs:167-184 | Each error gives two Error lines: the script and details, then the category line. |
| ProgramMain.Invoke | ModularPowerShell/Program.cs:149-190 | A stanza's run is well ended: an exception is its last effect. |
| ProgramMain.Script | ModularPowerShell/Program.cs:160-184 | A script run is well ended. |
| ProgramMain.InvokeStanza | ModularPowerShell/Program.cs:149-190 | The method does what Invoke specifies. |
| ProgramMain.ReportErrors | ModularPowerShell/Program.cs:167-184 | The loop reports the two lines per error, in order. |
| ProgramMain.Stanzas | ModularPowerShell/Program.cs:129-132 | Stanzas run in turn until an exception escapes. |
| ProgramMain.CrashStops | ModularPowerShell/Program.cs:129-132 | Once a stanza crashes, the later stanzas never run. |
| ProgramMain.RunStanzas | ModularPowerShell/Program.cs:129-132 | The foreach does what Stanzas specifies. |
| ProgramMain.Main | ModularPowerShell/Program.cs:37-141 | Main first logs its command line. |
| ProgramMain.Arguments | ModularPowerShell/Program.cs:43-68 | The argument forms exit with 0, 1 or 2, and only the scheme is written. |
| ProgramMain.Run | ModularPowerShell/Program.cs:37-141 | The method's effects are Main's. |
| ProgramMain.MainEnds | ModularPowerShell/Program.cs:37-141 | Main's output and ending are those of what follows its first log line. |
| ProgramMain.ArgumentsHandled | ModularPowerShell/Program.cs:43-68 | The argument forms end with their exit code. |
| ProgramMain.LoadFailureCrashes | ModularPowerShell/Program.cs:43-68 | A document that cannot be loaded is an uncaught exception. |
| ProgramMain.ParsedEnds | ModularPowerShell/Program.cs:70-105 | Once the document is parsed, only log lines come before the input check. |
| ProgramMain.NotInputCrashes | ModularPowerShell/Program.cs:92-105 | A root other than `<input>` throws InvalidDataException, uncaught. |
| ProgramMain.InputEnds | ModularPowerShell/Program.cs:107-113 | With an `<input>` root, only log lines come before the settings. |
| ProgramMain.MissingSettingCrashes | ModularPowerShell/Program.cs:110-113 | A missing setting is a null reference before `<stream>`. |
| ProgramMain.Stream | ModularPowerShell/Program.cs:122-140 | The informational lines, `<stream>`, the stanzas and, unless one crashed, `</stream>`; StreamClosed and StanzaCrashLeavesStreamOpen state both cases. |
| ProgramMain.StreamEnds | ModularPowerShell/Program.cs:117-135 | With the settings present, output and ending are `<stream>` and the stanzas' body. |
| ProgramMain.StreamClosed | ModularPowerShell/Program.cs:127-140 | When every stanza has run, standard output is `<stream>`, what the stanzas wrote, then `</stream>`, and the exit code is 0. |
| ProgramMain.StanzaCrashLeavesStreamOpen | ModularPowerShell/Program.cs:127-135 | An escaping exception ends the process: later stanzas never run and `</stream>` is never written. |
| ProgramMain.StanzasInOrder | ModularPowerShell/Program.cs:129-132 | Each stanza's output follows that of the stanzas before it. |
| ProgramMain.StanzaWithoutScript | ModularPowerShell/Program.cs:186-189 | A nameless stanza or param throws. A stanza without a script only logs "Missing 'script' parameter.". Neither writes output. |
| ProgramMain.ScriptOutput | ModularPowerShell/Program.cs:160-184 | There is one event per output before the first null, and a null throws. Otherwise each error's two lines come last. |
| ProgramMain.NullOutputThrows | ModularPowerShell/Program.cs:164 | A null output throws after the events before it. |
| ProgramMain.StanzaEvents | ModularPowerShell/Program.cs:164 | A stanza's events carry its full name as the stanza. |
| ProgramMain.StanzaThrowsOnNull | ModularPowerShell/Program.cs:164 | A stanza throws exactly when its script produced a null output. |

## Left out

- Console, file and environment I/O, and `Environment.Exit`. They are `Effect` values; the process is not run.
- The PowerShell engine (`PowerShell.Create`, `Invoke`, `HadErrors`, `Streams.Error`). It is a function parameter from variables and command to outputs, errors or an exception.
- Quartz scheduling and cron parsing. The cron check is a function parameter, and so is `ScheduleJobs`. `scheduler.Start` (ModularPowerShell.cs:81-82) and the `[DisallowConcurrentExecution]` attribute concern concurrency and are not modelled.
- The clock, `DateTimeOffset` casts and `TryParse`, and the floating-point epoch seconds and their culture formatting. They are fields of `Runtime`.
- `XmlFormatter.ConvertToXml`, the three-argument `ConvertToString` overload, `BaseLogger.Trim` and the settings object are not part of this model; they, and `string.Format`, are function parameters.
- The LogLevel enumeration is not part of this model, so its numeric order is unknown: SplunkLogger's `level > LogLevel.Output` takes a rank function.
- Unity dependency injection and `Type.GetType` in SetLogger are reduced to a type-exists predicate. Their effect is overwritten anyway.
- Culture-sensitive `ToLower`/`ToUpper` and case-insensitive comparison cover ASCII letters only. This includes the comparer of a PowerShell hashtable reaching the XmlFormatter, which is modelled as ordinal or ASCII-case-insensitive.
- Common.Logging's backends: ConsoleLogger's output is the log entry it would emit.
- The `Debug.WriteLine` in SplunkLogger.
- The WriteScheme documents are an opaque `host.scheme` string.
- The commented-out runspace pool.
- The unreachable catch blocks (PowerShell.cs:92-96, Program.cs:93-100, ModularPowerShell.cs:178-185). The code they guard cannot throw in the model.
- ModularPowerShellMain.JobsOf: the query reads every stanza before building jobs. The source interleaves the two, which gives the same result because reading a stanza cannot fail.
- ProgramMain: `SplunkXmlFormatter.Write`, which Program.cs calls, is not defined in the formatter file. It is modelled as WriteLog.
- PowerShellMain: the scheduler started by PowerShell.cs is not part of this model.
- NullLogger, Event.cs, PowerShellInvoker.cs and ModularPowerShell/PowerShellJob.cs (a thin wrapper mirroring Program.cs's InvokeStanza) are not part of this model.

## Findings

| source | as written | input that shows it | evidently intended | confidence | as-written member | corrected member |
|---|---|---|---|---|---|---|
| ModularInputsModule/PowerShellJob.cs:89 | `ScopedItemOptions.Constant & ScopedItemOptions.ReadOnly` (also at line 138) is ScopedItemOptions.None | any variable passed to AddReadOnlyVariables, and `$SplunkStanzaName`: a script can overwrite them | `Constant \| ReadOnly` | high; not executed | PowerShellJobs.RunSessionHoldsStanzaName | PowerShellJobs.ReadOnlyEntry |
| ModularPowerShell/SplunkXmlFormatter.cs:186 | `Array.IndexOf(ReservedProperties, name) > 0` (also ModularInputsModule/SplunkXmlFormatter.cs:221) | a property named SplunkIndex (position 0) becomes a data line instead of an `<index>` tag | `>= 0` | high; not executed | LegacyFormat.SplunkIndexIsDataAsWritten | LegacyFormat.AgreesWithXmlFormatter |
