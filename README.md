# NServiceBus ETW logging adapter — a Dafny model

This project models the core of an adapter that sends NServiceBus log calls
to Event Tracing for Windows (ETW) through .NET `EventSource`s:

- **EventSourceManifest** reads an event source's own instrumentation
  manifest. It returns the provider name, a keyword table (keyword name to
  mask) and an `EventAttribute` (id, level, channel, keywords) for each
  event symbol. The three values are computed lazily and cached.
- **EventSourceLoggerBase** is the configurable façade. Its ten events are
  Debug, Info, Warn, Error and Fatal, each plain and with an exception. Each
  starts from a hard-coded descriptor (ids 1001 to 1010, no keywords, no
  channel, unconfigured). The constructor reads the manifest and overwrites
  the descriptor of every event whose symbol is one of the ten method names.
  Each level has four call shapes: plain, with an exception object, with a
  composite format, and with pre-split exception strings. Each shape is
  gated by the level flag, which is the OR of the plain and exception
  events' enablement.
- **EventLogEventSource** is the self-contained "NServiceBus" source with
  fixed ids: 2 to 6 for plain events and 12 to 16 for exception events. Its
  level flags query all keywords on the Debug channel (Debug) or the
  Operational channel (the other levels).
- **Logger** is the NServiceBus `ILog` adapter. It gives a null or blank
  logger name the value "Default" and forwards every call to the façade.
- **GetKeywordStrings**, from the example listener, turns an event's keyword
  mask into the names of the example keywords whose bits are all set.

How the model is laid out:

- `wrappers.dfy`: `Option` and `Result`.
- `primitives.dfy`: the .NET string and number routines the reader relies
  on: `string.IsNullOrWhiteSpace`, `Split`, `int.TryParse`, `byte.TryParse`
  and `Convert.ToInt64(s, 16)`.
- `tracing.dfy`: levels, channels and keyword masks. A 64-bit
  `EventKeywords` value is the set of its set bit positions.
- `manifest_document.dfy`: the parsed manifest, the reader's errors, and
  the behaviour of `Dictionary.Add`.
- `manifest.dfy`: the reader. It holds specification functions of the
  parsed document and the `EventSourceManifest` class, whose loops and
  cache fields are proved equal to those functions.
- `routing.dfy`: what each call shape appends to the ETW stream, shared by
  both façades.
- `logger_base.dfy`, `event_log.dfy`, `logger.dfy`: the two façades and the
  logger. Each façade keeps a ghost `trace` of the records it hands to
  `WriteEventCore`.
- `listener.dfy`: `GetKeywordStrings`.
- `manifest_examples.dfy`: the manifest of the keyword test event source
  and what the reader makes of it.

Behaviour of the code that is easy to misread, and that the model follows:

- Two accepted events with the same symbol make reading the manifest throw,
  because `Dictionary.Add` throws. The later event does not overwrite the
  earlier one.
- Negative event ids are accepted. Only 0 and text that does not parse as
  an Int32 are skipped.
- A keyword mask that cannot be converted, or a duplicate keyword name, only
  surfaces when an accepted event with a non-blank keywords attribute forces
  the keyword table.
- A plain call is gated by the level flag, not by its own event. When only
  the exception event of a level is configured and subscribed, a plain call
  still writes, under the plain event's default id (`PlainWritesUnderDefaultId`).
- The keyword mask read from the manifest is the signed Int64 value of
  `Convert.ToInt64`. A mask with the top bit set is negative, so that keyword
  is dropped silently (`HighBitMaskDropped`).
- The façade constructor does not catch the reader's exceptions. They
  propagate out of `Create`.

## Model

| member | source | states |
|---|---|---|
| Primitives.IsNullOrWhiteSpace | src/NSBETW.Shared/EventSourceManifest.cs:141 | a null or empty string is blank, and a string whose first character is not white space is not |
| Primitives.Split | src/NSBETW.Shared/EventSourceManifest.cs:148 | `string.Split(' ')` yields at least one piece, and no piece holds the separator |
| Primitives.JoinSplit | src/NSBETW.Shared/EventSourceManifest.cs:148 | joining the pieces with the separator rebuilds the string, so splitting loses nothing |
| Primitives.SplitJoin | src/NSBETW.Shared/EventSourceManifest.cs:148 | splitting a join of separator-free pieces gives the pieces back |
| Primitives.SplitWithoutSeparator | src/NSBETW.Shared/EventSourceManifest.cs:148 | a string without the separator splits into itself alone |
| Primitives.SkipLeadingWhite | src/NSBETW.Shared/EventSourceManifest.cs:190 | the result is a suffix of the text that does not start with number white space |
| Primitives.SkipTrailingWhite | src/NSBETW.Shared/EventSourceManifest.cs:190 | the result is a prefix of the text that does not end with number white space |
| Primitives.ParseInteger | src/NSBETW.Shared/EventSourceManifest.cs:189-193 | an accepted number lies in the target type's range |
| Primitives.TryParseInt32 | src/NSBETW.Shared/EventSourceManifest.cs:189-193 | `int.TryParse` succeeds only with a 32-bit signed value |
| Primitives.TryParseByte | src/NSBETW.Shared/EventSourceManifest.cs:207-211 | `byte.TryParse` succeeds only with a value in 0..255 |
| Primitives.DecimalDigits | src/NSBETW.Shared/EventSourceManifest.cs:189-193 | the decimal rendering of a number is a non-empty digit string |
| Primitives.DecimalDigitsValue | src/NSBETW.Shared/EventSourceManifest.cs:189-193 | the digit string's value is the number: rendering and reading are inverse |
| Primitives.ParseDecimalText | src/NSBETW.Shared/EventSourceManifest.cs:189-193 | parsing the decimal text of any in-range value (every Int32 for `int.TryParse`) gives the value back |
| Primitives.HexDigitValue | src/NSBETW.Shared/EventSourceManifest.cs:279 | a hexadecimal digit's value is below 16 |
| Primitives.HexPrefix | src/NSBETW.Shared/EventSourceManifest.cs:277-280 | the digits the conversion reads: the longest run of hex digits at the start, the whole text when it is all hex digits |
| Primitives.HexToInt64 | src/NSBETW.Shared/EventSourceManifest.cs:277-280 | `Convert.ToInt64(mask, 16)` reads the run of hex digits first: no digit is a FormatException, a run worth 2^64 or more an OverflowException, and anything after a run that fits a FormatException; a result is an Int64, positive exactly when the digits' value is in 1 .. 2^63-1 |
| Primitives.HexPrefixBeforeJunk | src/NSBETW.Shared/EventSourceManifest.cs:277-280 | a run of hex digits followed by a non-digit is exactly the run the conversion reads |
| Primitives.OverflowBeforeJunk | src/NSBETW.Shared/EventSourceManifest.cs:277-280 | a digit run too large for 64 bits throws OverflowException whatever follows it, as in `0x11111111111111111z` |
| Primitives.HexDigitChar | src/NSBETW.Shared/EventSourceManifest.cs:279 | the digit character rendered for d reads back as d |
| Primitives.HexDigits | src/NSBETW.Shared/EventSourceManifest.cs:279 | the hexadecimal rendering of a number is a non-empty hex-digit string |
| Primitives.HexDigitsValue | src/NSBETW.Shared/EventSourceManifest.cs:279 | the hex string's value is the number |
| Primitives.HexRoundTrip | src/NSBETW.Shared/EventSourceManifest.cs:277-280 | converting the hex rendering of a 64-bit pattern gives the pattern read as a two's-complement Int64 |
| Tracing.MaskBits | src/NSBETW.Shared/EventSourceManifest.cs:285 | the keywords of the cast `(EventKeywords)mask` are exactly the set bits of the mask |
| Tracing.ZeroHasNoBit | src/NSBETW.Shared/EventSourceManifest.cs:139 | the mask 0 (`EventKeywords.None`) has no bit set |
| Tracing.Pow2Bits | src/Tests/NSBETW.UnitTests.Shared/EventSources/KeywordsEventSource.cs:92-107 | bit c of 2^b is set exactly when c is b |
| Tracing.MaskBitsSingle | src/Tests/NSBETW.UnitTests.Shared/EventSources/KeywordsEventSource.cs:92-107 | a single-bit keyword constant 2^b is the one-bit set {b} |
| Tracing.NewEventAttribute | src/NSBETW.Shared/EventSourceManifest.cs:200 | `new EventAttribute(id)` has that id, level Informational, channel None and no keywords |
| Tracing.OrEmpty | src/NSBETW.Shared/EventSourceLoggerBase.cs:830-853 | a null argument is written as the empty string; any other is written unchanged |
| Tracing.NullAsEmpty | src/NSBETW.Shared/EventSourceLoggerBase.cs:830-853 | the null-to-empty step of the five-string write gives the text OrEmpty specifies |
| Tracing.Utf16Length | src/NSBETW.Shared/EventSourceLoggerBase.cs:867-875 | `string.Length` counts UTF-16 code units: at least one and at most two per character |
| Tracing.Utf16LengthBmp | src/NSBETW.Shared/EventSourceLoggerBase.cs:867-875 | the UTF-16 length equals the character count exactly when no character is outside the Basic Multilingual Plane |
| Tracing.Field | src/NSBETW.Shared/EventSourceLoggerBase.cs:855-875 | each EventData holds the argument's text (null as "") and is sized (Length + 1) * 2 bytes, with Length in UTF-16 code units, so between 2 * chars + 2 and 4 * chars + 2 |
| Tracing.SurrogatePairField | src/NSBETW.Shared/EventSourceLoggerBase.cs:867-875 | a supplementary character such as U+1F600 counts as a surrogate pair: the field is sized 6 bytes |
| Tracing.Payload | src/NSBETW.Shared/EventSourceLoggerBase.cs:865-876 | the payload has one EventData per argument, in order |
| ManifestDocument.AddAllContents | src/NSBETW.Shared/EventSourceManifest.cs:219 | a dictionary filled with `Add` holds every added entry under its key, and nothing else |
| ManifestDocument.AddAllSucceeds | src/NSBETW.Shared/EventSourceManifest.cs:219 | filling succeeds exactly when every entry could be computed and no two added entries share a key |
| ManifestDocument.AddAllStep | src/NSBETW.Shared/EventSourceManifest.cs:182-220 | one more loop iteration is one more `Add` |
| ManifestDocument.AddAllNext | src/NSBETW.Shared/EventSourceManifest.cs:182-220 | an `Add` that throws ends the loop with its exception, and one that succeeds is the dictionary after one more candidate |
| ManifestDocument.AddCandidate | src/NSBETW.Shared/EventSourceManifest.cs:219 | a skipped element adds nothing, an exception propagates, and `Dictionary.Add` throws on a key already present |
| ManifestDocument.AddAllFailureStops | src/NSBETW.Shared/EventSourceManifest.cs:182-220 | after the first exception no later element is looked at |
| Manifest.GetLevel | src/NSBETW.Shared/EventSourceManifest.cs:116-135 | each of the six `win:` level tokens reads as its own level, and any other text reads as Informational |
| Manifest.LevelTokenNotBlank | src/NSBETW.Shared/EventSourceManifest.cs:202-205 | every level token begins with `win:`, so a written level is never skipped as blank |
| Manifest.NonBlank | src/NSBETW.Shared/EventSourceManifest.cs:148 | filtering out blank pieces never adds pieces |
| Manifest.KeywordTokens | src/NSBETW.Shared/EventSourceManifest.cs:148 | the keyword names of an attribute are at most one per space-separated piece, and none is blank |
| Manifest.NonBlankKeepsTokens | src/NSBETW.Shared/EventSourceManifest.cs:148 | a piece survives the filter exactly when it is not blank |
| Manifest.KeywordTokensAreWords | src/NSBETW.Shared/EventSourceManifest.cs:148 | the tokens are exactly the non-blank space-separated words of the attribute; none holds a space; the words rebuild the attribute |
| Manifest.OrKnown | src/NSBETW.Shared/EventSourceManifest.cs:150-157 | tokens none of which is in the keyword table give `EventKeywords.None` |
| Manifest.OrKnownCoversHits | src/NSBETW.Shared/EventSourceManifest.cs:150-157 | the result holds the mask of every token found in the keyword table |
| Manifest.OrKnownOnlyHits | src/NSBETW.Shared/EventSourceManifest.cs:150-157 | every bit of the result comes from a token found in the table, so unknown tokens add nothing |
| Manifest.NonBlankStep | src/NSBETW.Shared/EventSourceManifest.cs:148 | one more piece extends the filtered tokens by that piece exactly when it is not blank |
| Manifest.OrKnownStep | src/NSBETW.Shared/EventSourceManifest.cs:150-157 | one more token ORs in its table mask when it is known and nothing otherwise |
| Manifest.OrKnownTokensStep | src/NSBETW.Shared/EventSourceManifest.cs:150-157 | one more space-separated piece ORs in its mask when it is a known, non-blank token, and changes nothing otherwise |
| Manifest.ParseKeywordsSpec | src/NSBETW.Shared/EventSourceManifest.cs:137-160 | a null or blank attribute is `EventKeywords.None` without forcing the keyword table; otherwise parsing throws exactly when building the keyword table throws, with its exception |
| Manifest.ScanAttribute | src/NSBETW.Shared/EventSourceManifest.cs:264-281 | one attribute keeps the mask an Int64, and only ever sets a non-blank name |
| Manifest.ScanAttributes | src/NSBETW.Shared/EventSourceManifest.cs:261-281 | the mask after the attribute loop is an Int64 |
| Manifest.ScanFailureStops | src/NSBETW.Shared/EventSourceManifest.cs:264-281 | a mask conversion that throws ends the attribute loop |
| Manifest.KeywordCandidate | src/NSBETW.Shared/EventSourceManifest.cs:283-286 | a keyword element is added exactly when its attributes scan, its name is non-blank and its mask is positive; the added name is never blank |
| Manifest.KeywordCandidates | src/NSBETW.Shared/EventSourceManifest.cs:252-287 | the element loop looks at every keyword element in document order |
| Manifest.KeywordDeclarationAccepted | src/NSBETW.Shared/EventSourceManifest.cs:264-286 | a declared keyword with a non-blank name and a mask in 1 .. 2^63-1 enters the table with exactly that mask |
| Manifest.HighBitMaskDropped | src/NSBETW.Shared/EventSourceManifest.cs:279-286 | a mask with the top bit set is negative as an Int64, so its keyword is dropped without an error |
| Manifest.ProviderNameOf | src/NSBETW.Shared/EventSourceManifest.cs:225-236 | the provider name is the first provider's name attribute and is non-blank; a missing or blank name throws InvalidOperationException |
| Manifest.FirstProviderName | src/NSBETW.Shared/EventSourceManifest.cs:228 | the provider name is missing exactly when no provider element has one, and otherwise is the name of the first provider element that has one |
| Manifest.KeywordTableOf | src/NSBETW.Shared/EventSourceManifest.cs:238-290 | the keyword table exists only for a readable provider name without an apostrophe; a name with an apostrophe makes the query throw; every name in the table is non-blank |
| Manifest.KeysNonBlank | src/NSBETW.Shared/EventSourceManifest.cs:219 | a dictionary filled from entries with non-blank keys has only non-blank keys |
| Manifest.KeywordTableEntries | src/NSBETW.Shared/EventSourceManifest.cs:238-290 | the keyword table holds the entry of every accepted keyword element of the provider, and every entry it holds comes from such an element with that element's mask |
| Manifest.KeywordTableFailsIff | src/NSBETW.Shared/EventSourceManifest.cs:238-290 | building the keyword table throws exactly when the provider name holds an apostrophe, a mask cannot be converted, or two accepted keywords share a name |
| Manifest.AcceptedEventId | src/NSBETW.Shared/EventSourceManifest.cs:184-198 | an event element is recorded exactly when its value and symbol are non-blank and the value parses as a non-zero Int32; its id is that value |
| Manifest.BuildEventAttribute | src/NSBETW.Shared/EventSourceManifest.cs:200-217 | the recorded id is the parsed value; the level is read from a non-blank level attribute and is Informational otherwise; the channel is a byte-parsable channel and None otherwise; the keywords are the parsed keywords |
| Manifest.EventCandidate | src/NSBETW.Shared/EventSourceManifest.cs:184-219 | an element is skipped exactly when it is not accepted; a recorded element is added under its own symbol with its own id |
| Manifest.EventCandidates | src/NSBETW.Shared/EventSourceManifest.cs:182-220 | the event loop looks at every event element in document order |
| Manifest.EventAttributesOf | src/NSBETW.Shared/EventSourceManifest.cs:162-223 | the event table exists only for a readable provider name without an apostrophe; a name with an apostrophe makes the query throw; every symbol in the table is non-blank |
| Manifest.RecordedEvents | src/NSBETW.Shared/EventSourceManifest.cs:162-223 | the recorded symbols are exactly those of the accepted events of the provider, each with the id parsed from its own element |
| Manifest.RecordedEventFields | src/NSBETW.Shared/EventSourceManifest.cs:200-219 | each recorded attribute carries the level, channel and keywords read from its own element |
| Manifest.EventCandidatesComputedIff | src/NSBETW.Shared/EventSourceManifest.cs:213 | an event's entry cannot be computed exactly when it is accepted, has keywords, and the keyword table throws |
| Manifest.EventAttributesFailIff | src/NSBETW.Shared/EventSourceManifest.cs:162-223 | reading the events throws exactly when the provider name holds an apostrophe, two accepted events share a symbol, or an accepted event with keywords forces a keyword table that throws |
| Manifest.DuplicateSymbolThrows | src/NSBETW.Shared/EventSourceManifest.cs:219 | two accepted events with the same symbol make the read throw; the later one never overwrites the earlier |
| Manifest.LoadDocument | src/NSBETW.Shared/EventSourceManifest.cs:76-86 | construction fails exactly for null or white-space text (ArgumentNullException) or text that does not parse (XmlException) |
| Manifest.EventSourceManifest.FromDocument | src/NSBETW.Shared/EventSourceManifest.cs:103-107 | a new reader holds the document and has computed none of its three lazy values |
| Manifest.EventSourceManifest.Load | src/NSBETW.Shared/EventSourceManifest.cs:76-108 | the constructor throws the guard's exception, and otherwise holds the parsed document with an empty cache |
| Manifest.EventSourceManifest.EventAttributes | src/NSBETW.Shared/EventSourceManifest.cs:114 | the property returns the specified event dictionary (or its exception) and caches it |
| Manifest.EventSourceManifest.EventProviderName | src/NSBETW.Shared/EventSourceManifest.cs:107 | the lazy provider name is the specified name (or its exception), cached; the other caches are unchanged |
| Manifest.EventSourceManifest.KeywordTable | src/NSBETW.Shared/EventSourceManifest.cs:105 | the lazy keyword table is the specified table (or its exception), cached; the event cache is unchanged |
| Manifest.EventSourceManifest.RetrieveEventProviderName | src/NSBETW.Shared/EventSourceManifest.cs:225-236 | the method computes the specified provider name or throws InvalidOperationException |
| Manifest.EventSourceManifest.RetrieveKeywords | src/NSBETW.Shared/EventSourceManifest.cs:238-290 | the method computes the specified keyword table of the provider |
| Manifest.EventSourceManifest.AddKeywords | src/NSBETW.Shared/EventSourceManifest.cs:252-287 | the element loop adds each accepted keyword in order with `Dictionary.Add` |
| Manifest.EventSourceManifest.ScanKeywordAttributes | src/NSBETW.Shared/EventSourceManifest.cs:261-281 | the attribute loop computes the specified name and mask, or the conversion's exception |
| Manifest.EventSourceManifest.ParseKeywords | src/NSBETW.Shared/EventSourceManifest.cs:137-160 | the keywords are None for a blank attribute; otherwise the table is forced (its exception propagates) and the result is the OR of the known tokens' masks |
| Manifest.EventSourceManifest.OrKeywordTokens | src/NSBETW.Shared/EventSourceManifest.cs:148-157 | the token loop ORs in the mask of every non-blank token found in the table |
| Manifest.EventSourceManifest.ReadEvent | src/NSBETW.Shared/EventSourceManifest.cs:184-219 | one event-loop iteration skips the element, throws the keyword table's exception, or yields the symbol and its attribute |
| Manifest.EventSourceManifest.RetrieveEventAttributes | src/NSBETW.Shared/EventSourceManifest.cs:162-223 | the method computes the specified event dictionary of the provider |
| Manifest.EventSourceManifest.AddEvents | src/NSBETW.Shared/EventSourceManifest.cs:180-222 | the loop over the provider's event elements builds the specified dictionary, or stops at the first duplicate symbol or keyword-table error |
| Routing.Write | src/NSBETW.Shared/EventSourceLoggerBase.cs:817-882 | a write yields one record exactly when the source is enabled; the record has the event id and one field per argument (null as ""), each sized (UTF-16 Length + 1) * 2 |
| Routing.PlainEvents | src/NSBETW.Shared/EventSourceLoggerBase.cs:225-231 | a plain call writes at most one record, exactly when the level flag and the source are on, with the plain id and the logger and message as its two fields |
| Routing.ExceptionEvents | src/NSBETW.Shared/EventSourceLoggerBase.cs:303-320 | a pre-split exception call writes at most one record, exactly when the level flag and the source are on, with the exception id and the five strings as fields |
| Routing.WithExceptionEvents | src/NSBETW.Shared/EventSourceLoggerBase.cs:240-260 | a null exception is exactly the plain call; otherwise one record, only when enabled, under the exception id whose last three fields are the exception's type name, message and text |
| Routing.FormatEvents | src/NSBETW.Shared/EventSourceLoggerBase.cs:271-292 | a format call writes at most one record, only when enabled and the format is non-null; null arguments write the format verbatim on the configurable façade and nothing on the fixed-id one |
| Routing.WritesIffLevelEnabled | src/NSBETW.Shared/EventSourceLoggerBase.cs:225-320 | when the level flag implies the source is on, each call shape writes a record exactly when the level flag is on |
| Routing.SilentWhenDisabled | src/NSBETW.Shared/EventSourceLoggerBase.cs:225-320 | a disabled level, or a source no session listens to, writes nothing through any of the four shapes |
| Routing.ExceptionEventShape | src/NSBETW.Shared/EventSourceLoggerBase.cs:251-259 | with an exception, the call writes the exception event with the logger, the message, and the exception's type name, message and text |
| Routing.FormatSuccess | src/NSBETW.Shared/EventSourceLoggerBase.cs:284-287 | a format that `string.Format` accepts writes the formatted text as the plain event's message, sized (UTF-16 Length + 1) * 2 |
| Routing.FormatFailureFallback | src/NSBETW.Shared/EventSourceLoggerBase.cs:288-291 | a format that `string.Format` rejects writes the exception event whose message is the invalid-format prefix and the format, with the logger as first field and the FormatException's fields after it (the whole event is stated) |
| Routing.AllShapesWellFormed | src/NSBETW.Shared/EventSourceLoggerBase.cs:225-320 | every record any shape writes carries the level's plain id with two fields or its exception id with five, each field sized (UTF-16 Length + 1) * 2 |
| LoggerBase.KindOfSymbolIff | src/NSBETW.Shared/EventSourceLoggerBase.cs:732-804 | the switch recognises exactly the ten method names, each as its own event |
| LoggerBase.KindOfSymbol | src/NSBETW.Shared/EventSourceLoggerBase.cs:732-804 | a recognised symbol is the method name of the event it selects |
| LoggerBase.KindNameRecognised | src/NSBETW.Shared/EventSourceLoggerBase.cs:732-804 | every event's method name selects that event |
| LoggerBase.DefaultDescriptor | src/NSBETW.Shared/EventSourceLoggerBase.cs:49-99 | every event starts unconfigured, on no channel and without keywords |
| LoggerBase.DefaultIdsDistinct | src/NSBETW.Shared/EventSourceLoggerBase.cs:61-95 | the ten default ids are distinct, lie in 1001..1010, and each exception id follows its plain id |
| LoggerBase.Configured | src/NSBETW.Shared/EventSourceLoggerBase.cs:735-739 | a configured event takes the manifest entry's id, level, keywords and channel and is marked configured |
| LoggerBase.ResolvedDescriptor | src/NSBETW.Shared/EventSourceLoggerBase.cs:104-123 | after construction an event is configured exactly when the manifest has its method name; it then has the manifest entry's id, level, keywords and channel, and its default otherwise |
| LoggerBase.LevelRoute | src/NSBETW.Shared/EventSourceLoggerBase.cs:128-217 | a level is enabled exactly when its plain or its exception event is configured and subscribed; an unconfigured level is never enabled |
| LoggerBase.PlainWritesUnderDefaultId | src/NSBETW.Shared/EventSourceLoggerBase.cs:225-231 | with only the exception event configured and subscribed, a plain call still writes, under the plain event's default id |
| LoggerBase.EventSourceLoggerBase.IsEventEnabled | src/NSBETW.Shared/EventSourceLoggerBase.cs:128-204 | an event is enabled only when it is configured and the source is on |
| LoggerBase.EventSourceLoggerBase.IsLevelEnabled | src/NSBETW.Shared/EventSourceLoggerBase.cs:128-217 | a level is enabled only while the source is on and only when its plain or its exception event is configured |
| LoggerBase.EventSourceLoggerBase.WithDefaults | src/NSBETW.Shared/EventSourceLoggerBase.cs:49-99 | the field initialisers give every event its default descriptor, with nothing written |
| LoggerBase.EventSourceLoggerBase.Create | src/NSBETW.Shared/EventSourceLoggerBase.cs:104-123 | without a manifest every event keeps its default; otherwise construction succeeds exactly when the manifest can be read, a failure carries the load error or else the event-reading error, and every event then has its resolved descriptor |
| LoggerBase.EventSourceLoggerBase.SetEventDefinition | src/NSBETW.Shared/EventSourceLoggerBase.cs:727-805 | a symbol naming one of the ten methods overwrites exactly that event's descriptor; any other symbol changes nothing |
| LoggerBase.EventSourceLoggerBase.SetDescriptor | src/NSBETW.Shared/EventSourceLoggerBase.cs:734-803 | overwrites the descriptor of exactly one event kind and leaves the other nine, the session and the trace unchanged |
| LoggerBase.EventSourceLoggerBase.Log | src/NSBETW.Shared/EventSourceLoggerBase.cs:225-231 | the plain call appends the plain event's record exactly when the level is enabled |
| LoggerBase.EventSourceLoggerBase.LogWithException | src/NSBETW.Shared/EventSourceLoggerBase.cs:240-260 | the exception overload appends what the exception routing rule gives |
| LoggerBase.EventSourceLoggerBase.LogFormat | src/NSBETW.Shared/EventSourceLoggerBase.cs:271-292 | the format overload appends what the format routing rule gives, null arguments writing the format verbatim |
| LoggerBase.EventSourceLoggerBase.LogException | src/NSBETW.Shared/EventSourceLoggerBase.cs:303-320 | the pre-split exception call appends the exception event's record when the level is enabled |
| LoggerBase.EventSourceLoggerBase.WriteEvent2 | src/NSBETW.Shared/EventSourceLoggerBase.cs:229 | the two-string write appends one record with the two arguments when the source is enabled |
| LoggerBase.EventSourceLoggerBase.WriteEvent | src/NSBETW.Shared/EventSourceLoggerBase.cs:817-882 | the five-string write appends one record with the five arguments (null as ""), each sized (UTF-16 Length + 1) * 2, when the source is enabled, and nothing otherwise |
| EventLog.PlainId | src/NSBETW.Shared/EventLogEventSource.cs:87-454 | the plain events have ids 2 to 6 |
| EventLog.ExceptionId | src/NSBETW.Shared/EventLogEventSource.cs:160-530 | each exception event's id is its plain event's id plus 10 |
| EventLog.LevelQuery | src/NSBETW.Shared/EventLogEventSource.cs:56-80 | every level flag queries all keywords, on the Debug channel for Debug and the Operational channel otherwise |
| EventLog.IdsDistinct | src/NSBETW.Shared/EventLogEventSource.cs:87-172 | the ten fixed ids are distinct and each exception id is its plain id plus 10 |
| EventLog.EventLogEventSource.constructor | src/NSBETW.Shared/EventLogEventSource.cs:46-53 | a new source has written nothing |
| EventLog.EventLogEventSource.IsLevelEnabled | src/NSBETW.Shared/EventLogEventSource.cs:56-80 | a level flag is on only while the source is on |
| EventLog.EventLogEventSource.RouteOf | src/NSBETW.Shared/EventLogEventSource.cs:58-172 | each level is gated by its own flag and writes ids 2..6 for plain and 12..16 for exception events |
| EventLog.EventLogEventSource.Log | src/NSBETW.Shared/EventLogEventSource.cs:87-94 | the plain call appends the plain event's record exactly when the level is enabled |
| EventLog.EventLogEventSource.LogWithException | src/NSBETW.Shared/EventLogEventSource.cs:103-123 | the exception overload appends what the exception routing rule gives |
| EventLog.EventLogEventSource.LogFormat | src/NSBETW.Shared/EventLogEventSource.cs:134-149 | the format overload appends what the format routing rule gives, null arguments writing nothing |
| EventLog.EventLogEventSource.LogException | src/NSBETW.Shared/EventLogEventSource.cs:160-172 | the pre-split exception call appends the exception event's record when the level is enabled |
| EventLog.EventLogEventSource.WriteEvent2 | src/NSBETW.Shared/EventLogEventSource.cs:92 | the two-string write appends one record with the two arguments when the source is enabled |
| EventLog.EventLogEventSource.WriteEvent | src/NSBETW.Shared/EventLogEventSource.cs:544-609 | the five-string write appends one record with the five arguments (null as ""), each sized (UTF-16 Length + 1) * 2, when the source is enabled, and nothing otherwise |
| LoggerAdapter.EffectiveLoggerName | src/NSBETW.Shared/Logger.cs:55 | a null or blank name becomes "Default"; any other is kept |
| LoggerAdapter.EffectiveLoggerNameNonBlank | src/NSBETW.Shared/Logger.cs:37-55 | the effective name is never blank, and naming a logger after it changes nothing |
| LoggerAdapter.Logger.Init | src/NSBETW.Shared/Logger.cs:54-55 | the logger holds the façade and the effective name |
| LoggerAdapter.Logger.Create | src/NSBETW.Shared/Logger.cs:47-56 | a null façade throws ArgumentNullException naming eventSourceLogger; otherwise the logger holds the façade and the effective name |
| LoggerAdapter.Logger.IsLevelEnabled | src/NSBETW.Shared/Logger.cs:62-86 | the logger's level flag is exactly the façade's flag that gates the forwarded calls, and is on only while the source is on |
| LoggerAdapter.Logger.Log | src/NSBETW.Shared/Logger.cs:92-95 | Debug(message) and its siblings forward to the façade under the logger's name |
| LoggerAdapter.Logger.LogWithException | src/NSBETW.Shared/Logger.cs:102-105 | Debug(message, exception) and its siblings forward to the façade under the logger's name |
| LoggerAdapter.Logger.LogFormat | src/NSBETW.Shared/Logger.cs:113-116 | DebugFormat and its siblings forward to the façade under the logger's name |
| LoggerAdapter.LoggerNameInEveryRecord | src/NSBETW.Shared/Logger.cs:92-105 | every record a logger writes carries its non-blank name as the first field |
| KeywordListener.KeywordsAreSingleBits | src/Examples/CustomEventLog.Net45/EventSourceLogger.cs:211-236 | each example keyword constant is a single bit, and two constants share a bit exactly when they are the same |
| KeywordListener.SingleBit | src/Examples/CustomEventLog.Net45/EventSourceLogger.cs:211-236 | each example keyword constant is its own single bit |
| KeywordListener.Rank | src/Examples/CustomEventLog.Net45/CustomEventListener.cs:41-49 | each keyword's rank is its position in the listener's keyword list |
| KeywordListener.MatchingNames | src/Examples/CustomEventLog.Net45/CustomEventListener.cs:88-116 | the filter yields a keyword's name exactly when the keyword is listed and all its bits are set, and yields no more names than keywords listed |
| KeywordListener.GetKeywordStrings | src/Examples/CustomEventLog.Net45/CustomEventListener.cs:86-117 | a keyword's name is yielded exactly when all of its bits are set in the event's keywords |
| KeywordListener.MatchingNamesAreNames | src/Examples/CustomEventLog.Net45/CustomEventListener.cs:95-115 | only names of listed keywords are yielded |
| KeywordListener.KeywordOfName | src/Examples/CustomEventLog.Net45/CustomEventListener.cs:95-115 | the inverse of the name switch: a string names a keyword exactly when it is that keyword's name |
| KeywordListener.MatchingNamesOrdered | src/Examples/CustomEventLog.Net45/CustomEventListener.cs:88-116 | walking keywords in increasing rank yields names in increasing rank |
| KeywordListener.MatchingNamesAbove | src/Examples/CustomEventLog.Net45/CustomEventListener.cs:88-116 | every name yielded from keywords ranked above a bound is ranked above it |
| KeywordListener.GetKeywordStringsOrdered | src/Examples/CustomEventLog.Net45/CustomEventListener.cs:86-117 | only the six identifiers are yielded, in the listener's keyword order, each at most once |
| KeywordListener.NoKeywordsNoNames | src/Examples/CustomEventLog.Net45/CustomEventListener.cs:90-93 | an event without keywords yields no names |
| KeywordListener.MaskOfMatchingNames | src/Examples/CustomEventLog.Net45/CustomEventListener.cs:88-116 | the masks of the yielded names OR to the event's keywords restricted to the listed keywords' bits |
| KeywordListener.GetKeywordStringsRoundTrip | src/Examples/CustomEventLog.Net45/CustomEventListener.cs:86-117 | reading the yielded names back gives the event's keywords restricted to the six example bits, so nothing is lost or invented |
| KeywordListener.AllExampleBits | src/Examples/CustomEventLog.Net45/EventSourceLogger.cs:211-236 | the six example constants together are the six low bits, 0x3F |
| KeywordListener.LowBits | src/Examples/CustomEventLog.Net45/EventSourceLogger.cs:211-236 | bit b of 0x3F is set exactly when b < 6 |
| KeywordListener.Run | src/Examples/CustomEventLog.Net45/EventSourceLogger.cs:211-236 | a mask of the k low bits has bit c set exactly when c < k |
| ManifestExamples.NonBlankOfWords | src/NSBETW.Shared/EventSourceManifest.cs:148 | keyword names written as words all survive the blank filter |
| ManifestExamples.JoinedWordsNotBlank | src/NSBETW.Shared/EventSourceManifest.cs:141-144 | a space-joined list of keyword names is not blank |
| ManifestExamples.DeclaredKeywordsParsed | src/NSBETW.Shared/EventSourceManifest.cs:137-160 | the keywords attribute of a declared event parses to the OR of its names' masks |
| ManifestExamples.DeclaredEventRecorded | src/NSBETW.Shared/EventSourceManifest.cs:184-219 | a declared event is recorded under its symbol with its id, its level, no channel and the OR of its keywords' masks |
| ManifestExamples.DeclaredEventAccepted | src/NSBETW.Shared/EventSourceManifest.cs:184-198 | a declared event with a non-blank symbol and a non-zero 32-bit decimal id passes the guards with that id |
| ManifestExamples.AddThree | src/NSBETW.Shared/EventSourceManifest.cs:219 | three entries with distinct keys fill the dictionary with exactly those three, by the general dictionary lemmas |
| ManifestExamples.AddFour | src/NSBETW.Shared/EventSourceManifest.cs:285 | four entries with distinct keys fill the dictionary with exactly those four, by the general dictionary lemmas |
| ManifestExamples.KeywordsSourceProvider | src/Tests/NSBETW.UnitTests.Shared/EventSources/KeywordsEventSource.cs:39-49 | the test source's manifest names its provider, whose events and keywords are the ones queried |
| ManifestExamples.KeywordsSourceCandidates | src/Tests/NSBETW.UnitTests.Shared/EventSources/KeywordsEventSource.cs:87-108 | each of the four declared keywords is accepted with its own mask |
| ManifestExamples.KeywordsSourceTable | src/Tests/NSBETW.UnitTests.Shared/EventSources/KeywordsEventSource.cs:87-108 | the test source's keyword table maps the four keyword names to 0x1, 0x2, 0x4 and 0x8 |
| ManifestExamples.KeywordsSourceMasks | src/Tests/NSBETW.UnitTests.Shared/EventSources/KeywordsEventSource.cs:55-79 | the declared keyword lists OR to FirstKeyword, Second\|Third and Second\|Third\|Fourth |
| ManifestExamples.OneKeywordExampleRead | src/Tests/NSBETW.UnitTests.Shared/EventSourceManifestWithKeywordsTests.cs:55-66 | OneKeywordExample is recorded with id 1 and its one keyword |
| ManifestExamples.ThreeKeywordExampleRead | src/Tests/NSBETW.UnitTests.Shared/EventSourceManifestWithKeywordsTests.cs:93-128 | ThreeKeywordExample is recorded with id 3 and its three keywords |
| ManifestExamples.TwoKeywordExampleRead | src/Tests/NSBETW.UnitTests.Shared/EventSourceManifestWithKeywordsTests.cs:74-86 | TwoKeywordExample is recorded with id 2 and its two keywords |
| ManifestExamples.KeywordNamesAreWords | src/Tests/NSBETW.UnitTests.Shared/EventSources/KeywordsEventSource.cs:55-79 | the keyword names the three example events declare are non-blank words |
| ManifestExamples.KeywordsSourceEvents | src/Tests/NSBETW.UnitTests.Shared/EventSourceManifestWithKeywordsTests.cs:55-150 | the reader records the three test events with ids 1, 3 and 2, level Informational, no channel, and keywords FirstKeyword, Second\|Third\|Fourth and Second\|Third |

## Left out

- XML parsing and the XPath queries are not modelled. The parser is a parameter that returns the provider elements, or nothing when `XElement.Parse` or `XmlDocument.LoadXml` would throw. The queries become the element lists of the parsed document. The event query is rooted at `./e:instrumentation/e:events/e:provider` (EventSourceManifest.cs lines 165-166), while the name and keyword queries match `//e:provider` anywhere (lines 228 and 241). The document holds only the providers under instrumentation/events, which is where the manifest generator writes them, so the model treats the queries alike.
- Manifest.KeywordTableOf, Manifest.EventAttributesOf: a provider name holding an apostrophe is modelled as the `XPathException` the broken query raises (EventSourceManifest.cs lines 165-166 and 241). A name whose apostrophes still form a valid query, such as `a' or 'b'='b`, would instead select other elements in the code; the model does not capture what such a query selects.
- The `ArgumentException` guards for a missing name table or document element (EventSourceManifest.cs lines 88-101) are left out. A successfully parsed document always has both.
- `StartsWith("0x", CurrentCulture)` is modelled as an ordinal prefix test. The culture's comparison rules are left out.
- `int.TryParse` and `byte.TryParse` are modelled with the invariant culture's sign and white-space rules. Culture-specific signs and trailing NUL characters are left out.
- ETW itself is not modelled: `WriteEventCore`, the unsafe pinning and the session protocol. What ETW receives is the ghost `trace` of records. `IsEnabled()` and `IsEnabled(level, keywords, channel)` are the fields of a `Session` value that the caller supplies. A `Session` never subscribes while the source is disabled, as `IsEnabled(level, keywords, channel)` returns false then.
- `string.Format` is modelled as a `Formatter` parameter that returns the text or the FormatException. The composite-format grammar and culture formatting are left out. Format arguments are given by their string forms.
- `EventSource.WriteEvent(int, string, string)` is framework code, not part of this repository. `WriteEvent2` models it with the same rule as the five-string overload: nothing unless the source is enabled, and null written as "".
- The thread safety of `Lazy<T>` is not modelled, nor is concurrency in general. The cache is a field that is filled on first use, and an exception is cached like a value.
- `IEventSourceLogger` is an interface with one implementation in the core. `Logger` holds an `EventSourceLoggerBase` directly, because the model has no interfaces.
- The five per-level copies of each façade method (Debug, Info, Warn, Error, Fatal) are one method with a `LogLevel` parameter.
- `EventSource.GenerateManifest` (reflection over the event source type) is left out. `EventSourceLoggerBase.Create` takes the manifest text, or none when the generator returns null.
- The `EventLogEventSource.Log` singleton, the logger factories, `OnEventWritten` and the example program's console output are left out. Only the `GetKeywordStrings` filter of the listener is modelled.
- The runtime's `EventAttribute` validation (for example, of negative ids) is not modelled. The reader stores what it parsed.
- `System.Diagnostics.Debug.Assert` in SetEventDefinition is left out. A map entry always has a value.
