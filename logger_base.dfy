/** EventSourceLoggerBase: the ETW façade whose ten events (Debug, Info,
    Warn, Error and Fatal, each plain and with an exception) start from
    hard-coded descriptors and take their id, level, channel and keywords
    from the source's own manifest. */
module LoggerBase {
  import opened Wrappers
  import opened Tracing
  import opened ManifestDocument
  import opened Manifest
  import opened Routing

  // ---------------------------------------------------------------------------
  // The ten event kinds

  /** One of the ten events: a level, plain or with an exception. */
  datatype EventKind = EventKind(level: LogLevel, withException: bool)

  /** The name of the method that writes the event, which is the event's
      symbol in the manifest. */
  function KindName(k: EventKind): string
  {
    match (k.level, k.withException)
    case (Debug, false) => "Debug"
    case (Debug, true) => "DebugException"
    case (Info, false) => "Info"
    case (Info, true) => "InfoException"
    case (Warn, false) => "Warn"
    case (Warn, true) => "WarnException"
    case (Error, false) => "Error"
    case (Error, true) => "ErrorException"
    case (Fatal, false) => "Fatal"
    case (Fatal, true) => "FatalException"
  }

  /** The switch of SetEventDefinition: which kind a manifest symbol
      configures, if any. */
  function KindOfSymbol(symbol: string): (k: Option<EventKind>)
    ensures k.Some? ==> KindName(k.value) == symbol
  {
    if symbol == "Debug" then Some(EventKind(Debug, false))
    else if symbol == "DebugException" then Some(EventKind(Debug, true))
    else if symbol == "Info" then Some(EventKind(Info, false))
    else if symbol == "InfoException" then Some(EventKind(Info, true))
    else if symbol == "Error" then Some(EventKind(LogLevel.Error, false))
    else if symbol == "ErrorException" then Some(EventKind(LogLevel.Error, true))
    else if symbol == "Fatal" then Some(EventKind(Fatal, false))
    else if symbol == "FatalException" then Some(EventKind(Fatal, true))
    else if symbol == "Warn" then Some(EventKind(Warn, false))
    else if symbol == "WarnException" then Some(EventKind(Warn, true))
    else None
  }

  /** The switch recognises exactly the ten method names, each as its own
      kind. */
  lemma KindOfSymbolIff(symbol: string, k: EventKind)
    ensures KindOfSymbol(symbol) == Some(k) <==> symbol == KindName(k)
  {
    KindNameRecognised(k);
  }

  /** Every kind's method name selects that kind. */
  lemma KindNameRecognised(k: EventKind)
    ensures KindOfSymbol(KindName(k)) == Some(k)
  {
  }

  // ---------------------------------------------------------------------------
  // Descriptors

  /** The five fields the façade keeps per kind: event id, level, keywords,
      channel and whether the manifest configured it. */
  datatype EventDescriptor = EventDescriptor(eventId: int, level: EventLevel, keywords: Keywords, channel: Channel, configured: bool)

  /** The field initialisers: Fatal 1001/1002, Error 1003/1004, Warn
      1005/1006, Info 1007/1008, Debug 1009/1010, each at its own level,
      with no channel and no keywords, unconfigured. */
  function DefaultDescriptor(k: EventKind): (d: EventDescriptor)
    ensures !d.configured && d.channel == ChannelNone && d.keywords == KeywordsNone
  {
    var (id, level) := match k.level
      case Fatal => (1001, Critical)
      case Error => (1003, EventLevel.Error)
      case Warn => (1005, Warning)
      case Info => (1007, Informational)
      case Debug => (1009, Verbose);
    EventDescriptor(if k.withException then id + 1 else id, level, KeywordsNone, ChannelNone, false)
  }

  /** The default ids are pairwise distinct, and an exception event's id
      follows its plain event's. */
  lemma DefaultIdsDistinct(k1: EventKind, k2: EventKind)
    ensures DefaultDescriptor(k1).eventId == DefaultDescriptor(k2).eventId <==> k1 == k2
    ensures 1001 <= DefaultDescriptor(k1).eventId <= 1010
    ensures k1.withException ==> DefaultDescriptor(k1).eventId == DefaultDescriptor(EventKind(k1.level, false)).eventId + 1
  {
  }

  /** What SetEventDefinition stores for a manifest entry. */
  function Configured(a: EventAttribute): (d: EventDescriptor)
    ensures d.configured
    ensures d.eventId == a.eventId && d.level == a.level && d.keywords == a.keywords && d.channel == a.channel
  {
    EventDescriptor(a.eventId, a.level, a.keywords, a.channel, true)
  }

  /** The descriptor of a kind once the manifest's entries are applied:
      the entry of the kind's name if there is one, the default otherwise.
      A kind is configured exactly when the manifest has an event with its
      name. */
  function ResolvedDescriptor(attributes: map<string, EventAttribute>, k: EventKind): (d: EventDescriptor)
    ensures d.configured <==> KindName(k) in attributes
    ensures KindName(k) in attributes ==>
      var a := attributes[KindName(k)];
      d.eventId == a.eventId && d.level == a.level && d.keywords == a.keywords && d.channel == a.channel
    ensures KindName(k) !in attributes ==> d == DefaultDescriptor(k)
  {
    if KindName(k) in attributes then Configured(attributes[KindName(k)]) else DefaultDescriptor(k)
  }

  /** Is<K>EventEnabled: configured, and some session subscribes to the
      kind's level, keywords and channel. */
  predicate DescriptorEnabled(d: EventDescriptor, session: Session) {
    d.configured && session.subscribed(d.level, d.keywords, d.channel)
  }

  /** The route of a level: enabled when its plain or its exception event
      is, each variant written with its own descriptor's id. */
  function LevelRoute(plain: EventDescriptor, exception: EventDescriptor, session: Session): (r: Route)
    ensures r.levelEnabled <==> DescriptorEnabled(plain, session) || DescriptorEnabled(exception, session)
    ensures r.levelEnabled ==> r.sourceEnabled
    ensures !plain.configured && !exception.configured ==> !r.levelEnabled
    ensures r.sourceEnabled == session.sourceEnabled && r.plainId == plain.eventId && r.exceptionId == exception.eventId
  {
    Route(DescriptorEnabled(plain, session) || DescriptorEnabled(exception, session), session.sourceEnabled, plain.eventId, exception.eventId)
  }

  /** The plain call is gated by the level flag, not by its own event: when
      only the exception event is configured and subscribed, the plain call
      still writes, under the plain descriptor's (default) id. */
  lemma PlainWritesUnderDefaultId(attributes: map<string, EventAttribute>, level: LogLevel, session: Session,
                                  logger: Option<string>, message: Option<string>)
    requires KindName(EventKind(level, false)) !in attributes
    requires DescriptorEnabled(ResolvedDescriptor(attributes, EventKind(level, true)), session)
    ensures var r := LevelRoute(ResolvedDescriptor(attributes, EventKind(level, false)), ResolvedDescriptor(attributes, EventKind(level, true)), session);
      PlainEvents(r, logger, message) == [EventRecord(DefaultDescriptor(EventKind(level, false)).eventId, Payload([logger, message]))]
  {
  }

  // ---------------------------------------------------------------------------
  // The class

  class EventSourceLoggerBase {
    var debug: EventDescriptor
    var debugException: EventDescriptor
    var error: EventDescriptor
    var errorException: EventDescriptor
    var fatal: EventDescriptor
    var fatalException: EventDescriptor
    var info: EventDescriptor
    var infoException: EventDescriptor
    var warn: EventDescriptor
    var warnException: EventDescriptor

    /** The ETW sessions listening to this source, as the EventSource
        runtime reports them. */
    var session: Session
    /** string.Format with the current culture. */
    const formatter: Formatter
    /** The InvalidFormatErrorString resource. */
    const invalidFormatErrorString: string
    /** Every record handed to WriteEventCore, in order. */
    ghost var trace: seq<EventRecord>

    function DescriptorOf(k: EventKind): EventDescriptor
      reads this
    {
      match k.level
      case Debug => if k.withException then debugException else debug
      case Info => if k.withException then infoException else info
      case Warn => if k.withException then warnException else warn
      case Error => if k.withException then errorException else error
      case Fatal => if k.withException then fatalException else fatal
    }

    /** Is<K>EventEnabled: only a configured event, and only while the
        source is on. */
    predicate IsEventEnabled(k: EventKind)
      reads this
      ensures IsEventEnabled(k) ==> DescriptorOf(k).configured && session.sourceEnabled
    {
      DescriptorEnabled(DescriptorOf(k), session)
    }

    /** IsDebugEnabled … IsWarnEnabled: the level's plain or exception
        event is enabled. */
    predicate IsLevelEnabled(level: LogLevel)
      reads this
      ensures IsLevelEnabled(level) ==> session.sourceEnabled
      ensures IsLevelEnabled(level) ==>
        DescriptorOf(EventKind(level, false)).configured || DescriptorOf(EventKind(level, true)).configured
    {
      IsEventEnabled(EventKind(level, false)) || IsEventEnabled(EventKind(level, true))
    }

    function RouteOf(level: LogLevel): Route
      reads this
    {
      LevelRoute(DescriptorOf(EventKind(level, false)), DescriptorOf(EventKind(level, true)), session)
    }

    /** The field initialisers. */
    constructor WithDefaults(session: Session, formatter: Formatter, invalidFormatErrorString: string)
      ensures forall k :: DescriptorOf(k) == DefaultDescriptor(k)
      ensures this.session == session && this.formatter == formatter && this.invalidFormatErrorString == invalidFormatErrorString
      ensures trace == []
    {
      debug := DefaultDescriptor(EventKind(Debug, false));
      debugException := DefaultDescriptor(EventKind(Debug, true));
      error := DefaultDescriptor(EventKind(LogLevel.Error, false));
      errorException := DefaultDescriptor(EventKind(LogLevel.Error, true));
      fatal := DefaultDescriptor(EventKind(Fatal, false));
      fatalException := DefaultDescriptor(EventKind(Fatal, true));
      info := DefaultDescriptor(EventKind(Info, false));
      infoException := DefaultDescriptor(EventKind(Info, true));
      warn := DefaultDescriptor(EventKind(Warn, false));
      warnException := DefaultDescriptor(EventKind(Warn, true));
      this.session := session;
      this.formatter := formatter;
      this.invalidFormatErrorString := invalidFormatErrorString;
      trace := [];
    }

    /** The constructor: without a manifest every kind keeps its default;
        otherwise the manifest is read (its exceptions propagate) and every
        entry is applied with SetEventDefinition. */
    static method Create(manifestXml: Option<string>, parse: string -> Option<Document>, session: Session,
                         formatter: Formatter, invalidFormatErrorString: string)
      returns (r: Result<EventSourceLoggerBase, ManifestError>)
      ensures manifestXml.None? ==> r.Success? && forall k :: r.value.DescriptorOf(k) == DefaultDescriptor(k)
      ensures manifestXml.Some? ==>
        (r.Success? <==> LoadDocument(manifestXml, parse).Success? && EventAttributesOf(LoadDocument(manifestXml, parse).value).Success?)
      ensures manifestXml.Some? && r.Failure? ==>
        r.error == (if LoadDocument(manifestXml, parse).Failure? then LoadDocument(manifestXml, parse).error
                    else EventAttributesOf(LoadDocument(manifestXml, parse).value).error)
      ensures manifestXml.Some? && r.Success? ==>
        forall k :: r.value.DescriptorOf(k) == ResolvedDescriptor(EventAttributesOf(LoadDocument(manifestXml, parse).value).value, k)
      ensures r.Success? ==>
                (&& fresh(r.value) && r.value.trace == [] && r.value.session == session
                 && r.value.formatter == formatter && r.value.invalidFormatErrorString == invalidFormatErrorString)
    {
      var logger := new EventSourceLoggerBase.WithDefaults(session, formatter, invalidFormatErrorString);
      if manifestXml.None? {
        return Success(logger);
      }
      var loaded := EventSourceManifest.Load(manifestXml, parse);
      if loaded.Failure? {
        return Failure(loaded.error);
      }
      var eventSourceManifest := loaded.value;
      ghost var document := eventSourceManifest.document;
      var attributes := eventSourceManifest.EventAttributes();
      assert attributes == EventAttributesOf(document);
      if attributes.Failure? {
        return Failure(attributes.error);
      }
      var entries := attributes.value;
      var remaining := entries.Keys;
      while remaining != {}
        invariant remaining <= entries.Keys
        invariant logger.trace == [] && logger.session == session
        invariant forall k :: (logger.DescriptorOf(k) ==
                                (if KindName(k) in entries.Keys - remaining then Configured(entries[KindName(k)]) else DefaultDescriptor(k)))
        decreases |remaining|
      {
        var symbol :| symbol in remaining;
        logger.SetEventDefinition(symbol, entries[symbol]);
        forall k ensures KindOfSymbol(symbol) == Some(k) <==> symbol == KindName(k) {
          KindOfSymbolIff(symbol, k);
        }
        remaining := remaining - {symbol};
      }
      return Success(logger);
    }

    /** SetEventDefinition: a symbol naming one of the ten methods
        overwrites that kind's channel, id, level and keywords and marks it
        configured; any other symbol changes nothing. */
    method SetEventDefinition(symbol: string, eventAttribute: EventAttribute)
      modifies this
      ensures forall k :: DescriptorOf(k) == (if KindOfSymbol(symbol) == Some(k) then Configured(eventAttribute) else old(DescriptorOf(k)))
      ensures session == old(session) && trace == old(trace)
    {
      var kind := KindOfSymbol(symbol);
      if kind.Some? {
        SetDescriptor(kind.value, Configured(eventAttribute));
      }
    }

    /** Overwrite the five fields of one kind. */
    method SetDescriptor(k: EventKind, d: EventDescriptor)
      modifies this
      ensures forall j :: DescriptorOf(j) == (if j == k then d else old(DescriptorOf(j)))
      ensures session == old(session) && trace == old(trace)
    {
      match k {
        case EventKind(Debug, false) => debug := d;
        case EventKind(Debug, true) => debugException := d;
        case EventKind(Info, false) => info := d;
        case EventKind(Info, true) => infoException := d;
        case EventKind(Error, false) => error := d;
        case EventKind(Error, true) => errorException := d;
        case EventKind(Fatal, false) => fatal := d;
        case EventKind(Fatal, true) => fatalException := d;
        case EventKind(Warn, false) => warn := d;
        case EventKind(Warn, true) => warnException := d;
      }
    }

    /** Debug(logger, message) … Warn(logger, message). */
    method Log(level: LogLevel, logger: Option<string>, message: Option<string>)
      modifies this`trace
      ensures trace == old(trace) + PlainEvents(RouteOf(level), logger, message)
    {
      if IsLevelEnabled(level) {
        WriteEvent2(DescriptorOf(EventKind(level, false)).eventId, logger, message);
      }
    }

    /** Debug(logger, message, exception) … Warn(logger, message, exception). */
    method LogWithException(level: LogLevel, logger: Option<string>, message: Option<string>, exception: Option<Exception>)
      modifies this`trace
      ensures trace == old(trace) + WithExceptionEvents(RouteOf(level), logger, message, exception)
    {
      if !IsLevelEnabled(level) {
        return;
      }
      if exception.None? {
        Log(level, logger, message);
      } else {
        var e := exception.value;
        LogException(level, logger, message, Some(e.typeFullName), Some(e.message), Some(e.text));
      }
    }

    /** Debug(logger, format, args) … Warn(logger, format, args): null args
        write the format verbatim. */
    method LogFormat(level: LogLevel, logger: Option<string>, format: Option<string>, args: Option<seq<string>>)
      modifies this`trace
      ensures trace == old(trace) + FormatEvents(RouteOf(level), formatter, invalidFormatErrorString, true, logger, format, args)
    {
      if !IsLevelEnabled(level) || format.None? {
        return;
      }
      if args.None? {
        Log(level, logger, format);
        return;
      }
      var formatted := formatter(format.value, args.value);
      match formatted {
        case Formatted(text) =>
          Log(level, logger, Some(text));
        case FormatFailed(ex) =>
          LogWithException(level, logger, Some(invalidFormatErrorString + format.value), Some(ex));
      }
    }

    /** DebugException(logger, message, type, text, value) … WarnException. */
    method LogException(level: LogLevel, logger: Option<string>, message: Option<string>,
                        exceptionType: Option<string>, exceptionMessage: Option<string>, exceptionValue: Option<string>)
      modifies this`trace
      ensures trace == old(trace) + ExceptionEvents(RouteOf(level), logger, message, exceptionType, exceptionMessage, exceptionValue)
    {
      if IsLevelEnabled(level) {
        WriteEvent(DescriptorOf(EventKind(level, true)).eventId, logger, message, exceptionType, exceptionMessage, exceptionValue);
      }
    }

    /** EventSource.WriteEvent(int, string, string). */
    method WriteEvent2(eventId: int, arg1: Option<string>, arg2: Option<string>)
      modifies this`trace
      ensures trace == old(trace) + Write(session.sourceEnabled, eventId, [arg1, arg2])
    {
      if session.sourceEnabled {
        trace := trace + [EventRecord(eventId, Payload([arg1, arg2]))];
      }
    }

    /** The five-string WriteEvent: nothing unless some session has the
        source on; each null argument becomes "", and each field is sized
        (Length + 1) * 2 in UTF-16 code units. */
    method WriteEvent(eventId: int, arg1: Option<string>, arg2: Option<string>, arg3: Option<string>,
                      arg4: Option<string>, arg5: Option<string>)
      modifies this`trace
      ensures trace == old(trace) + Write(session.sourceEnabled, eventId, [arg1, arg2, arg3, arg4, arg5])
    {
      if !session.sourceEnabled {
        return;
      }
      var s1 := NullAsEmpty(arg1);
      var s2 := NullAsEmpty(arg2);
      var s3 := NullAsEmpty(arg3);
      var s4 := NullAsEmpty(arg4);
      var s5 := NullAsEmpty(arg5);
      var data := [
        EventData(s1, (Utf16Length(s1) + 1) * 2),
        EventData(s2, (Utf16Length(s2) + 1) * 2),
        EventData(s3, (Utf16Length(s3) + 1) * 2),
        EventData(s4, (Utf16Length(s4) + 1) * 2),
        EventData(s5, (Utf16Length(s5) + 1) * 2)];
      PayloadOfFive(arg1, arg2, arg3, arg4, arg5);
      trace := trace + [EventRecord(eventId, data)];
    }
  }
}
