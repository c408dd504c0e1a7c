/** The routing rules shared by the two ETW façades: the four overload
    shapes of each log level (plain, exception object, pre-split exception
    strings, composite format) and what each hands to ETW.

    Each façade decides, per log level, whether the level is enabled and
    which event ids its plain and exception variants carry; a Route holds
    those facts, and the functions below give the records that one call
    appends to the ETW stream. */
module Routing {
  import opened Wrappers
  import opened Tracing

  /** The five log levels of the NServiceBus logging abstraction. */
  datatype LogLevel = Debug | Info | Warn | Error | Fatal

  /** What string.Format(CultureInfo.CurrentCulture, format, args) gives:
      the formatted text, or the FormatException it throws. */
  datatype FormatResult = Formatted(text: string) | FormatFailed(exception: Exception)

  /** string.Format with the current culture; the arguments are given by
      their string forms. */
  type Formatter = (string, seq<string>) -> FormatResult

  /** The facts one log call of a level depends on: the level flag, whether
      any session has the source on (EventSource.IsEnabled()), and the ids of
      the level's plain and exception events. */
  datatype Route = Route(levelEnabled: bool, sourceEnabled: bool, plainId: int, exceptionId: int)

  /** One WriteEvent call with string arguments: nothing when no session has
      the source on; otherwise one record whose fields are the arguments,
      null written as "", each sized (Length + 1) * 2 in UTF-16 code units. */
  function Write(sourceEnabled: bool, eventId: int, args: seq<Option<string>>): (out: seq<EventRecord>)
    ensures sourceEnabled <==> |out| == 1
    ensures |out| <= 1
    ensures |out| == 1 ==> out[0].eventId == eventId && |out[0].payload| == |args|
    ensures |out| == 1 ==> forall i :: 0 <= i < |args| ==>
      out[0].payload[i].text == OrEmpty(args[i]) && out[0].payload[i].size == (Utf16Length(OrEmpty(args[i])) + 1) * 2
  {
    if sourceEnabled then [EventRecord(eventId, Payload(args))] else []
  }

  /** X(logger, message): the plain event when the level is enabled. */
  function PlainEvents(r: Route, logger: Option<string>, message: Option<string>): (out: seq<EventRecord>)
    ensures |out| <= 1
    ensures out != [] <==> r.levelEnabled && r.sourceEnabled
    ensures out != [] ==> out[0].eventId == r.plainId && out[0].payload == [Field(logger), Field(message)]
  {
    if r.levelEnabled then Write(r.sourceEnabled, r.plainId, [logger, message]) else []
  }

  /** XException(logger, message, type, text, value): the exception event
      when the level is enabled. */
  function ExceptionEvents(r: Route, logger: Option<string>, message: Option<string>,
                           exceptionType: Option<string>, exceptionMessage: Option<string>, exceptionValue: Option<string>): (out: seq<EventRecord>)
    ensures |out| <= 1
    ensures out != [] <==> r.levelEnabled && r.sourceEnabled
    ensures out != [] ==>
      && out[0].eventId == r.exceptionId
      && out[0].payload == [Field(logger), Field(message), Field(exceptionType), Field(exceptionMessage), Field(exceptionValue)]
  {
    if r.levelEnabled then Write(r.sourceEnabled, r.exceptionId, [logger, message, exceptionType, exceptionMessage, exceptionValue]) else []
  }

  /** X(logger, message, exception): nothing when the level is disabled; a
      null exception is the plain call, any other the exception call with
      the exception's GetType().FullName, Message and ToString(). */
  function WithExceptionEvents(r: Route, logger: Option<string>, message: Option<string>, exception: Option<Exception>): (out: seq<EventRecord>)
    ensures |out| <= 1
    ensures out != [] <==> r.levelEnabled && r.sourceEnabled
    ensures exception.None? ==> out == PlainEvents(r, logger, message)
    ensures exception.Some? && out != [] ==>
      && out[0].eventId == r.exceptionId && |out[0].payload| == 5
      && out[0].payload[2].text == exception.value.typeFullName
      && out[0].payload[3].text == exception.value.message
      && out[0].payload[4].text == exception.value.text
  {
    if !r.levelEnabled then []
    else if exception.None? then PlainEvents(r, logger, message)
    else ExceptionEvents(r, logger, message, Some(exception.value.typeFullName), Some(exception.value.message), Some(exception.value.text))
  }

  /** X(logger, format, args): nothing when the level is disabled or the
      format is null; null args write the format verbatim when
      nullArgsVerbatim holds and nothing otherwise; a format that fails is
      logged through the exception overload, prefixed by invalidFormat. */
  function FormatEvents(r: Route, formatter: Formatter, invalidFormat: string, nullArgsVerbatim: bool,
                        logger: Option<string>, format: Option<string>, args: Option<seq<string>>): (out: seq<EventRecord>)
    ensures |out| <= 1
    ensures out != [] ==> r.levelEnabled && r.sourceEnabled && format.Some?
    ensures format.Some? && args.None? ==> out == (if nullArgsVerbatim then PlainEvents(r, logger, format) else [])
  {
    if !r.levelEnabled || format.None? then []
    else if args.None? then (if nullArgsVerbatim then PlainEvents(r, logger, format) else [])
    else
      match formatter(format.value, args.value)
      case Formatted(text) => PlainEvents(r, logger, Some(text))
      case FormatFailed(e) => WithExceptionEvents(r, logger, Some(invalidFormat + format.value), Some(e))
  }

  // ---------------------------------------------------------------------------
  // Properties of the routing rules

  /** Under listeners that subscribe only while the source is on, a call
      writes exactly when its level is enabled. */
  lemma WritesIffLevelEnabled(r: Route, logger: Option<string>, message: Option<string>, exception: Option<Exception>,
                              exceptionType: Option<string>, exceptionMessage: Option<string>, exceptionValue: Option<string>)
    requires r.levelEnabled ==> r.sourceEnabled
    ensures PlainEvents(r, logger, message) != [] <==> r.levelEnabled
    ensures ExceptionEvents(r, logger, message, exceptionType, exceptionMessage, exceptionValue) != [] <==> r.levelEnabled
    ensures WithExceptionEvents(r, logger, message, exception) != [] <==> r.levelEnabled
  {
  }

  /** A disabled level, or a source no session listens to, writes nothing
      through any of the four shapes. */
  lemma SilentWhenDisabled(r: Route, formatter: Formatter, invalidFormat: string, nullArgsVerbatim: bool,
                           logger: Option<string>, message: Option<string>, exception: Option<Exception>,
                           exceptionType: Option<string>, exceptionMessage: Option<string>, exceptionValue: Option<string>,
                           args: Option<seq<string>>)
    requires !r.levelEnabled || !r.sourceEnabled
    ensures PlainEvents(r, logger, message) == []
    ensures ExceptionEvents(r, logger, message, exceptionType, exceptionMessage, exceptionValue) == []
    ensures WithExceptionEvents(r, logger, message, exception) == []
    ensures FormatEvents(r, formatter, invalidFormat, nullArgsVerbatim, logger, message, args) == []
  {
  }

  /** With an exception, the call writes the exception event whose five
      fields are the logger, the message and the exception's type name,
      message and text. */
  lemma ExceptionEventShape(r: Route, logger: Option<string>, message: Option<string>, e: Exception)
    requires r.levelEnabled && r.sourceEnabled
    ensures WithExceptionEvents(r, logger, message, Some(e))
         == [EventRecord(r.exceptionId, Payload([logger, message, Some(e.typeFullName), Some(e.message), Some(e.text)]))]
  {
  }

  /** A format that string.Format accepts writes the formatted text as the
      plain event's message. */
  lemma FormatSuccess(r: Route, formatter: Formatter, invalidFormat: string, nullArgsVerbatim: bool,
                      logger: Option<string>, format: string, args: seq<string>, text: string)
    requires r.levelEnabled && r.sourceEnabled && formatter(format, args) == Formatted(text)
    ensures FormatEvents(r, formatter, invalidFormat, nullArgsVerbatim, logger, Some(format), Some(args))
         == [EventRecord(r.plainId, [Field(logger), EventData(text, (Utf16Length(text) + 1) * 2)])]
  {
    assert Payload([logger, Some(text)]) == [Field(logger), Field(Some(text))];
  }

  /** A format that string.Format rejects writes the exception event, whose
      message is invalidFormat followed by the format and whose exception
      fields are the FormatException's. */
  lemma FormatFailureFallback(r: Route, formatter: Formatter, invalidFormat: string, nullArgsVerbatim: bool,
                              logger: Option<string>, format: string, args: seq<string>, e: Exception)
    requires r.levelEnabled && r.sourceEnabled && formatter(format, args) == FormatFailed(e)
    ensures var out := FormatEvents(r, formatter, invalidFormat, nullArgsVerbatim, logger, Some(format), Some(args));
      && |out| == 1 && out[0].eventId == r.exceptionId && |out[0].payload| == 5
      && out[0].payload[1].text == invalidFormat + format
      && out[0].payload[2].text == e.typeFullName
      && out[0].payload[3].text == e.message
      && out[0].payload[4].text == e.text
    ensures FormatEvents(r, formatter, invalidFormat, nullArgsVerbatim, logger, Some(format), Some(args))
         == [EventRecord(r.exceptionId, [Field(logger), Field(Some(invalidFormat + format)),
                                         Field(Some(e.typeFullName)), Field(Some(e.message)), Field(Some(e.text))])]
  {
    ExceptionEventShape(r, logger, Some(invalidFormat + format), e);
  }

  /** Every record any shape writes carries the level's plain id with two
      fields or its exception id with five, and every field is sized
      (Length + 1) * 2, Length counted in UTF-16 code units. */
  predicate WellFormed(r: Route, out: seq<EventRecord>) {
    && |out| <= 1
    && (forall n :: 0 <= n < |out| ==>
          && ((out[n].eventId == r.plainId && |out[n].payload| == 2) || (out[n].eventId == r.exceptionId && |out[n].payload| == 5))
          && (forall i :: 0 <= i < |out[n].payload| ==> out[n].payload[i].size == (Utf16Length(out[n].payload[i].text) + 1) * 2))
  }

  lemma AllShapesWellFormed(r: Route, formatter: Formatter, invalidFormat: string, nullArgsVerbatim: bool,
                            logger: Option<string>, message: Option<string>, exception: Option<Exception>,
                            exceptionType: Option<string>, exceptionMessage: Option<string>, exceptionValue: Option<string>,
                            args: Option<seq<string>>)
    ensures WellFormed(r, PlainEvents(r, logger, message))
    ensures WellFormed(r, ExceptionEvents(r, logger, message, exceptionType, exceptionMessage, exceptionValue))
    ensures WellFormed(r, WithExceptionEvents(r, logger, message, exception))
    ensures WellFormed(r, FormatEvents(r, formatter, invalidFormat, nullArgsVerbatim, logger, message, args))
  {
    PlainWellFormed(r, logger, message);
    ExceptionWellFormed(r, logger, message, exceptionType, exceptionMessage, exceptionValue);
    WithExceptionWellFormed(r, logger, message, exception);
    FormatWellFormed(r, formatter, invalidFormat, nullArgsVerbatim, logger, message, args);
  }

  lemma PlainWellFormed(r: Route, logger: Option<string>, message: Option<string>)
    ensures WellFormed(r, PlainEvents(r, logger, message))
  {
  }

  lemma ExceptionWellFormed(r: Route, logger: Option<string>, message: Option<string>,
                            exceptionType: Option<string>, exceptionMessage: Option<string>, exceptionValue: Option<string>)
    ensures WellFormed(r, ExceptionEvents(r, logger, message, exceptionType, exceptionMessage, exceptionValue))
  {
  }

  lemma WithExceptionWellFormed(r: Route, logger: Option<string>, message: Option<string>, exception: Option<Exception>)
    ensures WellFormed(r, WithExceptionEvents(r, logger, message, exception))
  {
    PlainWellFormed(r, logger, message);
    if exception.Some? {
      var e := exception.value;
      ExceptionWellFormed(r, logger, message, Some(e.typeFullName), Some(e.message), Some(e.text));
    }
  }

  lemma FormatWellFormed(r: Route, formatter: Formatter, invalidFormat: string, nullArgsVerbatim: bool,
                         logger: Option<string>, format: Option<string>, args: Option<seq<string>>)
    ensures WellFormed(r, FormatEvents(r, formatter, invalidFormat, nullArgsVerbatim, logger, format, args))
  {
    if format.Some? {
      if args.None? {
        PlainWellFormed(r, logger, format);
      } else {
        match formatter(format.value, args.value)
        case Formatted(text) =>
          PlainWellFormed(r, logger, Some(text));
        case FormatFailed(e) =>
          WithExceptionWellFormed(r, logger, Some(invalidFormat + format.value), Some(e));
      }
    }
  }
}
