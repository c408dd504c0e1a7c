/** EventLogEventSource: the self-contained "NServiceBus" event source whose
    ten events have fixed ids, and whose level flags ask the ETW sessions
    about the level with every keyword on the Debug channel (Debug) or the
    Operational channel (the other levels). */
module EventLog {
  import opened Wrappers
  import opened Tracing
  import opened Routing

  /** The id of X(logger, message): Debug 2, Info 3, Warn 4, Error 5,
      Fatal 6. */
  function PlainId(level: LogLevel): (id: int)
    ensures 2 <= id <= 6
  {
    match level
    case Debug => 2
    case Info => 3
    case Warn => 4
    case Error => 5
    case Fatal => 6
  }

  /** The id of XException: Debug 12, Info 13, Warn 14, Error 15,
      Fatal 16. */
  function ExceptionId(level: LogLevel): (id: int)
    ensures id == PlainId(level) + 10
  {
    match level
    case Debug => 12
    case Info => 13
    case Warn => 14
    case Error => 15
    case Fatal => 16
  }

  /** The ten ids are pairwise distinct: a record's id names its level and
      whether it carries an exception. */
  lemma IdsDistinct(l1: LogLevel, l2: LogLevel)
    ensures PlainId(l1) == PlainId(l2) <==> l1 == l2
    ensures ExceptionId(l1) == ExceptionId(l2) <==> l1 == l2
    ensures PlainId(l1) != ExceptionId(l2)
    ensures ExceptionId(l1) == PlainId(l1) + 10
  {
  }

  /** The level, keywords and channel IsDebugEnabled … IsWarnEnabled ask
      about: every keyword, on the Debug channel for Debug only. */
  function LevelQuery(level: LogLevel): (q: (EventLevel, Keywords, Channel))
    ensures q.1 == KeywordsAll
    ensures q.2 == (if level == Debug then ChannelDebug else ChannelOperational)
  {
    match level
    case Debug => (Verbose, KeywordsAll, ChannelDebug)
    case Info => (Informational, KeywordsAll, ChannelOperational)
    case Warn => (Warning, KeywordsAll, ChannelOperational)
    case Error => (EventLevel.Error, KeywordsAll, ChannelOperational)
    case Fatal => (Critical, KeywordsAll, ChannelOperational)
  }

  class EventLogEventSource {
    /** The ETW sessions listening to this source, as the EventSource
        runtime reports them. */
    var session: Session
    /** string.Format with the current culture. */
    const formatter: Formatter
    /** Every record handed to WriteEventCore, in order. */
    ghost var trace: seq<EventRecord>

    /** The InvalidFormatErrorString constant. */
    static const InvalidFormatErrorString: string := "Attempted to log a message with an invalid format: "

    constructor (session: Session, formatter: Formatter)
      ensures this.session == session && this.formatter == formatter && trace == []
    {
      this.session := session;
      this.formatter := formatter;
      trace := [];
    }

    /** IsDebugEnabled … IsWarnEnabled: never while the source is off. */
    predicate IsLevelEnabled(level: LogLevel)
      reads this
      ensures IsLevelEnabled(level) ==> session.sourceEnabled
    {
      var (eventLevel, keywords, channel) := LevelQuery(level);
      session.subscribed(eventLevel, keywords, channel)
    }

    function RouteOf(level: LogLevel): (r: Route)
      reads this
      ensures r.levelEnabled == IsLevelEnabled(level) && r.sourceEnabled == session.sourceEnabled
      ensures r.levelEnabled ==> r.sourceEnabled
      ensures r.plainId == PlainId(level) && r.exceptionId == ExceptionId(level)
    {
      Route(IsLevelEnabled(level), session.sourceEnabled, PlainId(level), ExceptionId(level))
    }

    /** Debug(logger, message) … Warn(logger, message). */
    method Log(level: LogLevel, logger: Option<string>, message: Option<string>)
      modifies this`trace
      ensures trace == old(trace) + PlainEvents(RouteOf(level), logger, message)
    {
      if IsLevelEnabled(level) {
        WriteEvent2(PlainId(level), logger, message);
      }
    }

    /** Debug(logger, message, exception) … Warn(logger, message, exception). */
    method LogWithException(level: LogLevel, logger: Option<string>, message: Option<string>, exception: Option<Exception>)
      modifies this`trace
      ensures trace == old(trace) + WithExceptionEvents(RouteOf(level), logger, message, exception)
    {
      if !IsLevelEnabled(level) {
        return;
      }
      if exception.None? {
        Log(level, logger, message);
      } else {
        var e := exception.value;
        LogException(level, logger, message, Some(e.typeFullName), Some(e.message), Some(e.text));
      }
    }

    /** Debug(logger, format, args) … Warn(logger, format, args): null args
        write nothing. */
    method LogFormat(level: LogLevel, logger: Option<string>, format: Option<string>, args: Option<seq<string>>)
      modifies this`trace
      ensures trace == old(trace) + FormatEvents(RouteOf(level), formatter, InvalidFormatErrorString, false, logger, format, args)
    {
      if !IsLevelEnabled(level) || format.None? || args.None? {
        return;
      }
      var formatted := formatter(format.value, args.value);
      match formatted {
        case Formatted(text) =>
          Log(level, logger, Some(text));
        case FormatFailed(ex) =>
          LogWithException(level, logger, Some(InvalidFormatErrorString + format.value), Some(ex));
      }
    }

    /** DebugException(logger, message, type, text, value) … WarnException. */
    method LogException(level: LogLevel, logger: Option<string>, message: Option<string>,
                        exceptionType: Option<string>, exceptionMessage: Option<string>, exceptionValue: Option<string>)
      modifies this`trace
      ensures trace == old(trace) + ExceptionEvents(RouteOf(level), logger, message, exceptionType, exceptionMessage, exceptionValue)
    {
      if IsLevelEnabled(level) {
        WriteEvent(ExceptionId(level), logger, message, exceptionType, exceptionMessage, exceptionValue);
      }
    }

    /** EventSource.WriteEvent(int, string, string). */
    method WriteEvent2(eventId: int, arg1: Option<string>, arg2: Option<string>)
      modifies this`trace
      ensures trace == old(trace) + Write(session.sourceEnabled, eventId, [arg1, arg2])
    {
      if session.sourceEnabled {
        trace := trace + [EventRecord(eventId, Payload([arg1, arg2]))];
      }
    }

    /** The five-string WriteEvent: nothing unless some session has the
        source on; each null argument becomes "", and each field is sized
        (Length + 1) * 2 in UTF-16 code units. */
    method WriteEvent(eventId: int, arg1: Option<string>, arg2: Option<string>, arg3: Option<string>,
                      arg4: Option<string>, arg5: Option<string>)
      modifies this`trace
      ensures trace == old(trace) + Write(session.sourceEnabled, eventId, [arg1, arg2, arg3, arg4, arg5])
    {
      if !session.sourceEnabled {
        return;
      }
      var s1 := NullAsEmpty(arg1);
      var s2 := NullAsEmpty(arg2);
      var s3 := NullAsEmpty(arg3);
      var s4 := NullAsEmpty(arg4);
      var s5 := NullAsEmpty(arg5);
      var data := [
        EventData(s1, (Utf16Length(s1) + 1) * 2),
        EventData(s2, (Utf16Length(s2) + 1) * 2),
        EventData(s3, (Utf16Length(s3) + 1) * 2),
        EventData(s4, (Utf16Length(s4) + 1) * 2),
        EventData(s5, (Utf16Length(s5) + 1) * 2)];
      PayloadOfFive(arg1, arg2, arg3, arg4, arg5);
      trace := trace + [EventRecord(eventId, data)];
    }
  }
}
