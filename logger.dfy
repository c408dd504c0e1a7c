/** Logger: the NServiceBus ILog adapter that tags every call with a logger
    name and forwards it to the ETW façade. */
module LoggerAdapter {
  import opened Wrappers
  import opened Primitives
  import opened Tracing
  import opened Routing
  import opened LoggerBase

  /** ArgumentNullException and the parameter it names. */
  datatype ArgumentError = ArgumentNull(paramName: string)

  const DefaultLoggerName: string := "Default"

  /** The name a logger is created with: "Default" for a null or blank
      name, the given name unchanged otherwise. */
  function EffectiveLoggerName(loggerName: Option<string>): (name: string)
    ensures IsNullOrWhiteSpace(loggerName) ==> name == DefaultLoggerName
    ensures !IsNullOrWhiteSpace(loggerName) ==> name == loggerName.value
  {
    if IsNullOrWhiteSpace(loggerName) then DefaultLoggerName else loggerName.value
  }

  /** The effective name is never blank, and naming a logger after its own
      effective name changes nothing. */
  lemma EffectiveLoggerNameNonBlank(loggerName: Option<string>)
    ensures !IsBlank(EffectiveLoggerName(loggerName))
    ensures EffectiveLoggerName(Some(EffectiveLoggerName(loggerName))) == EffectiveLoggerName(loggerName)
  {
    if IsNullOrWhiteSpace(loggerName) {
      assert !IsWhiteSpace(DefaultLoggerName[0]);
    }
  }

  class Logger {
    const eventSourceLogger: EventSourceLoggerBase
    const loggerName: string

    constructor Init(eventSourceLogger: EventSourceLoggerBase, loggerName: Option<string>)
      ensures this.eventSourceLogger == eventSourceLogger
      ensures this.loggerName == EffectiveLoggerName(loggerName)
    {
      this.eventSourceLogger := eventSourceLogger;
      this.loggerName := if IsNullOrWhiteSpace(loggerName) then DefaultLoggerName else loggerName.value;
    }

    /** new Logger(eventSourceLogger, loggerName): a null façade throws
        ArgumentNullException. */
    static method Create(eventSourceLogger: EventSourceLoggerBase?, loggerName: Option<string>) returns (r: Result<Logger, ArgumentError>)
      ensures eventSourceLogger == null <==> r == Failure(ArgumentNull("eventSourceLogger"))
      ensures r.Success? ==>
                (&& fresh(r.value) && r.value.eventSourceLogger == eventSourceLogger
                 && r.value.loggerName == EffectiveLoggerName(loggerName))
    {
      if eventSourceLogger == null {
        return Failure(ArgumentNull("eventSourceLogger"));
      }
      var logger := new Logger.Init(eventSourceLogger, loggerName);
      return Success(logger);
    }

    /** IsDebugEnabled … IsWarnEnabled: the façade's flag, which is the
        flag the forwarded calls are gated by. */
    predicate IsLevelEnabled(level: LogLevel)
      reads eventSourceLogger
      ensures IsLevelEnabled(level) <==> eventSourceLogger.RouteOf(level).levelEnabled
      ensures IsLevelEnabled(level) ==> eventSourceLogger.session.sourceEnabled
    {
      eventSourceLogger.IsLevelEnabled(level)
    }

    /** Debug(message) … Warn(message). */
    method Log(level: LogLevel, message: Option<string>)
      modifies eventSourceLogger`trace
      ensures eventSourceLogger.trace == old(eventSourceLogger.trace) + PlainEvents(eventSourceLogger.RouteOf(level), Some(loggerName), message)
    {
      eventSourceLogger.Log(level, Some(loggerName), message);
    }

    /** Debug(message, exception) … Warn(message, exception). */
    method LogWithException(level: LogLevel, message: Option<string>, exception: Option<Exception>)
      modifies eventSourceLogger`trace
      ensures eventSourceLogger.trace
           == old(eventSourceLogger.trace) + WithExceptionEvents(eventSourceLogger.RouteOf(level), Some(loggerName), message, exception)
    {
      eventSourceLogger.LogWithException(level, Some(loggerName), message, exception);
    }

    /** DebugFormat(format, args) … WarnFormat(format, args). */
    method LogFormat(level: LogLevel, format: Option<string>, args: Option<seq<string>>)
      modifies eventSourceLogger`trace
      ensures eventSourceLogger.trace == old(eventSourceLogger.trace)
        + FormatEvents(eventSourceLogger.RouteOf(level), eventSourceLogger.formatter, eventSourceLogger.invalidFormatErrorString, true,
                       Some(loggerName), format, args)
    {
      eventSourceLogger.LogFormat(level, Some(loggerName), format, args);
    }
  }

  /** Every record a logger writes carries its own name as the first
      field, so a blank or missing name never reaches ETW. */
  lemma LoggerNameInEveryRecord(r: Route, loggerName: Option<string>, message: Option<string>, exception: Option<Exception>)
    ensures forall rec :: rec in WithExceptionEvents(r, Some(EffectiveLoggerName(loggerName)), message, exception) ==>
      |rec.payload| >= 2 && rec.payload[0].text == EffectiveLoggerName(loggerName) && !IsBlank(rec.payload[0].text)
  {
    EffectiveLoggerNameNonBlank(loggerName);
  }
}
