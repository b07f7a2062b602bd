/** The ExceptionLogger class: its logger registry, its notification policy,
    the decision HandleException takes before scheduling LogException, and the
    loop in LogException that hands the report to every registered logger.
    Message boxes become the user's answer as an input, the background task
    becomes a synchronous call, and whether a logger's transport fails is an
    input per logger position. */
module ExceptionLogging {
  import opened Wrappers
  import opened Exceptions
  import opened Report
  import Email
  import Website

  datatype NotificationType = Silent | Inform | Ask

  datatype DialogResult = Yes | No

  /** An entry of the registry: one of the library's logger implementations,
      a LoggerImplementation subclass the application defines itself (known
      here only by a name), or a null reference, which List.Add accepts. */
  datatype Logger =
    | TextFileLogger
    | EventLogLogger
    | EmailLogger(email: Email.EmailLogger)
    | WebsiteLogger(website: Website.WebsiteLogger)
    | CustomLogger(name: string)
    | NullLogger

  datatype ExceptionLogger = ExceptionLogger(loggers: seq<Logger>, notificationType: NotificationType)

  /** The message box HandleException shows, if any. */
  datatype Prompt = AskToLog(text: string) | Notify(text: string)

  /** What HandleException does: the prompt it shows and the LogException
      calls it schedules. */
  datatype Handling = Handling(prompt: Option<Prompt>, scheduled: seq<Exception>)

  /** Why calling a logger threw: a missing setting, an exception from the
      logger's own work after its checks (its transport, or anything an
      application-defined logger does), or a call through a null entry. */
  datatype LoggerFailure =
    | Misconfigured(exception: ArgumentException)
    | TransportFailed
    | NullReference

  /** One call of LogError: the position of the logger in the registry, the
      logger and the text it received. */
  datatype Delivery = Delivery(index: nat, logger: Logger, report: string)

  /** The exception that ended the dispatch loop and the position it came from. */
  datatype Thrown = Thrown(index: nat, failure: LoggerFailure)

  /** A freshly constructed ExceptionLogger. */
  function NewExceptionLogger(): (x: ExceptionLogger)
    ensures x.loggers == []
    ensures x.notificationType == Ask
  {
    ExceptionLogger([], Ask)
  }

  /** AddLogger: List.Add on the registry. */
  function AddLogger(x: ExceptionLogger, logger: Logger): (y: ExceptionLogger)
    ensures |y.loggers| == |x.loggers| + 1
    ensures y.loggers[..|x.loggers|] == x.loggers
    ensures y.loggers[|x.loggers|] == logger
    ensures multiset(y.loggers) == multiset(x.loggers) + multiset{logger}
    ensures y.notificationType == x.notificationType
  {
    x.(loggers := x.loggers + [logger])
  }

  /** Registering several loggers one after the other. */
  function AddLoggers(x: ExceptionLogger, loggers: seq<Logger>): ExceptionLogger
    decreases |loggers|
  {
    if |loggers| == 0 then x
    else AddLoggers(AddLogger(x, loggers[0]), loggers[1..])
  }

  /** The registry is exactly the loggers in the order they were added,
      duplicates included. */
  lemma {:induction false} RegistrationOrder(x: ExceptionLogger, loggers: seq<Logger>)
    ensures AddLoggers(x, loggers).loggers == x.loggers + loggers
    ensures AddLoggers(x, loggers).notificationType == x.notificationType
    decreases |loggers|
  {
    if |loggers| > 0 {
      RegistrationOrder(AddLogger(x, loggers[0]), loggers[1..]);
      assert [loggers[0]] + loggers[1..] == loggers;
    }
  }

  /** The decision part of HandleException. `answer` is the button the user
      presses in the Yes/No box and matters only under Ask. */
  function HandleException(t: NotificationType, e: Exception, answer: DialogResult): (h: Handling)
    ensures h.scheduled == [] <==> t == Ask && answer == No
    ensures h.scheduled != [] ==> h.scheduled == [e]
    ensures h.prompt.None? <==> t == Silent
    ensures t == Ask ==>
      h.prompt == Some(AskToLog("An unexpected error occurred - " + e.message + ". Do you wish to log the error?"))
    ensures t == Inform ==> h.prompt == Some(Notify("An unexpected error occurred - " + e.message))
  {
    match t
    case Ask =>
      var prompt := Some(AskToLog("An unexpected error occurred - " + e.message + ". Do you wish to log the error?"));
      if answer == No then Handling(prompt, []) else Handling(prompt, [e])
    case Inform =>
      Handling(Some(Notify("An unexpected error occurred - " + e.message)), [e])
    case Silent =>
      Handling(None, [e])
  }

  /** Whether and why LogError throws: a missing setting of the e-mail or
      website logger, otherwise a failure of the underlying transport. */
  function LogErrorOutcome(l: Logger, transportFails: bool): Option<LoggerFailure>
  {
    match l
    case EmailLogger(s) =>
      if Email.CheckSettings(s).Some? then Some(Misconfigured(Email.CheckSettings(s).value))
      else if transportFails then Some(TransportFailed) else None
    case WebsiteLogger(s) =>
      if Website.CheckSettings(s).Some? then Some(Misconfigured(Website.CheckSettings(s).value))
      else if transportFails then Some(TransportFailed) else None
    case TextFileLogger => if transportFails then Some(TransportFailed) else None
    case EventLogLogger => if transportFails then Some(TransportFailed) else None
    case CustomLogger(_) => if transportFails then Some(TransportFailed) else None
    case NullLogger => Some(NullReference)
  }

  /** The settings failures the dispatch loop sees are exactly the
      ArgumentExceptions the e-mail and website loggers throw for the report,
      whatever the report says; the other loggers fail only through their own
      work, and a null entry always throws. */
  lemma MisconfiguredMeansRejected(l: Logger, report: string, transportFails: bool,
                                   urlEncode: string -> string, encode: string -> seq<Website.byte>)
    ensures l.EmailLogger? ==>
      ((exists x :: LogErrorOutcome(l, transportFails) == Some(Misconfigured(x))) <==>
        Email.LogError(l.email, report).Failure?)
    ensures l.EmailLogger? && Email.LogError(l.email, report).Failure? ==>
      LogErrorOutcome(l, transportFails) == Some(Misconfigured(Email.LogError(l.email, report).error))
    ensures l.WebsiteLogger? ==>
      ((exists x :: LogErrorOutcome(l, transportFails) == Some(Misconfigured(x))) <==>
        Website.LogError(l.website, report, urlEncode, encode).Failure?)
    ensures l.WebsiteLogger? && Website.LogError(l.website, report, urlEncode, encode).Failure? ==>
      LogErrorOutcome(l, transportFails) ==
        Some(Misconfigured(Website.LogError(l.website, report, urlEncode, encode).error))
    ensures l.TextFileLogger? || l.EventLogLogger? || l.CustomLogger? ==>
      (LogErrorOutcome(l, transportFails).None? <==> !transportFails)
    ensures !l.NullLogger? ==> LogErrorOutcome(l, transportFails) != Some(NullReference)
    ensures l.NullLogger? ==> LogErrorOutcome(l, transportFails) == Some(NullReference)
  {
  }

  /** What the dispatch loop produces: a call of each logger in registry
      order with the same report, stopping at the first one that throws.
      Without a throw, every logger was called once and none failed; with
      one, it came from the last logger called and all before it succeeded. */
  predicate DispatchedAsLoop(loggers: seq<Logger>, report: string, transportFails: nat -> bool,
                             calls: seq<Delivery>, thrown: Option<Thrown>)
  {
    && |calls| <= |loggers|
    && (forall k :: 0 <= k < |calls| ==> calls[k] == Delivery(k, loggers[k], report))
    && (thrown.None? ==>
         && |calls| == |loggers|
         && forall k :: 0 <= k < |loggers| ==> LogErrorOutcome(loggers[k], transportFails(k)).None?)
    && (thrown.Some? ==>
         && thrown.value.index == |calls| - 1
         && LogErrorOutcome(loggers[thrown.value.index], transportFails(thrown.value.index)) == Some(thrown.value.failure)
         && forall k :: 0 <= k < |calls| - 1 ==> LogErrorOutcome(loggers[k], transportFails(k)).None?)
  }

  /** The for loop at the end of LogException. Nothing catches an exception
      from a logger, so the first one that throws ends the loop and the
      loggers after it are never called. */
  method Dispatch(loggers: seq<Logger>, report: string, transportFails: nat -> bool)
    returns (calls: seq<Delivery>, thrown: Option<Thrown>)
    ensures DispatchedAsLoop(loggers, report, transportFails, calls, thrown)
  {
    calls := [];
    thrown := None;
    var i := 0;
    while i < |loggers|
      invariant 0 <= i <= |loggers|
      invariant |calls| == i
      invariant forall k :: 0 <= k < i ==> calls[k] == Delivery(k, loggers[k], report)
      invariant forall k :: 0 <= k < i ==> LogErrorOutcome(loggers[k], transportFails(k)).None?
    {
      calls := calls + [Delivery(i, loggers[i], report)];
      var outcome := LogErrorOutcome(loggers[i], transportFails(i));
      if outcome.Some? {
        thrown := Some(Thrown(i, outcome.value));
        return;
      }
      i := i + 1;
    }
  }

  /** LogException: build the report once and hand the same text to the loggers. */
  method LogException(x: ExceptionLogger, e: Exception, d: Diagnostics, transportFails: nat -> bool)
    returns (report: string, calls: seq<Delivery>, thrown: Option<Thrown>)
    ensures report == BuildReport(d, e)
    ensures DispatchedAsLoop(x.loggers, report, transportFails, calls, thrown)
    ensures (forall i :: 0 <= i < |x.loggers| ==> LogErrorOutcome(x.loggers[i], transportFails(i)).None?) ==>
      thrown.None? && calls == seq(|x.loggers|, k requires 0 <= k < |x.loggers| => Delivery(k, x.loggers[k], report))
  {
    report := BuildReport(d, e);
    calls, thrown := Dispatch(x.loggers, report, transportFails);
  }

  /** An unhandled exception arriving at the logger: the decision, then (when
      it schedules one) the LogException call, run to completion. */
  method OnException(x: ExceptionLogger, e: Exception, answer: DialogResult, d: Diagnostics,
                     transportFails: nat -> bool)
    returns (h: Handling, report: Option<string>, calls: seq<Delivery>, thrown: Option<Thrown>)
    ensures h == HandleException(x.notificationType, e, answer)
    ensures report.None? <==> x.notificationType == Ask && answer == No
    ensures report.None? ==> calls == [] && thrown.None?
    ensures report.Some? ==>
      && report.value == BuildReport(d, e)
      && DispatchedAsLoop(x.loggers, report.value, transportFails, calls, thrown)
    ensures report.Some? && (forall i :: 0 <= i < |x.loggers| ==> LogErrorOutcome(x.loggers[i], transportFails(i)).None?) ==>
      thrown.None? && |calls| == |x.loggers|
  {
    h := HandleException(x.notificationType, e, answer);
    calls := [];
    thrown := None;
    report := None;
    if h.scheduled != [] {
      var r;
      r, calls, thrown := LogException(x, h.scheduled[0], d, transportFails);
      report := Some(r);
    }
  }
}
