# ExceptionLogger, modelled in Dafny

ExceptionLogger is a Windows Forms library that catches unhandled exceptions,
optionally asks the user whether to report them, builds a plain-text bug
report and hands that report to every registered logger (text file, e-mail,
website, event log). This project models the pure parts of that library as
functions and methods over sequences and strings and proves what they do:

- `exceptions.dfy` (`Exceptions`): the exception chain as an inductive
  datatype (each exception optionally wraps an inner one) and the three
  recursive renderings of it: the type stack, the message stack and the call
  stack. They are modelled literally, including the blank lines that
  `AppendLine` of an already terminated string produces from three nested
  exceptions on.
- `report.dfy` (`Report`): the layout of the report `LogException` builds:
  header lines, the optional memory lines, the three stacks and the module
  list, each under its heading.
- `logging.dfy` (`ExceptionLogging`): the logger registry, the notification
  policy (`Silent`, `Inform`, `Ask`; `Ask` by default), the decision
  `HandleException` takes, and the loop that calls every logger with the same
  report.
- `textfile.dfy` (`TextFile`): the read / truncate / rewrite / append logic of
  `TextFileLogger`.
- `email.dfy` (`Email`) and `website.dfy` (`Website`): the settings checks of
  `EmailLogger` and `WebsiteLogger` and the mail message and POST request they
  build.
- `text.dfy` (`Text`) and `wrappers.dfy` (`Wrappers`): the line terminator
  (`"\r\n"`, Windows), `StringBuilder.AppendLine`, null strings as `Option`,
  decimal rendering of `ulong` values, and `Option`/`Result`.

A .NET `null` string is `None`; appending or writing a null adds nothing (or
only the line terminator for `WriteLine`), which the model expresses with
`OrEmpty`. A thrown `ArgumentException` is a `Failure`.

Two consequences of the code that the model makes explicit:

- No exception from `LogError` is caught (ExceptionLogger.cs:217-220): the
  first logger that throws ends the loop, and the loggers after it are not
  called.
- The reader loop also stores the final `null` (TextFileLogger.cs:28-33), and
  it counts as one of the 500 entries, so an existing file keeps at most its
  last 499 lines, then an empty line, then the report.

The registry holds any `LoggerImplementation`: besides the library's four
loggers, an application-defined subclass (`CustomLogger`) and a null entry
(`NullLogger`), which `List.Add` accepts and which throws a
`NullReferenceException` when the loop reaches it.

## Model

| member | source | states |
|---|---|---|
| Exceptions.Chain | ExceptionLogger.cs:102-113 | following `InnerException` from an exception gives a finite chain that ends with the exception itself and starts with one that has no inner exception |
| Exceptions.ChainLinks | ExceptionLogger.cs:102-113 | every exception of the chain wraps the one listed before it, so the chain runs innermost first |
| Exceptions.TypeStackLayout | ExceptionLogger.cs:102-113 | `TypeStack` (GetExceptionTypeStack): for a chain of N exceptions, N type names, each behind three spaces, innermost first; the first has nothing before it, and each later one sits between two line terminators |
| Exceptions.MessageStackLayout | ExceptionLogger.cs:115-126 | `MessageStack` (GetExceptionMessageStack): the same layout over the exception messages |
| Exceptions.IndentedStackLayout | ExceptionLogger.cs:102-126 | for a chain of N exceptions, the type stack and the message stack hold N labels, each behind three spaces, innermost first: the first label has nothing before it, and each later label sits between two line terminators |
| Exceptions.SingleExceptionStack | ExceptionLogger.cs:102-126 | an exception without an inner exception renders as its indented label alone, with no line terminator; one with an inner exception never does |
| Exceptions.StackStartsInnermost | ExceptionLogger.cs:102-126 | a type or message stack begins with the label of the innermost exception |
| Exceptions.StackEndsOutermost | ExceptionLogger.cs:102-126 | from two exceptions on, the stack ends with the outermost label on its own terminated line; from three on, a blank line comes right before that line |
| Exceptions.CallStackLayout | ExceptionLogger.cs:128-140 | `CallStack` (GetExceptionCallStack): for a chain of N exceptions, the call stack is the innermost trace followed by N - 1 pieces, each a `--- Next Call Stack:` line followed by the trace of the next exception outward; it is null only for a single exception with a null trace |
| Text.DecimalDigits | ExceptionLogger.cs:194-195 | an unsigned value prints as decimal digits whose value is that number; only the value 0 starts with `0`, and then the text is `0` alone |
| Report.AppendModulesLines | ExceptionLogger.cs:211-215 | the module loop adds one terminated line per loaded module, in enumeration order, after what the report already holds |
| Report.ReportSections | ExceptionLogger.cs:177-215 | `BuildReport` (the report LogException builds) is, in this order: header lines, memory lines if any, a blank line, "Exception classes:" with the type stack, "Exception messages:" with the message stack, "Stack Traces:" with the call stack, then "Loaded Modules:" with one line per module |
| Report.MemoryLinesOptional | ExceptionLogger.cs:191-196 | the memory lines appear right after the header exactly when the memory status was obtained; the header and everything after the memory lines are the same either way |
| Report.MemoryLineValue | ExceptionLogger.cs:194-195 | each memory line is its caption, the byte count divided by 1024 * 1024 rounded down in decimal, and "Mb" |
| ExceptionLogging.NewExceptionLogger | ExceptionLogger.cs:44-64 | a new logger has no registered loggers and the notification type `Ask` |
| ExceptionLogging.AddLogger | ExceptionLogger.cs:56-59 | adding a logger appends it at the end; earlier loggers keep their order, duplicates are kept and nothing is removed |
| ExceptionLogging.RegistrationOrder | ExceptionLogger.cs:51-59 | after adding several loggers, the registry is the earlier registry followed by those loggers in the order they were added |
| ExceptionLogging.HandleException | ExceptionLogger.cs:67-87 | under `Ask` a "No" schedules nothing; in every other case exactly one LogException of the same exception is scheduled; the prompt text is shown under `Ask` and `Inform` only |
| ExceptionLogging.MisconfiguredMeansRejected | ExceptionLogger.cs:217-220 | `LogErrorOutcome`: a logger call fails because of its settings exactly when the e-mail or website logger rejects its settings, with the same exception, whatever the report says; file, event-log and application-defined loggers fail only when their own work does; a null entry always throws a null reference |
| ExceptionLogging.Dispatch | ExceptionLogger.cs:217-220 | loggers are called in registry order, each with the same report; if none throws, all are called once and none failed; if one throws, it is the last logger called, every logger before it succeeded, and the loggers after it are not called |
| ExceptionLogging.LogException | ExceptionLogger.cs:175-221 | given the collected environment facts, the report is built once and dispatched exactly as in `Dispatch`; when no logger fails, every registered logger receives the report once, in order, and no logger throws |
| ExceptionLogging.OnException | ExceptionLogger.cs:67-87 | under `Ask` with "No", no report is built and no logger is called; otherwise, given the collected environment facts, the report of this exception is dispatched exactly as in `Dispatch`, so with no failing logger every registered logger receives it |
| TextFile.WriteStart | TextFileLogger.cs:37-40 | rewriting starts at `max(0, count - 500)`, so at most 500 entries are written back and none is dropped when there are at most 500 |
| TextFile.ReadLines | TextFileLogger.cs:19-35 | reading an existing file gives every line in order followed by one trailing null; a missing file gives an empty list |
| TextFile.LogError | TextFileLogger.cs:14-52 | the file afterwards holds the retained entries, each on its own line, in order, and then the report once, with no line terminator of its own |
| TextFile.RetainedIsLatest | TextFileLogger.cs:37-47 | the retained entries are what is left of the read entries after dropping a prefix; there are at most 500 of them, and all entries are kept when there are at most 500 |
| TextFile.RewrittenFile | TextFileLogger.cs:23-50 | an existing file keeps at most its last 499 lines, each terminated, followed by one empty line and the report, so a 600-line file keeps its last 499 lines; a missing file ends up holding just the report |
| Email.LogError | EmailLogger.cs:12-27 | a null or empty EmailFrom, EmailTo or EmailServer is reported with its named message, checked in that order; otherwise the message goes from EmailFrom to EmailTo with the fixed subject and the report unchanged as its body, via EmailServer |
| Email.CheckSettings | EmailLogger.cs:15-20 | the guards fail exactly when some setting is null or empty, and the exception names the first such setting in the order EmailFrom, EmailTo, EmailServer |
| Email.FirstMissingSettingReported | EmailLogger.cs:15-20 | a message is built only when no setting is missing; otherwise the error names the first missing setting in the order From, To, Server |
| Email.SettingsCheckIgnoresReport | EmailLogger.cs:15-20 | whether and how the settings check fails does not depend on the report |
| Website.LogError | WebsiteLogger.cs:14-41 | a null or empty Url fails first with its named message, then a null or empty QueryString; otherwise the request goes to Url as a form-encoded POST, and its ContentLength equals the length of the body it sends |
| Website.CheckSettings | WebsiteLogger.cs:16-19 | the guards fail exactly when Url or QueryString is null or empty, and the exception names the first such setting, Url before QueryString |
| Website.FormatWithoutSlot | WebsiteLogger.cs:28 | `Format` (string.Format with one argument) leaves a template with no `{0}` slot unchanged |
| Website.FormatAroundSlot | WebsiteLogger.cs:28 | in `Format`, the argument takes the place of a `{0}` slot; the text on either side of it is formatted separately |
| Website.SingleSlotBody | WebsiteLogger.cs:26-40 | with a one-slot template, the body is the encoding of the text before the slot, then the URL-encoded report, then the text after the slot |
| Website.OnlyEncodedErrorSent | WebsiteLogger.cs:28 | two reports with the same URL encoding produce the same request: the raw report text never enters the request |

## Left out

- EventLogLogger.cs: it only calls the operating system's event log API. In the model, its logger can fail only through its transport.
- Application-defined loggers: what a `LoggerImplementation` subclass does is unknown code. `CustomLogger` is only a registry entry whose call fails or not according to the per-position failure input.
- The subscription to `Application.ThreadException` and `AppDomain.UnhandledException`, and the two event handlers that forward to `HandleException` (ExceptionLogger.cs:46-47, 91-100): this is host wiring with no logic of its own.
- Message boxes: the user's Yes/No answer is an input to `HandleException`. The `Inform` box's return value is ignored, as in the source.
- `Task.Run`: in the model, the scheduled `LogException` runs synchronously. Concurrent captures and their interleaving are not modelled.
- The `lock` in `TextFileLogger`: one `LogError` call is treated as atomic.
- Environment facts (product name and version, date formatting, computer and user name, OS version, culture, screen size, the performance-counter system up time, the process up time) are opaque strings. The loaded modules are an opaque list. The `GlobalMemoryStatusEx` call is an optional memory status.
- ExceptionLogging.LogException: assumes collecting the environment facts succeeds. In the source, the performance counter (ExceptionLogger.cs:144-146), the process start time (ExceptionLogger.cs:189) or the module list (ExceptionLogger.cs:212) can throw while the report is built. That ends LogException before any logger is called. The promise that every logger receives the report when none fails holds only when collection succeeds; the same applies to ExceptionLogging.OnException.
- Transport I/O (SMTP submission and credentials, the HTTP request and response, file access and the path of BugReport.txt) is left out. Whether a logger's transport throws is an input per registry position.
- How `StreamReader.ReadLine` splits text into lines: the file is read as a list of lines, and the rewritten file is a single text.
- `new Uri(Url)` and `MailMessage` address parsing can throw on malformed values. These failures are not modelled separately; they fall under the transport-failure input.
- `HttpUtility.UrlEncode` and `Encoding.Default` are uninterpreted function parameters.
- Website.SingleSlotBody: states the body only for a template with exactly one `{0}` slot. The formatting function replaces every `{0}`. It does not model the full composite-format grammar of `string.Format` (brace escapes, other argument indices, `FormatException`).
- Mutable logger properties: each logger's settings are the values at the time of the call.
- Failures in the dispatch loop are not caught, observed or retried anywhere. The model says so and claims no isolation between loggers.
