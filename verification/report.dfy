/** The bug report LogException assembles before handing it to the loggers.
    Everything it reads from the environment (product name, clock, computer
    and user name, OS, culture, screen size, up times, the memory status and
    the loaded modules) arrives as an opaque Diagnostics value. */
module Report {
  import opened Wrappers
  import opened Text
  import opened Exceptions

  /** C# ulong */
  type ulong = x: nat | x < 0x1_0000_0000_0000_0000

  /** The two MEMORYSTATUSEX fields the report prints. */
  datatype MemoryStatus = MemoryStatus(totalPhys: ulong, availPhys: ulong)

  /** A ProcessModule: its file name and FileVersionInfo.FileVersion (may be null). */
  datatype ProcessModule = ProcessModule(fileName: string, fileVersion: Option<string>)

  /** The environment facts, already rendered as text where the source formats
      them. `memory` is None when GlobalMemoryStatusEx fails. */
  datatype Diagnostics = Diagnostics(
    productName: string,
    productVersion: string,
    date: string,
    computerName: string,
    userName: string,
    osVersion: string,
    culture: string,
    resolution: string,
    systemUpTime: string,
    appUpTime: string,
    memory: Option<MemoryStatus>,
    modules: seq<ProcessModule>)

  const Megabyte: nat := 1024 * 1024
  const TotalMemoryCaption: string := "Total memory:      "
  const AvailableMemoryCaption: string := "Available memory:  "
  const ClassesHeading: string := "Exception classes:   "
  const MessagesHeading: string := "Exception messages: "
  const TracesHeading: string := "Stack Traces:"
  const ModulesHeading: string := "Loaded Modules:"

  /** The ten header lines, in the order they are appended. */
  function HeaderText(d: Diagnostics): string
  {
    var sb := AppendLine("", "Application:       " + d.productName);
    var sb := AppendLine(sb, "Version:           " + d.productVersion);
    var sb := AppendLine(sb, "Date:              " + d.date);
    var sb := AppendLine(sb, "Computer name:     " + d.computerName);
    var sb := AppendLine(sb, "User name:         " + d.userName);
    var sb := AppendLine(sb, "OS:                " + d.osVersion);
    var sb := AppendLine(sb, "Culture:           " + d.culture);
    var sb := AppendLine(sb, "Resolution:        " + d.resolution);
    var sb := AppendLine(sb, "System up time:    " + d.systemUpTime);
    AppendLine(sb, "App up time:       " + d.appUpTime)
  }

  /** One memory line: the byte count in whole megabytes (integer division). */
  function MemoryLine(caption: string, bytes: ulong): string
  {
    caption + DecimalDigits(bytes / Megabyte) + "Mb"
  }

  function ModuleLine(m: ProcessModule): string
  {
    m.fileName + " " + OrEmpty(m.fileVersion)
  }

  /** The foreach over the process modules: one AppendLine per module. */
  function AppendModules(sb: string, modules: seq<ProcessModule>): string
    decreases |modules|
  {
    if |modules| == 0 then sb
    else AppendModules(AppendLine(sb, ModuleLine(modules[0])), modules[1..])
  }

  /** The two memory lines are appended only when GlobalMemoryStatusEx succeeded. */
  function AppendMemory(sb: string, memory: Option<MemoryStatus>): string
  {
    match memory
    case Some(m) =>
      var sb := AppendLine(sb, MemoryLine(TotalMemoryCaption, m.totalPhys));
      AppendLine(sb, MemoryLine(AvailableMemoryCaption, m.availPhys))
    case None => sb
  }

  /** LogException's StringBuilder, from the first header line to the last module. */
  function BuildReport(d: Diagnostics, e: Exception): string
  {
    var sb := HeaderText(d);
    var sb := AppendMemory(sb, d.memory);
    var sb := AppendLine(sb, "");
    var sb := AppendLine(sb, ClassesHeading);
    var sb := sb + TypeStack(e);
    var sb := AppendLine(sb, "");
    var sb := AppendLine(sb, MessagesHeading);
    var sb := sb + MessageStack(e);
    var sb := AppendLine(sb, "");
    var sb := AppendLine(sb, TracesHeading);
    var sb := sb + OrEmpty(CallStack(e));
    var sb := AppendLine(sb, "");
    var sb := AppendLine(sb, ModulesHeading);
    AppendModules(sb, d.modules)
  }

  // The report as a list of sections.

  function ModuleLines(modules: seq<ProcessModule>): seq<string>
  {
    seq(|modules|, k requires 0 <= k < |modules| => ModuleLine(modules[k]))
  }

  /** A heading line followed by its content. */
  function Section(heading: string, content: string): string
  {
    heading + NewLine + content
  }

  /** The two memory lines, or nothing when the memory status is unavailable. */
  function MemorySection(memory: Option<MemoryStatus>): string
  {
    match memory
    case None => ""
    case Some(m) =>
      Terminated(MemoryLine(TotalMemoryCaption, m.totalPhys)) +
      Terminated(MemoryLine(AvailableMemoryCaption, m.availPhys))
  }

  /** Appending the modules adds one terminated line per module, in
      enumeration order, after what the builder already held. */
  lemma {:induction false} AppendModulesLines(sb: string, modules: seq<ProcessModule>)
    ensures AppendModules(sb, modules) == sb + ConcatMap(ModuleLines(modules), Terminated)
    decreases |modules|
  {
    if |modules| > 0 {
      var ls := ModuleLines(modules);
      assert ls[1..] == ModuleLines(modules[1..]);
      AppendModulesLines(AppendLine(sb, ModuleLine(modules[0])), modules[1..]);
    }
  }

  lemma SectionStep(sb: string, heading: string, content: string)
    ensures AppendLine(AppendLine(sb, ""), heading) + content == sb + NewLine + Section(heading, content)
  {
  }

  lemma AppendMemorySection(sb: string, memory: Option<MemoryStatus>)
    ensures AppendMemory(sb, memory) == sb + MemorySection(memory)
  {
  }

  /** The builder just before the module loop. */
  lemma BuildReportPrefix(d: Diagnostics, e: Exception)
    ensures
      var sb1 := HeaderText(d) + MemorySection(d.memory);
      var sb2 := sb1 + NewLine + Section(ClassesHeading, TypeStack(e));
      var sb3 := sb2 + NewLine + Section(MessagesHeading, MessageStack(e));
      var sb4 := sb3 + NewLine + Section(TracesHeading, OrEmpty(CallStack(e)));
      BuildReport(d, e) == AppendModules(AppendLine(AppendLine(sb4, ""), ModulesHeading), d.modules)
  {
    var sb1 := HeaderText(d) + MemorySection(d.memory);
    AppendMemorySection(HeaderText(d), d.memory);
    var sb2 := AppendLine(AppendLine(sb1, ""), ClassesHeading) + TypeStack(e);
    SectionStep(sb1, ClassesHeading, TypeStack(e));
    var sb3 := AppendLine(AppendLine(sb2, ""), MessagesHeading) + MessageStack(e);
    SectionStep(sb2, MessagesHeading, MessageStack(e));
    var sb4 := AppendLine(AppendLine(sb3, ""), TracesHeading) + OrEmpty(CallStack(e));
    SectionStep(sb3, TracesHeading, OrEmpty(CallStack(e)));
  }

  /** The report's sections in their fixed order: header, memory lines (if
      any), a blank line, then the exception classes, the exception messages,
      the stack traces and the loaded modules, each under its heading and
      separated from the next heading by one line terminator. */
  lemma ReportSections(d: Diagnostics, e: Exception)
    ensures BuildReport(d, e) ==
      HeaderText(d) + MemorySection(d.memory) + NewLine +
      Section(ClassesHeading, TypeStack(e)) + NewLine +
      Section(MessagesHeading, MessageStack(e)) + NewLine +
      Section(TracesHeading, OrEmpty(CallStack(e))) + NewLine +
      Section(ModulesHeading, ConcatMap(ModuleLines(d.modules), Terminated))
  {
    var sb1 := HeaderText(d) + MemorySection(d.memory);
    var sb2 := sb1 + NewLine + Section(ClassesHeading, TypeStack(e));
    var sb3 := sb2 + NewLine + Section(MessagesHeading, MessageStack(e));
    var sb4 := sb3 + NewLine + Section(TracesHeading, OrEmpty(CallStack(e)));
    var sb5 := AppendLine(AppendLine(sb4, ""), ModulesHeading);
    assert BuildReport(d, e) == AppendModules(sb5, d.modules) by {
      BuildReportPrefix(d, e);
    }
    var listing := ConcatMap(ModuleLines(d.modules), Terminated);
    SectionStep(sb4, ModulesHeading, listing);
    AppendModulesLines(sb5, d.modules);
  }

  /** Everything after the memory lines. */
  function ReportTail(e: Exception, modules: seq<ProcessModule>): string
  {
    NewLine +
    Section(ClassesHeading, TypeStack(e)) + NewLine +
    Section(MessagesHeading, MessageStack(e)) + NewLine +
    Section(TracesHeading, OrEmpty(CallStack(e))) + NewLine +
    Section(ModulesHeading, ConcatMap(ModuleLines(modules), Terminated))
  }

  lemma ReportSplit(d: Diagnostics, e: Exception)
    ensures BuildReport(d, e) == HeaderText(d) + MemorySection(d.memory) + ReportTail(e, d.modules)
  {
    ReportSections(d, e);
    Reassociate(HeaderText(d), MemorySection(d.memory), NewLine,
      Section(ClassesHeading, TypeStack(e)), Section(MessagesHeading, MessageStack(e)),
      Section(TracesHeading, OrEmpty(CallStack(e))),
      Section(ModulesHeading, ConcatMap(ModuleLines(d.modules), Terminated)));
  }

  lemma Reassociate(h: string, m: string, nl: string, s1: string, s2: string, s3: string, s4: string)
    ensures h + m + nl + s1 + nl + s2 + nl + s3 + nl + s4 == h + m + (nl + s1 + nl + s2 + nl + s3 + nl + s4)
  {
  }

  /** The memory lines appear exactly when the memory status was obtained,
      right after the header; without them the rest of the report is
      unchanged. */
  lemma MemoryLinesOptional(d: Diagnostics, e: Exception, memory: Option<MemoryStatus>)
    ensures BuildReport(d.(memory := memory), e) ==
      HeaderText(d) + MemorySection(memory) + ReportTail(e, d.modules)
    ensures MemorySection(memory) == "" <==> memory.None?
  {
    assert HeaderText(d.(memory := memory)) == HeaderText(d);
    ReportSplit(d.(memory := memory), e);
  }

  /** Each memory line prints the byte count divided by 1024 * 1024, rounded
      down, in decimal digits. */
  lemma MemoryLineValue(caption: string, bytes: ulong)
    ensures var s := MemoryLine(caption, bytes);
      var digits := s[|caption|..|s| - 2];
      |s| >= |caption| + 3 && StartsWith(s, caption) && EndsWith(s, "Mb") &&
      AllDigits(digits) &&
      DigitsValue(digits) * Megabyte <= bytes < (DigitsValue(digits) + 1) * Megabyte
  {
    var q := bytes / Megabyte;
    var digits := DecimalDigits(q);
    var s := MemoryLine(caption, bytes);
    assert s == caption + digits + "Mb";
    assert s[|caption|..|s| - 2] == digits;
    assert q * Megabyte <= bytes < (q + 1) * Megabyte;
  }
}
