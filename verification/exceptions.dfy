/** The causal chain of an exception and the three renderings of it that
    ExceptionLogger puts into a report: the type stack, the message stack and
    the call stack. Each rendering recurses into the inner exception first, so
    the innermost cause is printed first and the outermost last. */
module Exceptions {
  import opened Wrappers
  import opened Text

  /** A .NET exception as far as the report sees it. A null StackTrace (an
      exception that was never thrown) is None. */
  datatype Exception = Exception(
    typeName: string,
    message: string,
    stackTrace: Option<string>,
    innerException: Option<Exception>)

  /** The ArgumentException a logger throws when one of its settings is missing. */
  datatype ArgumentException = ArgumentException(message: string)

  const Indent: string := "   "
  const NextCallStack: string := "--- Next Call Stack:"

  /** The chain of nested exceptions, innermost first and `e` itself last. */
  function Chain(e: Exception): (c: seq<Exception>)
    ensures |c| >= 1 && c[|c| - 1] == e
    ensures c[0].innerException.None?
  {
    match e.innerException
    case None => [e]
    case Some(inner) => Chain(inner) + [e]
  }

  /** Each exception of the chain wraps the one before it. */
  lemma {:induction false} ChainLinks(e: Exception)
    ensures var c := Chain(e);
      forall k {:trigger c[k].innerException} :: 0 < k < |c| ==> c[k].innerException == Some(c[k - 1])
  {
    match e.innerException
    case None =>
    case Some(inner) =>
      ChainLinks(inner);
      assert Chain(e) == Chain(inner) + [e];
  }

  /** Which line of an exception a stack shows. */
  datatype Field = TypeField | MessageField

  /** e.GetType().ToString() or e.Message */
  function Label(x: Exception, field: Field): string
  {
    match field
    case TypeField => x.typeName
    case MessageField => x.message
  }

  /** The recursion shared by GetExceptionTypeStack and GetExceptionMessageStack:
      a fresh builder receives AppendLine(rendering of the inner exception),
      then AppendLine(indented label of this exception). */
  function IndentedStack(e: Exception, field: Field): string
  {
    match e.innerException
    case Some(inner) =>
      var sb := AppendLine("", IndentedStack(inner, field));
      AppendLine(sb, Indent + Label(e, field))
    case None => Indent + Label(e, field)
  }

  /** GetExceptionTypeStack */
  function TypeStack(e: Exception): string
  {
    IndentedStack(e, TypeField)
  }

  /** GetExceptionMessageStack */
  function MessageStack(e: Exception): string
  {
    IndentedStack(e, MessageField)
  }

  /** GetExceptionCallStack: None when the chain is a single exception whose
      StackTrace is null. */
  function CallStack(e: Exception): Option<string>
  {
    match e.innerException
    case Some(inner) =>
      var sb := AppendLine("", OrEmpty(CallStack(inner)));
      var sb := AppendLine(sb, NextCallStack);
      Some(AppendLine(sb, OrEmpty(e.stackTrace)))
    case None => e.stackTrace
  }

  // Reference layout: a first entry followed by one decorated piece per
  // further entry, assembled front to back.

  /** An entry after the first in a type or message stack. */
  function Framed(s: string): string
  {
    NewLine + s + NewLine
  }

  /** A stack trace after the first in a call stack, under its marker line. */
  function NextFrame(trace: string): string
  {
    NewLine + NextCallStack + NewLine + trace + NewLine
  }

  /** The indented label of every exception of a chain, in chain order. */
  function Labels(c: seq<Exception>, field: Field): seq<string>
  {
    seq(|c|, k requires 0 <= k < |c| => Indent + Label(c[k], field))
  }

  /** The stack trace of every exception of a chain, null read as empty. */
  function Traces(c: seq<Exception>): seq<string>
  {
    seq(|c|, k requires 0 <= k < |c| => OrEmpty(c[k].stackTrace))
  }

  lemma LabelsSnoc(c: seq<Exception>, e: Exception, field: Field)
    ensures Labels(c + [e], field) == Labels(c, field) + [Indent + Label(e, field)]
  {
  }

  lemma TracesSnoc(c: seq<Exception>, e: Exception)
    ensures Traces(c + [e]) == Traces(c) + [OrEmpty(e.stackTrace)]
  {
  }

  /** For a chain of N exceptions the stack holds N indented labels, the
      innermost first with nothing before it, each later one framed by line
      terminators, the outermost last. */
  lemma {:induction false} IndentedStackLayout(e: Exception, field: Field)
    ensures var ls := Labels(Chain(e), field);
      |ls| == |Chain(e)| &&
      IndentedStack(e, field) == ls[0] + ConcatMap(ls[1..], Framed)
  {
    match e.innerException
    case None =>
      assert Chain(e) == [e];
      assert Labels(Chain(e), field)[1..] == [];
    case Some(inner) =>
      IndentedStackLayout(inner, field);
      var li := Labels(Chain(inner), field);
      var x := Indent + Label(e, field);
      var ls := Labels(Chain(e), field);
      assert Chain(e) == Chain(inner) + [e];
      LabelsSnoc(Chain(inner), e, field);
      assert ls[1..] == li[1..] + [x];
      ConcatMapSnoc(li[1..], x, Framed);
      assert ls[0] == li[0];
      var si := IndentedStack(inner, field);
      var rest := ConcatMap(li[1..], Framed);
      AppendFramed(si, x);
      assert IndentedStack(e, field) == si + Framed(x);
      assert si == li[0] + rest;
      ConcatAssoc(li[0], rest, Framed(x));
  }

  /** The type stack holds the indented type name of every exception of the
      chain, innermost first, each after the first between two line
      terminators. */
  lemma TypeStackLayout(e: Exception)
    ensures var ls := Labels(Chain(e), TypeField);
      |ls| == |Chain(e)| &&
      (forall k :: 0 <= k < |ls| ==> ls[k] == Indent + Chain(e)[k].typeName) &&
      TypeStack(e) == ls[0] + ConcatMap(ls[1..], Framed)
  {
    IndentedStackLayout(e, TypeField);
  }

  /** The message stack: the same layout over the exception messages. */
  lemma MessageStackLayout(e: Exception)
    ensures var ls := Labels(Chain(e), MessageField);
      |ls| == |Chain(e)| &&
      (forall k :: 0 <= k < |ls| ==> ls[k] == Indent + Chain(e)[k].message) &&
      MessageStack(e) == ls[0] + ConcatMap(ls[1..], Framed)
  {
    IndentedStackLayout(e, MessageField);
  }

  /** A one-exception stack is the indented label alone, with no line
      terminator added; a longer stack is never just that. */
  lemma SingleExceptionStack(e: Exception, field: Field)
    ensures e.innerException.None? <==> IndentedStack(e, field) == Indent + Label(e, field)
  {
    match e.innerException
    case None =>
    case Some(inner) =>
      assert |IndentedStack(e, field)| > |Indent + Label(e, field)|;
  }

  /** The stack starts with the label of the innermost exception. */
  lemma StackStartsInnermost(e: Exception, field: Field)
    ensures StartsWith(IndentedStack(e, field), Indent + Label(Chain(e)[0], field))
  {
    IndentedStackLayout(e, field);
  }

  /** From two exceptions on, the stack ends with the outermost label on its
      own terminated line; from three on, that line follows a blank line. */
  lemma {:induction false} StackEndsOutermost(e: Exception, field: Field)
    ensures |Chain(e)| >= 2 ==> EndsWith(IndentedStack(e, field), Framed(Indent + Label(e, field)))
    ensures |Chain(e)| >= 3 ==> EndsWith(IndentedStack(e, field), NewLine + Framed(Indent + Label(e, field)))
  {
    match e.innerException
    case None =>
    case Some(inner) =>
      var si := IndentedStack(inner, field);
      var tail := Framed(Indent + Label(e, field));
      AppendFramed(si, Indent + Label(e, field));
      assert IndentedStack(e, field) == si + tail;
      EndsWithAppend(si, "", tail);
      if |Chain(e)| >= 3 {
        assert Chain(e) == Chain(inner) + [e];
        StackEndsOutermost(inner, field);
        EndsWithShorter(si, Framed(Indent + Label(inner, field)), NewLine);
        EndsWithAppend(si, NewLine, tail);
      }
  }

  lemma AppendFramed(si: string, x: string)
    ensures AppendLine(AppendLine("", si), x) == si + Framed(x)
  {
  }

  lemma AppendNextFrame(si: string, x: string)
    ensures AppendLine(AppendLine(AppendLine("", si), NextCallStack), x) == si + NextFrame(x)
  {
  }

  /** For a chain of N exceptions the call stack is the innermost trace
      followed by N - 1 pieces, each a "--- Next Call Stack:" line and then
      the trace of the next exception outwards. */
  lemma {:induction false} CallStackLayout(e: Exception)
    ensures var ts := Traces(Chain(e));
      |ts| == |Chain(e)| &&
      OrEmpty(CallStack(e)) == ts[0] + ConcatMap(ts[1..], NextFrame)
    ensures CallStack(e).None? <==> e.innerException.None? && e.stackTrace.None?
  {
    match e.innerException
    case None =>
      assert Chain(e) == [e];
      assert Traces(Chain(e))[1..] == [];
    case Some(inner) =>
      CallStackLayout(inner);
      var ti := Traces(Chain(inner));
      var x := OrEmpty(e.stackTrace);
      var ts := Traces(Chain(e));
      assert Chain(e) == Chain(inner) + [e];
      TracesSnoc(Chain(inner), e);
      assert ts[1..] == ti[1..] + [x];
      ConcatMapSnoc(ti[1..], x, NextFrame);
      var si := OrEmpty(CallStack(inner));
      assert CallStack(e) == Some(AppendLine(AppendLine(AppendLine("", si), NextCallStack), x));
      AppendNextFrame(si, x);
      assert ts[0] == ti[0];
      var rest := ConcatMap(ti[1..], NextFrame);
      assert OrEmpty(CallStack(e)) == si + NextFrame(x);
      assert si == ti[0] + rest;
      ConcatAssoc(ti[0], rest, NextFrame(x));
  }
}
