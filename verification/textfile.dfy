/** TextFileLogger: reads BugReport.txt line by line, keeps at most the last
    500 entries of what it read, rewrites the file with them and appends the
    report. The file is a sequence of lines when read (None when it does not
    exist) and a single text when written; one LogError call is treated as
    atomic, which is what the lock on the logger provides within one process. */
module TextFile {
  import opened Wrappers
  import opened Text

  const MaxEntries: nat := 500

  /** The list the reader loop fills: every line of an existing file and then
      the null that ReadLine returns at end of file; nothing when the file is
      absent. */
  function ReadData(file: Option<seq<string>>): seq<Option<string>>
  {
    match file
    case None => []
    case Some(lines) => seq(|lines|, k requires 0 <= k < |lines| => Some(lines[k])) + [None]
  }

  /** The first index of `data` that is written back. */
  function WriteStart(count: nat): (start: nat)
    ensures start <= count
    ensures count - start == if count <= MaxEntries then count else MaxEntries
  {
    if count > MaxEntries then count - MaxEntries else 0
  }

  /** The entries written back, in their original order. */
  function Retained(data: seq<Option<string>>): seq<Option<string>>
  {
    data[WriteStart(|data|)..]
  }

  /** The text of each entry; StreamWriter.WriteLine writes a null entry as
      an empty line. */
  function EntryTexts(entries: seq<Option<string>>): seq<string>
  {
    seq(|entries|, k requires 0 <= k < |entries| => OrEmpty(entries[k]))
  }

  /** How many lines of an existing file of `count` lines survive a rewrite:
      the trailing null takes one of the retained places. */
  function KeptLines(count: nat): nat
  {
    if count < MaxEntries then count else MaxEntries - 1
  }

  /** The file after LogError: the retained entries, each on its own line,
      then the report with no line terminator of its own. Because of the
      trailing null, an existing file keeps at most its last 499 lines,
      followed by one empty line and then the report; a missing file ends up
      holding just the report. */
  function RewrittenFile(file: Option<seq<string>>, error: string): (content: string)
    ensures file.None? ==> content == error
    ensures file.Some? ==>
      var lines := file.value;
      content == ConcatMap(lines[|lines| - KeptLines(|lines|)..], Terminated) + NewLine + error
  {
    var written := ConcatMap(EntryTexts(Retained(ReadData(file))), Terminated);
    match file
    case None =>
      assert EntryTexts(Retained(ReadData(file))) == [];
      written + error
    case Some(lines) =>
      RetainedText(lines);
      written + error
  }

  /** The retained entries of an existing file, written line by line. */
  lemma RetainedText(lines: seq<string>)
    ensures ConcatMap(EntryTexts(Retained(ReadData(Some(lines)))), Terminated) ==
      ConcatMap(lines[|lines| - KeptLines(|lines|)..], Terminated) + NewLine
  {
    var kept := KeptLines(|lines|);
    var r := Retained(ReadData(Some(lines)));
    assert r == ReadData(Some(lines))[|lines| - kept..];
    assert EntryTexts(r) == lines[|lines| - kept..] + [""];
    ConcatMapSnoc(lines[|lines| - kept..], "", Terminated);
  }

  /** The do-while loop over StreamReader.ReadLine. */
  method ReadLines(file: Option<seq<string>>) returns (data: seq<Option<string>>)
    ensures file.None? ==> data == []
    ensures file.Some? ==>
      && |data| == |file.value| + 1
      && data[|file.value|] == None
      && forall k :: 0 <= k < |file.value| ==> data[k] == Some(file.value[k])
  {
    data := [];
    if file.Some? {
      var lines := file.value;
      var pos := 0;
      var line: Option<string>;
      line := if pos < |lines| then Some(lines[pos]) else None;
      pos := pos + 1;
      data := data + [line];
      while line.Some?
        invariant 1 <= pos <= |lines| + 1
        invariant |data| == pos
        invariant forall k :: 0 <= k < pos - 1 ==> data[k] == Some(lines[k])
        invariant line == data[pos - 1]
        invariant line.Some? <==> pos - 1 < |lines|
        invariant line.Some? ==> line == Some(lines[pos - 1])
        decreases |lines| + 1 - pos
      {
        line := if pos < |lines| then Some(lines[pos]) else None;
        pos := pos + 1;
        data := data + [line];
      }
    }
  }

  /** Writing entry i after entries lo..i-1. */
  lemma WriteLineStep(data: seq<Option<string>>, lo: nat, i: nat)
    requires lo <= i < |data|
    ensures ConcatMap(EntryTexts(data[lo..i + 1]), Terminated) ==
      ConcatMap(EntryTexts(data[lo..i]), Terminated) + Terminated(OrEmpty(data[i]))
  {
    assert data[lo..i + 1] == data[lo..i] + [data[i]];
    assert EntryTexts(data[lo..i + 1]) == EntryTexts(data[lo..i]) + [OrEmpty(data[i])];
    ConcatMapSnoc(EntryTexts(data[lo..i]), OrEmpty(data[i]), Terminated);
  }

  lemma ReadLinesIsReadData(file: Option<seq<string>>, data: seq<Option<string>>)
    requires file.None? ==> data == []
    requires file.Some? ==>
      && |data| == |file.value| + 1
      && data[|file.value|] == None
      && forall k :: 0 <= k < |file.value| ==> data[k] == Some(file.value[k])
    ensures data == ReadData(file)
  {
  }

  /** LogError on the file contents: read, truncate, rewrite, append. */
  method LogError(file: Option<seq<string>>, error: string) returns (content: string)
    ensures content == RewrittenFile(file, error)
  {
    var data := ReadLines(file);
    ReadLinesIsReadData(file, data);
    var writeStart := 0;
    if |data| > MaxEntries {
      writeStart := |data| - MaxEntries;
    }
    content := "";
    var i := writeStart;
    while i < |data|
      invariant writeStart <= i <= |data|
      invariant content == ConcatMap(EntryTexts(data[writeStart..i]), Terminated)
    {
      WriteLineStep(data, writeStart, i);
      content := content + Terminated(OrEmpty(data[i]));
      i := i + 1;
    }
    assert data[writeStart..i] == Retained(data);
    content := content + error;
  }

  /** At most the last 500 entries read are written back, in order: the
      retained entries are exactly what is left after dropping a prefix, and
      nothing is dropped when there are at most 500 of them. */
  lemma RetainedIsLatest(data: seq<Option<string>>)
    ensures var r := Retained(data);
      && |r| <= MaxEntries
      && data == data[..|data| - |r|] + r
      && (|data| <= MaxEntries ==> r == data)
      && (|data| > MaxEntries ==> |r| == MaxEntries)
  {
  }
}
