/**
 * The worker's output side as functions on a snapshot: the file and console
 * string buffers, what has reached the file handle and standard output, the
 * handle itself, and the file system (a map from path to file length).
 * `Logger` in logger.dfy implements these step by step on its fields.
 */
module Sinks {
  import opened Messages
  import opened Config

  datatype Sink = Sink(
    /** `_fileStringBuffer`. */
    fileBuffer: string,
    /** `_consoleStringBuffer`. */
    consoleBuffer: string,
    /** Everything written through the file handle so far. */
    fileOut: string,
    /** Everything written to standard output so far. */
    consoleOut: string,
    /** `_logout.is_open()`. */
    isOpen: bool,
    /** The path `_logout` was last opened on. */
    openPath: string,
    /** Length of each existing file. */
    fs: map<string, nat>)

  /** `file_size` when the file exists, else 0. */
  function FileSize(fs: map<string, nat>, path: string): nat {
    if path in fs then fs[path] else 0
  }

  /**
   * One record as the worker renders it: its file line and its console line
   * (coloured or not, as the configuration says when the record is written).
   */
  datatype Line = Line(file: string, console: string)

  /** The rendering of one record under the colour setting. */
  function Render(m: Message, color: bool): Line {
    Line(FileLine(m), ConsoleLine(m, color))
  }

  /** The renderings of a run of records, in order. */
  function Lines(ms: seq<Message>, color: bool): (r: seq<Line>)
    ensures |r| == |ms|
  {
    if ms == [] then [] else [Render(ms[0], color)] + Lines(ms[1..], color)
  }

  /** The `i`-th rendering is the `i`-th record's. */
  lemma {:induction false} LinesAt(ms: seq<Message>, color: bool, i: nat)
    requires i < |ms|
    ensures Lines(ms, color)[i] == Render(ms[i], color)
  {
    if i > 0 {
      LinesAt(ms[1..], color, i - 1);
    }
  }

  lemma {:induction false} LinesAppend(a: seq<Message>, b: seq<Message>, color: bool)
    ensures Lines(a + b, color) == Lines(a, color) + Lines(b, color)
  {
    if a != [] {
      assert (a + b)[0] == a[0] && (a + b)[1..] == a[1..] + b;
      LinesAppend(a[1..], b, color);
    } else {
      assert a + b == b;
    }
  }

  /** Rendering commutes with cutting a run in two. */
  lemma LinesSplit(ms: seq<Message>, k: nat, color: bool)
    requires k <= |ms|
    ensures Lines(ms[..k], color) == Lines(ms, color)[..k]
    ensures Lines(ms[k..], color) == Lines(ms, color)[k..]
  {
    assert ms == ms[..k] + ms[k..];
    LinesAppend(ms[..k], ms[k..], color);
  }

  lemma LinesSnoc(ms: seq<Message>, m: Message, color: bool)
    ensures Lines(ms + [m], color) == Lines(ms, color) + [Render(m, color)]
  {
    LinesAppend(ms, [m], color);
    assert Lines([m], color) == [Render(m, color)] + Lines([], color);
  }

  /** The file lines of a run of renderings, in order. */
  function FileText(ls: seq<Line>): string {
    if ls == [] then [] else ls[0].file + FileText(ls[1..])
  }

  /** The console lines of a run of renderings, in order. */
  function ConsoleText(ls: seq<Line>): string {
    if ls == [] then [] else ls[0].console + ConsoleText(ls[1..])
  }

  /** Concatenation regrouped. */
  lemma Regroup(x: string, y: string, z: string)
    ensures x + (y + z) == (x + y) + z
  {
  }

  /** Two appends in a row are one append of the two pieces. */
  lemma Chain(a: string, b: string, d: string, x: string, y: string)
    requires b == a + x && d == b + y
    ensures d == a + (x + y)
  {
  }

  lemma {:induction false} FileTextAppend(a: seq<Line>, b: seq<Line>)
    ensures FileText(a + b) == FileText(a) + FileText(b)
  {
    if a != [] {
      assert (a + b)[0] == a[0] && (a + b)[1..] == a[1..] + b;
      FileTextAppend(a[1..], b);
      Regroup(a[0].file, FileText(a[1..]), FileText(b));
    } else {
      assert a + b == b;
    }
  }

  lemma {:induction false} ConsoleTextAppend(a: seq<Line>, b: seq<Line>)
    ensures ConsoleText(a + b) == ConsoleText(a) + ConsoleText(b)
  {
    if a != [] {
      assert (a + b)[0] == a[0] && (a + b)[1..] == a[1..] + b;
      ConsoleTextAppend(a[1..], b);
      Regroup(a[0].console, ConsoleText(a[1..]), ConsoleText(b));
    } else {
      assert a + b == b;
    }
  }

  /**
   * Writing the file buffer out (`write`, `flush`, `clear`), which happens only
   * while the handle is open; a closed handle leaves the buffer as it is.
   */
  function WriteFile(s: Sink): Sink {
    if s.isOpen then
      s.(fileOut := s.fileOut + s.fileBuffer,
         fs := s.fs[s.openPath := FileSize(s.fs, s.openPath) + |s.fileBuffer|],
         fileBuffer := [])
    else s
  }

  lemma WriteFileFacts(s: Sink)
    ensures var r := WriteFile(s);
            && (r.fileOut + r.fileBuffer == s.fileOut + s.fileBuffer)
            && (s.isOpen ==> r.fileBuffer == [] && r.fs == s.fs[s.openPath := FileSize(s.fs, s.openPath) + |s.fileBuffer|])
            && (!s.isOpen ==> r == s)
            && (r.consoleBuffer == s.consoleBuffer && r.consoleOut == s.consoleOut)
            && (r.isOpen == s.isOpen && r.openPath == s.openPath)
  {
  }

  /** Writing the console buffer to standard output and clearing it. */
  function WriteConsole(s: Sink): Sink {
    s.(consoleOut := s.consoleOut + s.consoleBuffer, consoleBuffer := [])
  }

  lemma WriteConsoleFacts(s: Sink)
    ensures var r := WriteConsole(s);
            && (r.consoleOut + r.consoleBuffer == s.consoleOut + s.consoleBuffer && r.consoleBuffer == [])
            && (r.(consoleOut := s.consoleOut, consoleBuffer := s.consoleBuffer) == s)
  {
  }

  /**
   * `rotateFile`: with rotation on and the active file at least `fileMaxSize`
   * long, close the handle, rename the active file (when it exists) to its
   * time-stamped name, and open a fresh empty active file. Otherwise nothing.
   */
  function Rotate(s: Sink, c: LogConf, stamp: string): Sink {
    var path := ActivePath(c);
    if !c.isRotate || FileSize(s.fs, path) < c.fileMaxSize then s
    else
      var renamed := if path in s.fs then (s.fs - {path})[RotatedPath(c, stamp) := s.fs[path]] else s.fs;
      s.(isOpen := true, openPath := path, fs := renamed[path := 0])
  }

  lemma RotateFacts(s: Sink, c: LogConf, stamp: string)
    ensures var r := Rotate(s, c, stamp);
            && (!c.isRotate || FileSize(s.fs, ActivePath(c)) < c.fileMaxSize ==> r == s)
            && (c.isRotate && FileSize(s.fs, ActivePath(c)) >= c.fileMaxSize ==>
                  && r.isOpen && r.openPath == ActivePath(c)
                  && ActivePath(c) in r.fs && r.fs[ActivePath(c)] == 0
                  && (ActivePath(c) in s.fs ==> RotatedPath(c, stamp) in r.fs
                                                && r.fs[RotatedPath(c, stamp)] == s.fs[ActivePath(c)])
                  && r.fs.Keys == s.fs.Keys + {ActivePath(c)}
                                  + (if ActivePath(c) in s.fs then {RotatedPath(c, stamp)} else {})
                  && (forall p :: p in s.fs && p != ActivePath(c) && p != RotatedPath(c, stamp)
                                  ==> r.fs[p] == s.fs[p]))
            && (r.fileBuffer == s.fileBuffer && r.consoleBuffer == s.consoleBuffer)
            && (r.fileOut == s.fileOut && r.consoleOut == s.consoleOut)
            && (s.isOpen ==> r.isOpen)
  {
    PathShapes(c, stamp);
  }

  /**
   * The appending half of one iteration of `writeMsgbuffer`'s loop: the record's
   * file line always goes to the file buffer, its console line to the console
   * buffer only when the console is on.
   */
  function BufferLine(s: Sink, c: LogConf, l: Line): Sink {
    var s1 := s.(fileBuffer := s.fileBuffer + l.file);
    if c.isConsole then s1.(consoleBuffer := s1.consoleBuffer + l.console) else s1
  }

  lemma BufferLineFacts(s: Sink, c: LogConf, l: Line)
    ensures var r := BufferLine(s, c, l);
            && (r.fileBuffer == s.fileBuffer + l.file)
            && (r.consoleBuffer == if c.isConsole then s.consoleBuffer + l.console else s.consoleBuffer)
            && (r.(fileBuffer := s.fileBuffer, consoleBuffer := s.consoleBuffer) == s)
  {
  }

  /**
   * The flushing half: each buffer whose sink is on and whose length exceeds its
   * limit is written out, the file write followed by the rotation check.
   */
  function FlushOver(s: Sink, c: LogConf, fileLimit: nat, consoleLimit: nat, stamp: string): Sink {
    var s1 := if c.isWritefile && |s.fileBuffer| > fileLimit then Rotate(WriteFile(s), c, stamp) else s;
    if c.isConsole && |s1.consoleBuffer| > consoleLimit then WriteConsole(s1) else s1
  }

  lemma FlushOverFacts(s: Sink, c: LogConf, fileLimit: nat, consoleLimit: nat, stamp: string)
    ensures var r := FlushOver(s, c, fileLimit, consoleLimit, stamp);
            && (r.fileOut + r.fileBuffer == s.fileOut + s.fileBuffer)
            && (r.consoleOut + r.consoleBuffer == s.consoleOut + s.consoleBuffer)
            && (r.fileOut != s.fileOut ==> c.isWritefile && s.isOpen && |s.fileBuffer| > fileLimit)
            && (c.isWritefile && s.isOpen && |s.fileBuffer| > fileLimit ==> r.fileBuffer == [])
            && (c.isConsole ==> (r.consoleBuffer == [] <==> |s.consoleBuffer| > consoleLimit || s.consoleBuffer == []))
            && (!c.isConsole ==> r.consoleOut == s.consoleOut && r.consoleBuffer == s.consoleBuffer)
            && (!c.isWritefile ==> r.fileBuffer == s.fileBuffer && r.fileOut == s.fileOut && r.fs == s.fs && r.isOpen == s.isOpen && r.openPath == s.openPath)
            && (s.isOpen ==> r.isOpen)
  {
    var s1 := if c.isWritefile && |s.fileBuffer| > fileLimit then Rotate(WriteFile(s), c, stamp) else s;
    WriteFileFacts(s);
    RotateFacts(WriteFile(s), c, stamp);
    WriteConsoleFacts(s1);
  }

  /** One iteration of `writeMsgbuffer`'s loop. */
  function AppendLine(s: Sink, c: LogConf, fileLimit: nat, consoleLimit: nat, l: Line, stamp: string): Sink {
    FlushOver(BufferLine(s, c, l), c, fileLimit, consoleLimit, stamp)
  }

  lemma AppendLineFacts(s: Sink, c: LogConf, fileLimit: nat, consoleLimit: nat, l: Line, stamp: string)
    ensures var r := AppendLine(s, c, fileLimit, consoleLimit, l, stamp);
            && (r.fileOut + r.fileBuffer == s.fileOut + s.fileBuffer + l.file)
            && (r.fileOut != s.fileOut ==> c.isWritefile && s.isOpen && |s.fileBuffer + l.file| > fileLimit)
            && (c.isWritefile && s.isOpen && |s.fileBuffer + l.file| > fileLimit ==> r.fileBuffer == [])
            && (c.isConsole ==> r.consoleOut + r.consoleBuffer == s.consoleOut + s.consoleBuffer + l.console)
            && (c.isConsole ==> (r.consoleBuffer == [] <==> (|s.consoleBuffer + l.console| > consoleLimit || s.consoleBuffer + l.console == [])))
            && (!c.isConsole ==> r.consoleOut == s.consoleOut && r.consoleBuffer == s.consoleBuffer)
            && (!c.isWritefile ==> r.fileBuffer == s.fileBuffer + l.file && r.fileOut == s.fileOut && r.fs == s.fs && r.isOpen == s.isOpen && r.openPath == s.openPath)
            && (s.isOpen ==> r.isOpen)
  {
    BufferLineFacts(s, c, l);
    FlushOverFacts(BufferLine(s, c, l), c, fileLimit, consoleLimit, stamp);
  }

  /** `writeMsgbuffer`: `AppendLine` for each record of the batch, in order. */
  function AppendAll(s: Sink, c: LogConf, fileLimit: nat, consoleLimit: nat, ls: seq<Line>, stamp: string): Sink
    decreases |ls|
  {
    if ls == [] then s
    else AppendAll(AppendLine(s, c, fileLimit, consoleLimit, ls[0], stamp), c, fileLimit, consoleLimit, ls[1..], stamp)
  }

  /**
   * Nothing is lost or reordered on the way to the file: what has been written
   * followed by what is still buffered grows by exactly the batch's file lines.
   */
  lemma {:induction false} AppendAllFile(s: Sink, c: LogConf, fileLimit: nat, consoleLimit: nat, ls: seq<Line>, stamp: string)
    ensures var r := AppendAll(s, c, fileLimit, consoleLimit, ls, stamp);
            r.fileOut + r.fileBuffer == s.fileOut + s.fileBuffer + FileText(ls)
    decreases |ls|
  {
    if ls != [] {
      var s' := AppendLine(s, c, fileLimit, consoleLimit, ls[0], stamp);
      AppendLineFacts(s, c, fileLimit, consoleLimit, ls[0], stamp);
      var r := AppendAll(s', c, fileLimit, consoleLimit, ls[1..], stamp);
      AppendAllFile(s', c, fileLimit, consoleLimit, ls[1..], stamp);
      Chain(s.fileOut + s.fileBuffer, s'.fileOut + s'.fileBuffer, r.fileOut + r.fileBuffer,
            ls[0].file, FileText(ls[1..]));
    }
  }

  /**
   * The same for the console when it is on; when it is off, neither the console
   * buffer nor standard output changes.
   */
  lemma {:induction false} AppendAllConsole(s: Sink, c: LogConf, fileLimit: nat, consoleLimit: nat, ls: seq<Line>, stamp: string)
    ensures var r := AppendAll(s, c, fileLimit, consoleLimit, ls, stamp);
            && (c.isConsole ==>
                  r.consoleOut + r.consoleBuffer == s.consoleOut + s.consoleBuffer + ConsoleText(ls))
            && (!c.isConsole ==> r.consoleOut == s.consoleOut && r.consoleBuffer == s.consoleBuffer)
    decreases |ls|
  {
    if ls != [] {
      var s' := AppendLine(s, c, fileLimit, consoleLimit, ls[0], stamp);
      AppendLineFacts(s, c, fileLimit, consoleLimit, ls[0], stamp);
      var r := AppendAll(s', c, fileLimit, consoleLimit, ls[1..], stamp);
      AppendAllConsole(s', c, fileLimit, consoleLimit, ls[1..], stamp);
      if c.isConsole {
        Chain(s.consoleOut + s.consoleBuffer, s'.consoleOut + s'.consoleBuffer, r.consoleOut + r.consoleBuffer,
              ls[0].console, ConsoleText(ls[1..]));
      }
    }
  }

  /**
   * The buffers stay bounded: an enabled sink's buffer that starts within its
   * limit is within it after every record (for the file, while the handle is open).
   */
  lemma {:induction false} AppendAllBounded(s: Sink, c: LogConf, fileLimit: nat, consoleLimit: nat, ls: seq<Line>, stamp: string)
    ensures var r := AppendAll(s, c, fileLimit, consoleLimit, ls, stamp);
            && (c.isConsole && |s.consoleBuffer| <= consoleLimit ==> |r.consoleBuffer| <= consoleLimit)
            && (c.isWritefile && s.isOpen && |s.fileBuffer| <= fileLimit ==> |r.fileBuffer| <= fileLimit)
            && (s.isOpen ==> r.isOpen)
    decreases |ls|
  {
    if ls != [] {
      var s' := AppendLine(s, c, fileLimit, consoleLimit, ls[0], stamp);
      AppendLineFacts(s, c, fileLimit, consoleLimit, ls[0], stamp);
      AppendAllBounded(s', c, fileLimit, consoleLimit, ls[1..], stamp);
    }
  }

  /** With the file sink off, nothing reaches any file and the file system is untouched. */
  lemma {:induction false} AppendAllNoFile(s: Sink, c: LogConf, fileLimit: nat, consoleLimit: nat, ls: seq<Line>, stamp: string)
    requires !c.isWritefile
    ensures var r := AppendAll(s, c, fileLimit, consoleLimit, ls, stamp);
            r.fileOut == s.fileOut && r.fs == s.fs && r.isOpen == s.isOpen
            && r.fileBuffer == s.fileBuffer + FileText(ls)
    decreases |ls|
  {
    if ls != [] {
      var s' := AppendLine(s, c, fileLimit, consoleLimit, ls[0], stamp);
      AppendLineFacts(s, c, fileLimit, consoleLimit, ls[0], stamp);
      AppendAllNoFile(s', c, fileLimit, consoleLimit, ls[1..], stamp);
      Regroup(s.fileBuffer, ls[0].file, FileText(ls[1..]));
    }
  }

  /**
   * With the handle closed and rotation off, nothing reopens the handle: no text
   * is written and the file buffer gains every file line of the batch.
   */
  lemma {:induction false} AppendAllClosed(s: Sink, c: LogConf, fileLimit: nat, consoleLimit: nat, ls: seq<Line>, stamp: string)
    requires !s.isOpen && !c.isRotate
    ensures var r := AppendAll(s, c, fileLimit, consoleLimit, ls, stamp);
            !r.isOpen && r.fileOut == s.fileOut && r.fileBuffer == s.fileBuffer + FileText(ls)
    decreases |ls|
  {
    if ls != [] {
      var s' := AppendLine(s, c, fileLimit, consoleLimit, ls[0], stamp);
      var b := BufferLine(s, c, ls[0]);
      BufferLineFacts(s, c, ls[0]);
      WriteFileFacts(b);
      RotateFacts(WriteFile(b), c, stamp);
      AppendLineFacts(s, c, fileLimit, consoleLimit, ls[0], stamp);
      assert !s'.isOpen;
      AppendAllClosed(s', c, fileLimit, consoleLimit, ls[1..], stamp);
      Regroup(s.fileBuffer, ls[0].file, FileText(ls[1..]));
    }
  }

  /**
   * With rotation off and the handle open, one record keeps the handle on its
   * path, and that file grows by exactly what is written through the handle.
   */
  lemma AppendLineSameFile(s: Sink, c: LogConf, fileLimit: nat, consoleLimit: nat, l: Line, stamp: string)
    requires s.isOpen && !c.isRotate
    ensures var r := AppendLine(s, c, fileLimit, consoleLimit, l, stamp);
            && r.isOpen && r.openPath == s.openPath
            && FileSize(r.fs, s.openPath) + |s.fileOut| == FileSize(s.fs, s.openPath) + |r.fileOut|
  {
    var b := BufferLine(s, c, l);
    BufferLineFacts(s, c, l);
    WriteFileFacts(b);
    RotateFacts(WriteFile(b), c, stamp);
    var s1 := if c.isWritefile && |b.fileBuffer| > fileLimit then Rotate(WriteFile(b), c, stamp) else b;
    WriteConsoleFacts(s1);
  }

  /**
   * With rotation off and the handle open, the whole batch goes to the one file
   * the handle was opened on: it grows by exactly the text written.
   */
  lemma {:induction false} AppendAllSameFile(s: Sink, c: LogConf, fileLimit: nat, consoleLimit: nat, ls: seq<Line>, stamp: string)
    requires s.isOpen && !c.isRotate
    ensures var r := AppendAll(s, c, fileLimit, consoleLimit, ls, stamp);
            && r.isOpen && r.openPath == s.openPath
            && FileSize(r.fs, s.openPath) + |s.fileOut| == FileSize(s.fs, s.openPath) + |r.fileOut|
    decreases |ls|
  {
    if ls != [] {
      var s' := AppendLine(s, c, fileLimit, consoleLimit, ls[0], stamp);
      AppendLineSameFile(s, c, fileLimit, consoleLimit, ls[0], stamp);
      AppendAllSameFile(s', c, fileLimit, consoleLimit, ls[1..], stamp);
    }
  }

  /** `AppendAll` over two runs is `AppendAll` over the first, then the second. */
  lemma {:induction false} AppendAllSplit(s: Sink, c: LogConf, fileLimit: nat, consoleLimit: nat, a: seq<Line>, b: seq<Line>, stamp: string)
    ensures AppendAll(s, c, fileLimit, consoleLimit, a + b, stamp)
            == AppendAll(AppendAll(s, c, fileLimit, consoleLimit, a, stamp), c, fileLimit, consoleLimit, b, stamp)
    decreases |a|
  {
    if a != [] {
      assert (a + b)[0] == a[0] && (a + b)[1..] == a[1..] + b;
      AppendAllSplit(AppendLine(s, c, fileLimit, consoleLimit, a[0], stamp), c, fileLimit, consoleLimit, a[1..], b, stamp);
    } else {
      assert a + b == b;
    }
  }

  /** `AppendAll` over a run followed by one more record. */
  lemma AppendAllSnoc(s: Sink, c: LogConf, fileLimit: nat, consoleLimit: nat, ls: seq<Line>, l: Line, stamp: string)
    ensures AppendAll(s, c, fileLimit, consoleLimit, ls + [l], stamp)
            == AppendLine(AppendAll(s, c, fileLimit, consoleLimit, ls, stamp), c, fileLimit, consoleLimit, l, stamp)
  {
    AppendAllSplit(s, c, fileLimit, consoleLimit, ls, [l], stamp);
    var t := AppendAll(s, c, fileLimit, consoleLimit, ls, stamp);
    assert AppendAll(t, c, fileLimit, consoleLimit, [l], stamp)
           == AppendAll(AppendLine(t, c, fileLimit, consoleLimit, l, stamp), c, fileLimit, consoleLimit, [], stamp);
  }

  /**
   * The worker's final phase: write out a non-empty file buffer (when the file
   * sink is on) followed by the rotation check, and a non-empty console buffer
   * (when the console is on). Nothing is lost, and an enabled sink ends empty
   * (for the file, when the handle was open).
   */
  function FinalFlush(s: Sink, c: LogConf, stamp: string): Sink {
    var s1 := if c.isWritefile && s.fileBuffer != [] then Rotate(WriteFile(s), c, stamp) else s;
    if c.isConsole && s1.consoleBuffer != [] then WriteConsole(s1) else s1
  }

  /** With rotation off and the handle open, the final write goes to the same file. */
  lemma FinalFlushSameFile(s: Sink, c: LogConf, stamp: string)
    requires s.isOpen && !c.isRotate
    ensures var r := FinalFlush(s, c, stamp);
            && r.isOpen && r.openPath == s.openPath
            && FileSize(r.fs, s.openPath) + |s.fileOut| == FileSize(s.fs, s.openPath) + |r.fileOut|
  {
    var s1 := if c.isWritefile && s.fileBuffer != [] then Rotate(WriteFile(s), c, stamp) else s;
    WriteFileFacts(s);
    RotateFacts(WriteFile(s), c, stamp);
    WriteConsoleFacts(s1);
  }

  lemma FinalFlushFacts(s: Sink, c: LogConf, stamp: string)
    ensures var r := FinalFlush(s, c, stamp);
            && (r.fileOut + r.fileBuffer == s.fileOut + s.fileBuffer)
            && (r.consoleOut + r.consoleBuffer == s.consoleOut + s.consoleBuffer)
            && (c.isWritefile && s.isOpen ==> r.fileBuffer == [])
            && (c.isConsole ==> r.consoleBuffer == [])
            && (!c.isWritefile ==> r.fileBuffer == s.fileBuffer && r.fs == s.fs)
            && (!c.isConsole ==> r.consoleBuffer == s.consoleBuffer)
            && (s.isOpen ==> r.isOpen)
  {
    var s1 := if c.isWritefile && s.fileBuffer != [] then Rotate(WriteFile(s), c, stamp) else s;
    WriteFileFacts(s);
    RotateFacts(WriteFile(s), c, stamp);
    WriteConsoleFacts(s1);
  }
}
