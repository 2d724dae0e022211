/**
 * `Logger`: the configuration, the record queue, the worker's string buffers and
 * the output file handle, with the worker's data path (`writeMsgbuffer`,
 * `processBatch`, `rotateFile`) and the fluent setters. Locks, the worker thread
 * and the singleton are not part of this sequential model; the file handle,
 * standard output and the file system are abstract state (see `Sinks.Sink`).
 */
module Loggers {
  import opened Levels
  import opened Messages
  import opened Config
  import opened Sinks
  import opened BufferQueues

  /**
   * The rounds of `processBatch`'s loop from round `round` on, with `queue` the
   * renderings of the records waiting and no producer running: while the stop flag is unread
   * (`c.isStop || round >= stopRound` is the flag as read in round `round`) or
   * the queue is non-empty, take up to `batchSize` records and write them with
   * the stamp `clock(round)`. The result is the output state and the number of
   * rounds run.
   */
  function Rounds(s: Sink, c: LogConf, fileLimit: nat, consoleLimit: nat, queue: seq<Line>,
                  batchSize: nat, round: nat, stopRound: nat, clock: nat -> string): (Sink, nat)
    requires batchSize > 0
    decreases (if c.isStop || round >= stopRound then 0 else stopRound - round), |queue|
  {
    if (c.isStop || round >= stopRound) && queue == [] then (s, round)
    else
      var k := Taken(0, |queue|, batchSize);
      Rounds(AppendAll(s, c, fileLimit, consoleLimit, queue[..k], clock(round)),
             c, fileLimit, consoleLimit, queue[k..], batchSize, round + 1, stopRound, clock)
  }

  /** A round that runs takes the queue's first batch and writes it. */
  lemma RoundsAdvance(s: Sink, s': Sink, c: LogConf, fileLimit: nat, consoleLimit: nat, queue: seq<Line>, queue': seq<Line>,
                      batchSize: nat, round: nat, stopRound: nat, clock: nat -> string)
    requires batchSize > 0 && (!(c.isStop || round >= stopRound) || queue != [])
    requires var k := Taken(0, |queue|, batchSize);
             s' == AppendAll(s, c, fileLimit, consoleLimit, queue[..k], clock(round)) && queue' == queue[k..]
    ensures Rounds(s', c, fileLimit, consoleLimit, queue', batchSize, round + 1, stopRound, clock)
            == Rounds(s, c, fileLimit, consoleLimit, queue, batchSize, round, stopRound, clock)
    ensures |queue'| <= |queue| && (queue != [] ==> |queue'| < |queue|)
  {
  }

  /** A round that reads the stop flag with the queue empty ends the loop. */
  lemma RoundsDone(s: Sink, c: LogConf, fileLimit: nat, consoleLimit: nat,
                   batchSize: nat, round: nat, stopRound: nat, clock: nat -> string)
    requires batchSize > 0 && (c.isStop || round >= stopRound)
    ensures Rounds(s, c, fileLimit, consoleLimit, [], batchSize, round, stopRound, clock) == (s, round)
  {
  }

  /** The loop ends only on a round that has read the stop flag, with the queue empty. */
  lemma {:induction false} RoundsStop(s: Sink, c: LogConf, fileLimit: nat, consoleLimit: nat, queue: seq<Line>,
                                      batchSize: nat, round: nat, stopRound: nat, clock: nat -> string)
    requires batchSize > 0
    ensures var (_, n) := Rounds(s, c, fileLimit, consoleLimit, queue, batchSize, round, stopRound, clock);
            n >= round && (c.isStop || n >= stopRound) && (queue != [] ==> n > round)
    decreases (if c.isStop || round >= stopRound then 0 else stopRound - round), |queue|
  {
    if !((c.isStop || round >= stopRound) && queue == []) {
      var k := Taken(0, |queue|, batchSize);
      var batch, rest := queue[..k], queue[k..];
      var s' := AppendAll(s, c, fileLimit, consoleLimit, batch, clock(round));
      RoundsStop(s', c, fileLimit, consoleLimit, rest, batchSize, round + 1, stopRound, clock);
    }
  }

  /** Every queued record reaches the file side, in queue order. */
  lemma {:induction false} RoundsFile(s: Sink, c: LogConf, fileLimit: nat, consoleLimit: nat, queue: seq<Line>,
                                      batchSize: nat, round: nat, stopRound: nat, clock: nat -> string)
    requires batchSize > 0
    ensures var t := Rounds(s, c, fileLimit, consoleLimit, queue, batchSize, round, stopRound, clock).0;
            t.fileOut + t.fileBuffer == s.fileOut + s.fileBuffer + FileText(queue)
    decreases (if c.isStop || round >= stopRound then 0 else stopRound - round), |queue|
  {
    if !((c.isStop || round >= stopRound) && queue == []) {
      var k := Taken(0, |queue|, batchSize);
      var batch, rest := queue[..k], queue[k..];
      var s' := AppendAll(s, c, fileLimit, consoleLimit, batch, clock(round));
      var t := Rounds(s', c, fileLimit, consoleLimit, rest, batchSize, round + 1, stopRound, clock).0;
      AppendAllFile(s, c, fileLimit, consoleLimit, batch, clock(round));
      RoundsFile(s', c, fileLimit, consoleLimit, rest, batchSize, round + 1, stopRound, clock);
      FileTextAppend(batch, rest);
      assert batch + rest == queue;
      Chain(s.fileOut + s.fileBuffer, s'.fileOut + s'.fileBuffer, t.fileOut + t.fileBuffer,
            FileText(batch), FileText(rest));
    }
  }

  /** With the console on, every queued record reaches the console side, in queue order. */
  lemma {:induction false} RoundsConsole(s: Sink, c: LogConf, fileLimit: nat, consoleLimit: nat, queue: seq<Line>,
                                         batchSize: nat, round: nat, stopRound: nat, clock: nat -> string)
    requires batchSize > 0 && c.isConsole
    ensures var t := Rounds(s, c, fileLimit, consoleLimit, queue, batchSize, round, stopRound, clock).0;
            t.consoleOut + t.consoleBuffer == s.consoleOut + s.consoleBuffer + ConsoleText(queue)
    decreases (if c.isStop || round >= stopRound then 0 else stopRound - round), |queue|
  {
    if !((c.isStop || round >= stopRound) && queue == []) {
      var k := Taken(0, |queue|, batchSize);
      var batch, rest := queue[..k], queue[k..];
      var s' := AppendAll(s, c, fileLimit, consoleLimit, batch, clock(round));
      var t := Rounds(s', c, fileLimit, consoleLimit, rest, batchSize, round + 1, stopRound, clock).0;
      AppendAllConsole(s, c, fileLimit, consoleLimit, batch, clock(round));
      RoundsConsole(s', c, fileLimit, consoleLimit, rest, batchSize, round + 1, stopRound, clock);
      ConsoleTextAppend(batch, rest);
      assert batch + rest == queue;
      Chain(s.consoleOut + s.consoleBuffer, s'.consoleOut + s'.consoleBuffer, t.consoleOut + t.consoleBuffer,
            ConsoleText(batch), ConsoleText(rest));
    }
  }

  /** With the console off, neither the console buffer nor standard output changes. */
  lemma {:induction false} RoundsNoConsole(s: Sink, c: LogConf, fileLimit: nat, consoleLimit: nat, queue: seq<Line>,
                                           batchSize: nat, round: nat, stopRound: nat, clock: nat -> string)
    requires batchSize > 0 && !c.isConsole
    ensures var t := Rounds(s, c, fileLimit, consoleLimit, queue, batchSize, round, stopRound, clock).0;
            t.consoleOut == s.consoleOut && t.consoleBuffer == s.consoleBuffer
    decreases (if c.isStop || round >= stopRound then 0 else stopRound - round), |queue|
  {
    if !((c.isStop || round >= stopRound) && queue == []) {
      var k := Taken(0, |queue|, batchSize);
      var batch, rest := queue[..k], queue[k..];
      var s' := AppendAll(s, c, fileLimit, consoleLimit, batch, clock(round));
      AppendAllConsole(s, c, fileLimit, consoleLimit, batch, clock(round));
      RoundsNoConsole(s', c, fileLimit, consoleLimit, rest, batchSize, round + 1, stopRound, clock);
    }
  }

  /** An open handle stays open; with the file sink off, no file is written and the file system is untouched. */
  lemma {:induction false} RoundsFrame(s: Sink, c: LogConf, fileLimit: nat, consoleLimit: nat, queue: seq<Line>,
                                       batchSize: nat, round: nat, stopRound: nat, clock: nat -> string)
    requires batchSize > 0
    ensures var (t, _) := Rounds(s, c, fileLimit, consoleLimit, queue, batchSize, round, stopRound, clock);
            && (s.isOpen ==> t.isOpen)
            && (!c.isWritefile ==> t.fileOut == s.fileOut && t.fs == s.fs)
    decreases (if c.isStop || round >= stopRound then 0 else stopRound - round), |queue|
  {
    if !((c.isStop || round >= stopRound) && queue == []) {
      var k := Taken(0, |queue|, batchSize);
      var batch, rest := queue[..k], queue[k..];
      var s' := AppendAll(s, c, fileLimit, consoleLimit, batch, clock(round));
      AppendAllBounded(s, c, fileLimit, consoleLimit, batch, clock(round));
      if !c.isWritefile {
        AppendAllNoFile(s, c, fileLimit, consoleLimit, batch, clock(round));
      }
      RoundsFrame(s', c, fileLimit, consoleLimit, rest, batchSize, round + 1, stopRound, clock);
    }
  }

  /**
   * With the handle closed and rotation off, the rounds write no text and every
   * queued record's file line stays in the file buffer, in queue order.
   */
  lemma {:induction false} RoundsClosed(s: Sink, c: LogConf, fileLimit: nat, consoleLimit: nat, queue: seq<Line>,
                                        batchSize: nat, round: nat, stopRound: nat, clock: nat -> string)
    requires batchSize > 0 && !s.isOpen && !c.isRotate
    ensures var t := Rounds(s, c, fileLimit, consoleLimit, queue, batchSize, round, stopRound, clock).0;
            !t.isOpen && t.fileOut == s.fileOut && t.fileBuffer == s.fileBuffer + FileText(queue)
    decreases (if c.isStop || round >= stopRound then 0 else stopRound - round), |queue|
  {
    if !((c.isStop || round >= stopRound) && queue == []) {
      var k := Taken(0, |queue|, batchSize);
      var batch, rest := queue[..k], queue[k..];
      var s' := AppendAll(s, c, fileLimit, consoleLimit, batch, clock(round));
      AppendAllClosed(s, c, fileLimit, consoleLimit, batch, clock(round));
      RoundsClosed(s', c, fileLimit, consoleLimit, rest, batchSize, round + 1, stopRound, clock);
      FileTextAppend(batch, rest);
      assert batch + rest == queue;
      Regroup(s.fileBuffer, FileText(batch), FileText(rest));
    }
  }

  /**
   * With rotation off and the handle open, every round writes to the one file
   * the handle was opened on, which grows by exactly the text written.
   */
  lemma {:induction false} RoundsSameFile(s: Sink, c: LogConf, fileLimit: nat, consoleLimit: nat, queue: seq<Line>,
                                          batchSize: nat, round: nat, stopRound: nat, clock: nat -> string)
    requires batchSize > 0 && s.isOpen && !c.isRotate
    ensures var t := Rounds(s, c, fileLimit, consoleLimit, queue, batchSize, round, stopRound, clock).0;
            && t.isOpen && t.openPath == s.openPath
            && FileSize(t.fs, s.openPath) + |s.fileOut| == FileSize(s.fs, s.openPath) + |t.fileOut|
    decreases (if c.isStop || round >= stopRound then 0 else stopRound - round), |queue|
  {
    if !((c.isStop || round >= stopRound) && queue == []) {
      var k := Taken(0, |queue|, batchSize);
      var batch, rest := queue[..k], queue[k..];
      var s' := AppendAll(s, c, fileLimit, consoleLimit, batch, clock(round));
      AppendAllSameFile(s, c, fileLimit, consoleLimit, batch, clock(round));
      RoundsSameFile(s', c, fileLimit, consoleLimit, rest, batchSize, round + 1, stopRound, clock);
    }
  }

  /**
   * `processBatch` as a whole: the rounds followed by the final flush. Every
   * record queued when the worker starts is delivered, in order, to each enabled
   * sink, and an enabled sink's buffer ends empty (for the file, when the handle
   * was open), so with the file sink on and the handle open everything buffered or
   * queued is written through the handle, to the active file or to files rotated
   * away during the run; with rotation off it all lands in the one file opened.
   */
  lemma Delivered(s: Sink, c: LogConf, fileLimit: nat, consoleLimit: nat, queue: seq<Line>,
                  batchSize: nat, stopRound: nat, clock: nat -> string)
    requires batchSize > 0
    ensures var (t, n) := Rounds(s, c, fileLimit, consoleLimit, queue, batchSize, 0, stopRound, clock);
            var r := FinalFlush(t, c, clock(n));
            && (c.isStop || n >= stopRound)
            && r.fileOut + r.fileBuffer == s.fileOut + s.fileBuffer + FileText(queue)
            && (c.isWritefile && s.isOpen ==> r.fileOut == s.fileOut + s.fileBuffer + FileText(queue))
            && (c.isConsole ==> r.consoleBuffer == [] && r.consoleOut == s.consoleOut + s.consoleBuffer + ConsoleText(queue))
            && (!c.isConsole ==> r.consoleOut == s.consoleOut && r.consoleBuffer == s.consoleBuffer)
            && (!c.isWritefile ==> r.fileOut == s.fileOut && r.fs == s.fs)
            && (!s.isOpen && !c.isRotate ==> r.fileOut == s.fileOut && r.fileBuffer == s.fileBuffer + FileText(queue))
            && (c.isWritefile && s.isOpen && !c.isRotate ==>
                  FileSize(r.fs, s.openPath) == FileSize(s.fs, s.openPath) + |s.fileBuffer| + |FileText(queue)|)
            && (s.isOpen ==> r.isOpen)
  {
    RoundsStop(s, c, fileLimit, consoleLimit, queue, batchSize, 0, stopRound, clock);
    RoundsFile(s, c, fileLimit, consoleLimit, queue, batchSize, 0, stopRound, clock);
    if c.isConsole {
      RoundsConsole(s, c, fileLimit, consoleLimit, queue, batchSize, 0, stopRound, clock);
    } else {
      RoundsNoConsole(s, c, fileLimit, consoleLimit, queue, batchSize, 0, stopRound, clock);
    }
    RoundsFrame(s, c, fileLimit, consoleLimit, queue, batchSize, 0, stopRound, clock);
    if !s.isOpen && !c.isRotate {
      RoundsClosed(s, c, fileLimit, consoleLimit, queue, batchSize, 0, stopRound, clock);
    }
    var (t, n) := Rounds(s, c, fileLimit, consoleLimit, queue, batchSize, 0, stopRound, clock);
    FinalFlushFacts(t, c, clock(n));
    if s.isOpen && !c.isRotate {
      RoundsSameFile(s, c, fileLimit, consoleLimit, queue, batchSize, 0, stopRound, clock);
      FinalFlushSameFile(t, c, clock(n));
    }
  }

  class Logger {
    /** `_logcof`. */
    var conf: LogConf
    /** `_buffer`. */
    const buffer: BufferQueue<Message>
    /** `_writeBuffer`, the worker's batch. */
    var writeBuffer: seq<Message>
    /** `_fileStringBuffer`. */
    var fileBuffer: string
    /** `_consoleStringBuffer`. */
    var consoleBuffer: string
    /** `_fileCurrentBufferSize`: the file buffer's flush threshold. */
    var fileLimit: nat
    /** `_consoleCurrentBufferSize`: the console buffer's flush threshold. */
    var consoleLimit: nat
    /** `_logout.is_open()`. */
    var isOpen: bool
    /** The path `_logout` was last opened on. */
    var openPath: string
    /** The file system: the length of every existing file. */
    var fs: map<string, nat>
    /** Everything written through `_logout`. */
    ghost var fileOut: string
    /** Everything written to standard output. */
    ghost var consoleOut: string
    /** The objects of the record queue. */
    ghost var Repr: set<object>

    /** `_iQueenBufferSize` in `initiallize`: `1 << 13`. */
    static const QueueBufferSize: nat := 8192
    /** The worker's batch size, `_iQueenBufferSize >> 1`. */
    static const BatchSize: nat := QueueBufferSize / 2

    ghost predicate Valid()
      reads this`Repr, Repr
    {
      && this !in Repr && buffer in Repr && buffer.Repr <= Repr
      && buffer.Valid()
    }

    /** The output side of the logger as a `Sink` value. */
    ghost function State(): Sink
      reads this
    {
      Sink(fileBuffer, consoleBuffer, fileOut, consoleOut, isOpen, openPath, fs)
    }

    /** `Logger()`: default configuration and queue, then `initiallize`. */
    constructor (fs0: map<string, nat>, openSucceeds: bool)
      ensures Valid() && fresh(Repr)
      ensures conf == DefaultConf().(isConsole := false, isRotate := false)
      ensures buffer.Contents() == [] && buffer.Capacity() == QueueBufferSize
      ensures writeBuffer == [] && fileBuffer == [] && consoleBuffer == []
      ensures fileOut == [] && consoleOut == []
      ensures fileLimit == DefaultFileMaxSize / 2 && consoleLimit == DefaultFileMaxSize / 4
      ensures isOpen == openSucceeds
      ensures openSucceeds ==> openPath == ActivePath(DefaultConf()) && fs == fs0[openPath := 0]
      ensures !openSucceeds ==> fs == fs0
    {
      conf := DefaultConf();
      buffer := new BufferQueue();
      writeBuffer := [];
      fileBuffer, consoleBuffer := [], [];
      fileOut, consoleOut := [], [];
      new;
      Repr := buffer.Repr;
      Initialize(fs0, openSucceeds);
    }

    /**
     * `initiallize`: the queue resized to `QueueBufferSize`, the active file
     * opened (truncated) when `openSucceeds`, console output and rotation switched
     * off, and the buffer thresholds set to half and a quarter of `fileMaxSize`.
     * Creating the log directory and starting the worker thread are not modelled.
     */
    method Initialize(fs0: map<string, nat>, openSucceeds: bool)
      requires Valid() && buffer.Contents() == [] && buffer.queue.head == 0
      modifies this`Repr, this`conf, this`openPath, this`isOpen, this`fs, this`fileLimit, this`consoleLimit, Repr
      ensures Valid() && fresh(Repr - old(Repr))
      ensures conf == old(conf).(isConsole := false, isRotate := false)
      ensures buffer.Contents() == [] && buffer.Capacity() == QueueBufferSize
      ensures fileLimit == conf.fileMaxSize / 2 && consoleLimit == conf.fileMaxSize / 4
      ensures isOpen == openSucceeds
      ensures openSucceeds ==> openPath == ActivePath(old(conf)) && fs == fs0[openPath := 0]
      ensures !openSucceeds ==> fs == fs0
    {
      ResizeQueue();
      OpenLog(fs0, openSucceeds);
      var self := SetConsole(false);
      self := SetRotate(false);
      fileLimit := conf.fileMaxSize / 2;
      consoleLimit := conf.fileMaxSize / 4;
    }

    /**
     * `_logout.open(getLognName().append(".log"))`: the stream opens in truncating
     * mode, so a successful open leaves an empty file at the active path.
     */
    method OpenLog(fs0: map<string, nat>, openSucceeds: bool)
      modifies this`openPath, this`isOpen, this`fs
      ensures openPath == ActivePath(conf)
      ensures isOpen == openSucceeds
      ensures openSucceeds ==> fs == fs0[openPath := 0]
      ensures !openSucceeds ==> fs == fs0
    {
      openPath := LogName(conf) + ".log";
      if openSucceeds {
        isOpen := true;
        fs := fs0[openPath := 0];
      } else {
        isOpen := false;
        fs := fs0;
      }
    }

    /** `_buffer.resize(_iQueenBufferSize)`. */
    method ResizeQueue()
      requires Valid() && buffer.Contents() == [] && buffer.queue.head == 0
      modifies this`Repr, Repr
      ensures Valid() && fresh(Repr - old(Repr))
      ensures buffer.Contents() == [] && buffer.Capacity() == QueueBufferSize
    {
      buffer.Resize(QueueBufferSize);
      Repr := buffer.Repr;
    }

    /**
     * `log` (behind `trace`, `info`, `debug`, `error`, `warn`, `fatal`): builds the
     * record and enqueues it. Enqueueing waits while the queue is full; that wait
     * is the precondition.
     */
    method Log(level: LogLevel, text: string, loc: Location, time: string)
      requires Valid() && |buffer.Contents()| < buffer.Capacity()
      modifies Repr
      ensures Valid() && Repr == old(Repr)
      ensures buffer.Contents() == old(buffer.Contents()) + [Message(level, text, loc, time)]
      ensures buffer.Capacity() == old(buffer.Capacity())
      ensures State() == old(State()) && conf == old(conf) && writeBuffer == old(writeBuffer)
    {
      buffer.Enqueue(Message(level, text, loc, time));
    }

    /** `rotateFile`, with `stamp` the `%Y%m%d_%H%M%S` time of the call. */
    method RotateFile(stamp: string)
      modifies this`isOpen, this`openPath, this`fs
      ensures State() == Rotate(old(State()), conf, stamp)
    {
      if !conf.isRotate {
        return;
      }
      var filePath := LogName(conf) + ".log";
      var fileSize := 0;
      if filePath in fs {
        fileSize := fs[filePath];
      }
      if fileSize < conf.fileMaxSize {
        return;
      }
      isOpen := false;
      var newName := LogName(conf) + "_" + stamp + ".log";
      if filePath in fs {
        fs := (fs - {filePath})[newName := fs[filePath]];
      }
      isOpen, openPath := true, filePath;
      fs := fs[filePath := 0];
    }

    /** Writes the file buffer through the handle when it is open, then clears it. */
    method WriteFileBuffer()
      modifies this`fileBuffer, this`fileOut, this`fs
      ensures State() == WriteFile(old(State()))
    {
      if isOpen {
        fs := fs[openPath := FileSize(fs, openPath) + |fileBuffer|];
        fileOut := fileOut + fileBuffer;
        fileBuffer := [];
      }
    }

    /** Writes the console buffer to standard output and clears it. */
    method WriteConsoleBuffer()
      modifies this`consoleBuffer, this`consoleOut
      ensures State() == WriteConsole(old(State()))
    {
      consoleOut := consoleOut + consoleBuffer;
      consoleBuffer := [];
    }

    /** The appending half of one iteration of `writeMsgbuffer`'s loop. */
    method BufferOne(msg: Message)
      modifies this`fileBuffer, this`consoleBuffer
      ensures State() == BufferLine(old(State()), conf, Render(msg, conf.isColor))
    {
      fileBuffer := fileBuffer + (FormatMsg(msg) + "\n");
      if conf.isConsole {
        if conf.isColor {
          consoleBuffer := consoleBuffer + (GetLevelColor(msg.level) + FormatMsg(msg) + GetColorReset() + "\n");
        } else {
          consoleBuffer := consoleBuffer + (FormatMsg(msg) + "\n");
        }
      }
    }

    /** The flushing half of one iteration of `writeMsgbuffer`'s loop. */
    method FlushFull(stamp: string)
      modifies this`fileBuffer, this`consoleBuffer, this`fileOut, this`consoleOut,
               this`isOpen, this`openPath, this`fs
      ensures State() == FlushOver(old(State()), conf, fileLimit, consoleLimit, stamp)
    {
      if conf.isWritefile && |fileBuffer| > fileLimit {
        WriteFileBuffer();
        RotateFile(stamp);
      }
      if conf.isConsole && |consoleBuffer| > consoleLimit {
        WriteConsoleBuffer();
      }
    }

    /** One iteration of `writeMsgbuffer`'s loop. */
    method WriteOne(msg: Message, stamp: string)
      modifies this`fileBuffer, this`consoleBuffer, this`fileOut, this`consoleOut,
               this`isOpen, this`openPath, this`fs
      ensures State() == AppendLine(old(State()), conf, fileLimit, consoleLimit, Render(msg, conf.isColor), stamp)
    {
      BufferOne(msg);
      FlushFull(stamp);
    }

    /**
     * `writeMsgbuffer`: every record of the batch, in order, is rendered and goes
     * through `AppendLine`. `stamp` is the time any rotation during the call is named after.
     */
    method WriteMsgBuffer(stamp: string)
      modifies this`fileBuffer, this`consoleBuffer, this`fileOut, this`consoleOut,
               this`isOpen, this`openPath, this`fs
      ensures State() == AppendAll(old(State()), conf, fileLimit, consoleLimit, Lines(writeBuffer, conf.isColor), stamp)
    {
      for i := 0 to |writeBuffer|
        invariant State() == AppendAll(old(State()), conf, fileLimit, consoleLimit, Lines(writeBuffer[..i], conf.isColor), stamp)
      {
        var msg := writeBuffer[i];
        assert writeBuffer[..i + 1] == writeBuffer[..i] + [msg];
        LinesSnoc(writeBuffer[..i], msg, conf.isColor);
        AppendAllSnoc(old(State()), conf, fileLimit, consoleLimit, Lines(writeBuffer[..i], conf.isColor),
                      Render(msg, conf.isColor), stamp);
        WriteOne(msg, stamp);
      }
      assert writeBuffer[..|writeBuffer|] == writeBuffer;
    }

    /**
     * `processBatch(batchSize)`, the worker thread's body, run with no producer
     * beside it. The stop flag as read in round `i` is `conf.isStop || i >= stopRound`;
     * `clock(i)` is the time of round `i` (the time after the last round for the
     * final rotation check). The result is the number of rounds run.
     */
    method ProcessBatch(batchSize: nat, stopRound: nat, clock: nat -> string) returns (rounds: nat)
      requires Valid() && batchSize > 0 && writeBuffer == []
      modifies this`writeBuffer, this`fileBuffer, this`consoleBuffer, this`fileOut, this`consoleOut,
               this`isOpen, this`openPath, this`fs, Repr
      ensures Valid() && Repr == old(Repr) && buffer.Capacity() == old(buffer.Capacity())
      ensures buffer.Contents() == [] && writeBuffer == []
      ensures var (t, n) := Rounds(old(State()), conf, fileLimit, consoleLimit, Lines(old(buffer.Contents()), conf.isColor), batchSize, 0, stopRound, clock);
              rounds == n && State() == FinalFlush(t, conf, clock(n))
    {
      rounds := RunRounds(batchSize, 0, stopRound, clock);
      FlushRemaining(clock(rounds));
    }

    /** The worker thread `initiallize` starts: `processBatch` with the batch size `BatchSize`. */
    method RunWorker(stopRound: nat, clock: nat -> string) returns (rounds: nat)
      requires Valid() && writeBuffer == []
      modifies this`writeBuffer, this`fileBuffer, this`consoleBuffer, this`fileOut, this`consoleOut,
               this`isOpen, this`openPath, this`fs, Repr
      ensures Valid() && Repr == old(Repr) && buffer.Capacity() == old(buffer.Capacity())
      ensures buffer.Contents() == [] && writeBuffer == []
      ensures var (t, n) := Rounds(old(State()), conf, fileLimit, consoleLimit, Lines(old(buffer.Contents()), conf.isColor), BatchSize, 0, stopRound, clock);
              rounds == n && State() == FinalFlush(t, conf, clock(n))
    {
      rounds := ProcessBatch(BatchSize, stopRound, clock);
    }

    /**
     * The loop of `processBatch` from round `round` on: a round runs while the stop
     * flag it reads is down or the queue holds records. It is written as the round
     * followed by the remaining rounds; the result is the round the loop ends on.
     */
    method RunRounds(batchSize: nat, round: nat, stopRound: nat, clock: nat -> string) returns (rounds: nat)
      requires Valid() && batchSize > 0 && writeBuffer == []
      modifies this`writeBuffer, this`fileBuffer, this`consoleBuffer, this`fileOut, this`consoleOut,
               this`isOpen, this`openPath, this`fs, Repr
      ensures Valid() && Repr == old(Repr) && buffer.Capacity() == old(buffer.Capacity())
      ensures buffer.Contents() == [] && writeBuffer == []
      ensures (State(), rounds) == Rounds(old(State()), conf, fileLimit, consoleLimit, Lines(old(buffer.Contents()), conf.isColor), batchSize, round, stopRound, clock)
      decreases (if conf.isStop || round >= stopRound then 0 else stopRound - round), |buffer.Contents()|
    {
      var empty := buffer.IsEmpty();
      if !(conf.isStop || round >= stopRound) || !empty {
        WorkRound(batchSize, round, stopRound, clock);
        rounds := RunRounds(batchSize, round + 1, stopRound, clock);
      } else {
        RoundsDone(State(), conf, fileLimit, consoleLimit, batchSize, round, stopRound, clock);
        rounds := round;
      }
    }

    /** Round `round` of `processBatch`'s loop, as `Rounds` takes it. */
    method WorkRound(batchSize: nat, round: nat, stopRound: nat, clock: nat -> string)
      requires Valid() && batchSize > 0 && writeBuffer == []
      requires !(conf.isStop || round >= stopRound) || buffer.Contents() != []
      modifies this`writeBuffer, this`fileBuffer, this`consoleBuffer, this`fileOut, this`consoleOut,
               this`isOpen, this`openPath, this`fs, Repr
      ensures Valid() && Repr == old(Repr) && buffer.Capacity() == old(buffer.Capacity()) && writeBuffer == []
      ensures |buffer.Contents()| <= |old(buffer.Contents())|
      ensures old(buffer.Contents()) != [] ==> |buffer.Contents()| < |old(buffer.Contents())|
      ensures Rounds(State(), conf, fileLimit, consoleLimit, Lines(buffer.Contents(), conf.isColor), batchSize, round + 1, stopRound, clock)
              == Rounds(old(State()), conf, fileLimit, consoleLimit, Lines(old(buffer.Contents()), conf.isColor), batchSize, round, stopRound, clock)
    {
      ghost var s0, q0 := State(), buffer.Contents();
      ghost var k := Taken(0, |q0|, batchSize);
      TakeAndWrite(batchSize, clock(round));
      LinesSplit(q0, k, conf.isColor);
      RoundsAdvance(s0, State(), conf, fileLimit, consoleLimit, Lines(q0, conf.isColor), Lines(buffer.Contents(), conf.isColor),
                    batchSize, round, stopRound, clock);
    }

    /** Takes a batch of at most `batchSize` records from the queue and writes it. */
    method TakeAndWrite(batchSize: nat, stamp: string)
      requires Valid() && batchSize > 0 && writeBuffer == []
      modifies this`writeBuffer, this`fileBuffer, this`consoleBuffer, this`fileOut, this`consoleOut,
               this`isOpen, this`openPath, this`fs, Repr
      ensures Valid() && Repr == old(Repr) && buffer.Capacity() == old(buffer.Capacity()) && writeBuffer == []
      ensures buffer.Contents() == old(buffer.Contents())[Taken(0, |old(buffer.Contents())|, batchSize)..]
      ensures State() == AppendAll(old(State()), conf, fileLimit, consoleLimit,
                                   Lines(old(buffer.Contents())[..Taken(0, |old(buffer.Contents())|, batchSize)], conf.isColor), stamp)
    {
      ghost var s0 := State();
      ghost var k := Taken(0, |buffer.Contents()|, batchSize);
      DrainTakesPrefix([], buffer.Contents(), batchSize);
      writeBuffer := buffer.DequeueBatch(writeBuffer, batchSize);
      assert State() == s0 && writeBuffer == old(buffer.Contents())[..k];
      WriteBatch(stamp);
    }

    /** The body of `processBatch`'s loop after the dequeue: a non-empty batch is written, then cleared. */
    method WriteBatch(stamp: string)
      modifies this`writeBuffer, this`fileBuffer, this`consoleBuffer, this`fileOut, this`consoleOut,
               this`isOpen, this`openPath, this`fs
      ensures writeBuffer == []
      ensures State() == AppendAll(old(State()), conf, fileLimit, consoleLimit, Lines(old(writeBuffer), conf.isColor), stamp)
    {
      if writeBuffer != [] {
        WriteMsgBuffer(stamp);
        writeBuffer := [];
      } else {
        assert AppendAll(State(), conf, fileLimit, consoleLimit, Lines([], conf.isColor), stamp) == State();
      }
    }

    /** The flush after `processBatch`'s loop: what is left in an enabled sink's buffer is written out. */
    method FlushRemaining(stamp: string)
      modifies this`fileBuffer, this`consoleBuffer, this`fileOut, this`consoleOut,
               this`isOpen, this`openPath, this`fs
      ensures State() == FinalFlush(old(State()), conf, stamp)
    {
      if conf.isWritefile && fileBuffer != [] {
        WriteFileBuffer();
        RotateFile(stamp);
      }
      if conf.isConsole && consoleBuffer != [] {
        WriteConsoleBuffer();
      }
    }

    /** `setLogDirName`: changes only `logDirName` and returns this logger. */
    method SetLogDirName(value: string) returns (self: Logger)
      modifies this`conf
      ensures self == this && conf == old(conf).(logDirName := value)
    {
      conf := conf.(logDirName := value);
      self := this;
    }

    /** `setPrefixPath`: changes only `logPrefixPath` and returns this logger. */
    method SetPrefixPath(value: string) returns (self: Logger)
      modifies this`conf
      ensures self == this && conf == old(conf).(logPrefixPath := value)
    {
      conf := conf.(logPrefixPath := value);
      self := this;
    }

    /** `setLogFileName`: changes only `logFileName` and returns this logger. The source takes `_mtx` here; the lock is not modelled. */
    method SetLogFileName(value: string) returns (self: Logger)
      modifies this`conf
      ensures self == this && conf == old(conf).(logFileName := value)
    {
      conf := conf.(logFileName := value);
      self := this;
    }

    /** `setFileMaxSize`: changes only `fileMaxSize` and returns this logger. The buffer thresholds derived from it in `initiallize` keep their values. */
    method SetFileMaxSize(value: nat) returns (self: Logger)
      modifies this`conf
      ensures self == this && conf == old(conf).(fileMaxSize := value)
    {
      conf := conf.(fileMaxSize := value);
      self := this;
    }

    /** `setFileNum`: changes only `fileNum` and returns this logger. */
    method SetFileNum(value: nat) returns (self: Logger)
      modifies this`conf
      ensures self == this && conf == old(conf).(fileNum := value)
    {
      conf := conf.(fileNum := value);
      self := this;
    }

    /** `setConsle`: changes only `isConsole` and returns this logger. */
    method SetConsole(value: bool) returns (self: Logger)
      modifies this`conf
      ensures self == this && conf == old(conf).(isConsole := value)
    {
      conf := conf.(isConsole := value);
      self := this;
    }

    /** `setColor`: changes only `isColor` and returns this logger. */
    method SetColor(value: bool) returns (self: Logger)
      modifies this`conf
      ensures self == this && conf == old(conf).(isColor := value)
    {
      conf := conf.(isColor := value);
      self := this;
    }

    /** `setWritefile`: changes only `isWritefile` and returns this logger. */
    method SetWritefile(value: bool) returns (self: Logger)
      modifies this`conf
      ensures self == this && conf == old(conf).(isWritefile := value)
    {
      conf := conf.(isWritefile := value);
      self := this;
    }

    /** `setRotate`: changes only `isRotate` and returns this logger. */
    method SetRotate(value: bool) returns (self: Logger)
      modifies this`conf
      ensures self == this && conf == old(conf).(isRotate := value)
    {
      conf := conf.(isRotate := value);
      self := this;
    }
  }
}
