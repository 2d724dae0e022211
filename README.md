# yoyologger, sequential data path

A Dafny model of the asynchronous logger in `src/logger.hpp`: the record queue, how records are rendered, the worker that drains the queue into the file and console string buffers, log rotation, and the configuration with its setters. Locks, condition variables and the worker thread are left out. The model is what one thread sees with the lock held.

- **`CircularQueues`** (circular_queue.dfy): `CirculQueen<T>` as a class over an array of `maxSize + 1` slots, with `head` and `tail` indices. A ghost sequence holds its contents, oldest first.
- **`BufferQueues`** (buffer_queue.dfy): `BufferQueen<T>`. Each blocking wait becomes a precondition. The batch dequeue is specified by the recursive function `Drain`, which mirrors its `while` loop.
- **`Levels`** (levels.dfy): the `LOGLEVEL` enum, the tag table and the colour table (including the reset entry), and the getters over them.
- **`Decimal`** (decimal.dfy): `std::to_string` on a line number, with a parser as its inverse.
- **`Messages`** (message.dfy): a record and `formatMsg`. A parser for rendered lines is the partner that proves rendering loses nothing for records whose time has no `]` and whose file and function names have no `:`. Rendering is not injective in general: a colon can move between the file and function names without changing the line (`FormatCollision`), and qualified C++ function names such as `ns::f` contain colons.
- **`Config`** (config.dfy): `logConf`, its defaults, and the directory, active and rotated path names.
- **`Sinks`** (sink.dfy): the worker's output side as pure functions on a `Sink` snapshot. The snapshot holds:
  - the file and console string buffers;
  - what has reached the file handle and standard output;
  - whether the handle is open, and on which path;
  - the file system, as a map from path to file length.

  `writeMsgbuffer` is `AppendAll`, one `AppendLine` per record. The final phase of `processBatch` is `FinalFlush`, and `rotateFile` is `Rotate`.
- **`Loggers`** (logger.dfy): the `Logger` class.
  - Each method ensures `State() == F(old(State()))` for the matching `Sinks` function.
  - `processBatch` is specified by the function `Rounds`, which follows its loop round by round. The lemmas beside `Rounds` prove:
    - every record waiting in the queue reaches the file side in order, where "the file side" is what was written through the handle followed by what is still buffered;
    - with the console on, every such record reaches standard output in order, and the console buffer ends empty;
    - with file output on and the handle open, the file buffer ends empty, so every record was written through the handle, to the active file or to files rotated away during the run; with rotation off as well, the one file the handle was opened on grows by exactly the text buffered or queued; with the handle closed and rotation off (the first open failed and nothing reopens it), nothing is written and every file line stays in the buffer;
    - the loop ends only after the stop flag has been read with the queue empty.

Nothing outside the program's own state is modelled directly. It enters as parameters:
- `getCurrentTime()` is a per-record string field, `time`.
- The rotation timestamp (`strftime` of the current time) is a `stamp` argument.
- `processBatch` takes `clock(i)`, the stamp of round `i`.
- The racy `_isStop` flag is `conf.isStop || i >= stopRound` as read in round `i`.
- Whether the initial `open` succeeds is a constructor argument. The file system as it was before the logger started is also a constructor argument.

## Model

| member | source | states |
|---|---|---|
| CircularQueues.CircularQueue.constructor | src/logger.hpp:65-66 | a fresh queue is empty, holds `maxSize` items at most, and starts with both indices at 0 |
| CircularQueues.CircularQueue.GetNum | src/logger.hpp:75 | the modular distance from head to tail is the number of queued items, and it never exceeds the capacity |
| CircularQueues.CircularQueue.SetMaxSize | src/logger.hpp:76-79 | on an empty queue whose head fits the new size, the queue stays empty and now holds `maxSize` items at most |
| CircularQueues.CircularQueue.IsFull | src/logger.hpp:80 | `(tail + 1) % slots == head` holds exactly when the queue holds as many items as its capacity |
| CircularQueues.CircularQueue.IsEmpty | src/logger.hpp:82 | `tail == head` holds exactly when the queue is empty |
| CircularQueues.CircularQueue.Push | src/logger.hpp:84-90 | succeeds exactly when the queue is below capacity; on success the item is appended after the earlier items, which are unchanged, and on failure nothing changes |
| CircularQueues.CircularQueue.Front | src/logger.hpp:91 | on a non-empty queue, the oldest item |
| CircularQueues.CircularQueue.FrontPop | src/logger.hpp:93 | drops exactly the oldest item |
| CircularQueues.CircularQueue.Pop | src/logger.hpp:95-99 | returns the oldest item and removes exactly that one (FIFO) |
| BufferQueues.BufferQueue.constructor | src/logger.hpp:127 | the default queue is empty with capacity 10240 |
| BufferQueues.BufferQueue.WithSize | src/logger.hpp:128-129 | the sized queue is empty with the given capacity |
| BufferQueues.BufferQueue.Enqueue | src/logger.hpp:131-138 | once the queue has room, the item becomes the newest one and the capacity is unchanged |
| BufferQueues.BufferQueue.Dequeue | src/logger.hpp:140-147 | once the queue is non-empty, returns and removes the oldest item |
| BufferQueues.BufferQueue.DequeueBatch | src/logger.hpp:149-159 | the resulting batch and queue are what `Drain` gives: the loop moves the oldest items onto the batch while it is short of `batchSize` |
| BufferQueues.Drain | src/logger.hpp:154-156 | the batch dequeue's loop as a function; its closed form and properties are `DrainTakesPrefix` and `DrainProperties` |
| BufferQueues.Taken | src/logger.hpp:154-156 | the number of items moved never exceeds what is queued; it fills the batch exactly to `batchSize` unless the queue runs out first; nothing is moved when the batch is already full |
| BufferQueues.DrainTakesPrefix | src/logger.hpp:154-156 | the batch loop appends the first `Taken(..)` queued items, in order, and leaves the rest queued |
| BufferQueues.DrainProperties | src/logger.hpp:149-159 | the old batch is kept as a prefix; batch followed by queue is unchanged; items are added only while the batch is short of `batchSize`; at the end the batch is full or the queue is empty |
| BufferQueues.BufferQueue.IsEmpty | src/logger.hpp:162 | true exactly when nothing is queued |
| BufferQueues.BufferQueue.Resize | src/logger.hpp:164-167 | on an empty queue, the capacity becomes `size` and the queue stays empty |
| Levels.GetLevelFlag | src/logger.hpp:288-290 | the tag at the level's enum index; its shape, injectivity and inverse are `FlagShape`, `TablesInjective` and `FlagRoundTrip` |
| Levels.GetLevelColor | src/logger.hpp:282-284 | the colour at the level's enum index; its shape and injectivity are `ColorShape` and `TablesInjective` |
| Levels.GetColorReset | src/logger.hpp:285-287 | entry 6 of the colour table; `ColorShape` proves it is `ESC[0m` and no level's colour |
| Levels.Index | src/logger.hpp:49 | every level's underlying value is below 6, so it indexes both tables |
| Levels.FlagShape | src/logger.hpp:288-298 | every tag is four to seven upper-case letters |
| Levels.ColorShape | src/logger.hpp:282-302 | the colour for each level is `ESC[3dm` with its own digit (6, 2, 3, 1, 5, 4); the reset code is entry 6, `ESC[0m`, and no level uses it |
| Levels.LevelOfFlag | src/logger.hpp:297-298 | names a level exactly for the six tags, and then it is the level whose tag that is |
| Levels.FlagRoundTrip | src/logger.hpp:288-298 | reading back a level's tag gives that level |
| Levels.TablesInjective | src/logger.hpp:297-302 | two levels share a tag, or a colour, only when they are the same level |
| Decimal.ToDecimal | src/logger.hpp:257 | `to_string` of a line number: one or more digits, no leading zero, a single digit exactly for numbers below 10 |
| Decimal.DecimalRoundTrip | src/logger.hpp:257 | parsing the spelling of a number gives the number back |
| Decimal.DecimalInjective | src/logger.hpp:257 | distinct line numbers are spelled differently |
| Decimal.CanonicalRoundTrip | src/logger.hpp:257 | every digit string without a leading zero is the spelling of its own value |
| Messages.FormatMsg | src/logger.hpp:244-262 | the rendering `[time][LEVEL][file:function:line:text]`; `FormatShape`, `ParseLineCharacterization` and `FormatCollision` state what it keeps and what it loses |
| Messages.FileLine | src/logger.hpp:372-373 | the rendering and a newline, what one record adds to the file buffer; `ConsoleShape` relates it to the console line |
| Messages.ConsoleLine | src/logger.hpp:374-383 | the coloured or plain console line; its shape is `ConsoleShape` |
| Messages.FormatShape | src/logger.hpp:244-262 | a rendered record is bracketed, begins with its time, and is as long as its fields plus 9 |
| Messages.FormatParseRoundTrip | src/logger.hpp:244-262 | a record whose time has no `]` and whose file and function names have no `:` is read back from its rendering unchanged |
| Messages.ParseLineCharacterization | src/logger.hpp:244-262 | a line parses to a record exactly when it is that record's rendering and the record's fields contain no separator |
| Messages.FormatCollision | src/logger.hpp:252-256 | two different records, whose file and function names differ only in where a `:` falls, render to the same line |
| Messages.ColonNamesNotRecovered | src/logger.hpp:252-256 | a record with `:` in its file or function name is not read back from its rendering |
| Messages.ConsoleShape | src/logger.hpp:372-383 | without colour the console line is the file line; with colour it is the colour code, the rendering, the reset code and a newline; both lines end with a newline |
| Config.DefaultConf | src/logger.hpp:467-477 | the defaults: not stopped, colour, console and file on, rotation off, 128 MiB, 10 files, `./log/app` |
| Config.LogDirName | src/logger.hpp:488-493 | `prefix/dir`; spelled out in `PathShapes` |
| Config.LogName | src/logger.hpp:494-497 | `prefix/dir/name`, the stem of both file names; spelled out in `PathShapes` |
| Config.ActivePath | src/logger.hpp:431 | `prefix/dir/name.log`; `PathShapes` proves it differs from every rotated name |
| Config.RotatedPath | src/logger.hpp:445-448 | `prefix/dir/name_stamp.log`; `PathShapes` and `RotatedPathInjective` state its shape and injectivity |
| Config.PathShapes | src/logger.hpp:488-497 | the active path is `prefix/dir/name.log` and the rotated path is `prefix/dir/name_stamp.log`; the two are never equal |
| Config.RotatedPathInjective | src/logger.hpp:445-448 | rotations with different stamps produce different file names |
| Sinks.Lines | src/logger.hpp:371-384 | a batch renders to one line pair per record |
| Sinks.LinesAt | src/logger.hpp:371-384 | the `i`-th line pair is the rendering of the `i`-th record |
| Sinks.LinesSplit | src/logger.hpp:406-408 | rendering the first `k` records, and the rest, gives the matching pieces of the whole rendering |
| Sinks.WriteFile | src/logger.hpp:387-391 | the file write and clear while the handle is open; its properties are `WriteFileFacts` |
| Sinks.WriteConsole | src/logger.hpp:396-400 | the console write and clear; its properties are `WriteConsoleFacts` |
| Sinks.Rotate | src/logger.hpp:429-453 | the rotation decision and the rename and reopen; its properties are `RotateFacts` |
| Sinks.BufferLine | src/logger.hpp:372-384 | the appending half of one loop iteration; its properties are `BufferLineFacts` |
| Sinks.FlushOver | src/logger.hpp:385-401 | the flushing half of one loop iteration; its properties are `FlushOverFacts` |
| Sinks.AppendLine | src/logger.hpp:371-402 | one loop iteration; its properties are `AppendLineFacts` |
| Sinks.AppendAll | src/logger.hpp:370-403 | `writeMsgbuffer` over a batch; its properties are `AppendAllFile`, `AppendAllConsole`, `AppendAllBounded` and `AppendAllNoFile` |
| Sinks.FinalFlush | src/logger.hpp:412-426 | the final phase of `processBatch`; its properties are `FinalFlushFacts` |
| Sinks.WriteFileFacts | src/logger.hpp:387-391 | with the handle open, the buffer moves to the file (the file grows by its length) and is cleared; with it closed, nothing changes; the console side is untouched |
| Sinks.WriteConsoleFacts | src/logger.hpp:396-400 | the console buffer moves to standard output, is cleared, and nothing else changes |
| Sinks.RotateFacts | src/logger.hpp:429-453 | no change when rotation is off or the file is below `fileMaxSize`. Otherwise: the active file's length moves to the rotated name; the active file is reopened empty; no other file changes; the buffers and outputs are untouched |
| Sinks.BufferLineFacts | src/logger.hpp:372-384 | the file line is always appended to the file buffer; the console line is appended only with the console on; nothing else changes |
| Sinks.FlushOverFacts | src/logger.hpp:385-401 | nothing is lost from either side; the file is written only when file output is on, the handle is open and the buffer exceeds its limit, and it is then empty; an enabled console buffer ends empty exactly when it exceeded its limit or was empty; a disabled sink is untouched |
| Sinks.AppendLineFacts | src/logger.hpp:371-402 | one loop iteration: written followed by buffered grows by exactly this record's line on each enabled side; the flush conditions are as in `FlushOverFacts` |
| Sinks.AppendAllFile | src/logger.hpp:370-403 | across `writeMsgbuffer`, written followed by buffered file text grows by exactly the batch's file lines, in order |
| Sinks.AppendAllConsole | src/logger.hpp:370-403 | with the console on, written followed by buffered console text grows by exactly the batch's console lines, in order; with it off, the console side does not change |
| Sinks.AppendAllBounded | src/logger.hpp:370-403 | an enabled buffer that starts within its limit stays within it (the file buffer while the handle is open), and an open handle stays open |
| Sinks.AppendAllNoFile | src/logger.hpp:370-403 | with file output off, the file buffer gains every file line while no file and no file output change |
| Sinks.AppendAllClosed | src/logger.hpp:385-392 | with the handle closed and rotation off, the handle stays closed, nothing is written, and the file buffer gains every file line of the batch in order |
| Sinks.AppendLineSameFile | src/logger.hpp:371-402 | with rotation off and the handle open, the handle stays open on the same path and that file grows by exactly the text written through the handle |
| Sinks.AppendAllSameFile | src/logger.hpp:370-403 | with rotation off and the handle open, the whole batch is written to the one file the handle was opened on, which grows by exactly the text written |
| Sinks.FinalFlushSameFile | src/logger.hpp:412-426 | with rotation off and the handle open, the final write goes to the same file, which grows by exactly the text written |
| Sinks.FinalFlushFacts | src/logger.hpp:412-426 | nothing is lost; the file buffer ends empty when file output is on and the handle is open; the console buffer ends empty when the console is on; a disabled sink is untouched |
| Loggers.Rounds | src/logger.hpp:405-411 | the rounds of `processBatch`'s loop; its properties are `RoundsStop`, `RoundsFile`, `RoundsConsole`, `RoundsNoConsole`, `RoundsFrame` and `Delivered` |
| Loggers.RoundsStop | src/logger.hpp:405-411 | the loop ends only on a round that read the stop flag, and it runs at least once while records are queued |
| Loggers.RoundsFile | src/logger.hpp:404-411 | over all rounds, every queued record's file line reaches the file side, in queue order |
| Loggers.RoundsConsole | src/logger.hpp:404-411 | with the console on, every queued record's console line reaches the console side, in queue order |
| Loggers.RoundsNoConsole | src/logger.hpp:404-411 | with the console off, the rounds leave the console buffer and standard output unchanged |
| Loggers.RoundsFrame | src/logger.hpp:404-411 | an open handle stays open; with file output off, no file is written and no file changes |
| Loggers.RoundsClosed | src/logger.hpp:404-411 | with the handle closed and rotation off, the rounds write nothing, the handle stays closed, and every queued record's file line stays in the file buffer, in order |
| Loggers.RoundsSameFile | src/logger.hpp:404-411 | with rotation off and the handle open, every round writes to the one file the handle was opened on, which grows by exactly the text written |
| Loggers.Delivered | src/logger.hpp:404-427 | `processBatch` as a whole. The loop ends only after the stop flag is read. Every queued record reaches the file side (written followed by buffered) in order. With file output on and the handle open, the file buffer ends empty, so everything buffered or queued was written through the handle, to the active file or to files rotated away during the run; with rotation off as well, the file the handle was opened on grows by exactly that text. With the handle closed and rotation off, nothing is written and every file line stays in the buffer. With the console on, every record reaches standard output in order and the console buffer ends empty. With the console off, the console side is untouched; with file output off, no file and no file output change (the file buffer still gains every line) |
| Loggers.Logger.constructor | src/logger.hpp:307-313 | default configuration with console and rotation off; an empty queue of capacity 8192; empty buffers; thresholds of 64 MiB and 32 MiB; the active file opened and truncated when the open succeeds |
| Loggers.Logger.Initialize | src/logger.hpp:553-570 | the queue is resized to 8192; the active file is opened truncated; console and rotation are switched off; the thresholds are `fileMaxSize / 2` and `fileMaxSize / 4` |
| Loggers.Logger.OpenLog | src/logger.hpp:561 | the handle refers to the active path, is open exactly when the open succeeds, and then truncates the file to length 0 |
| Loggers.Logger.ResizeQueue | src/logger.hpp:557 | the empty queue gets capacity 8192 |
| Loggers.Logger.Log | src/logger.hpp:354-360 | once there is room, the record is appended to the queue and nothing else changes |
| Loggers.Logger.RotateFile | src/logger.hpp:429-453 | the new output state is `Rotate` of the old one, whose properties are `Sinks.RotateFacts` |
| Loggers.Logger.WriteFileBuffer | src/logger.hpp:387-391 | the new output state is `WriteFile` of the old one (`Sinks.WriteFileFacts`) |
| Loggers.Logger.WriteConsoleBuffer | src/logger.hpp:396-400 | the new output state is `WriteConsole` of the old one (`Sinks.WriteConsoleFacts`) |
| Loggers.Logger.BufferOne | src/logger.hpp:372-384 | the new output state is `BufferLine` of the record's rendering under the current colour setting |
| Loggers.Logger.FlushFull | src/logger.hpp:385-401 | the new output state is `FlushOver` with the logger's thresholds |
| Loggers.Logger.WriteOne | src/logger.hpp:371-402 | one iteration of the loop: `AppendLine` of the record's rendering |
| Loggers.Logger.WriteMsgBuffer | src/logger.hpp:370-403 | the new output state is `AppendAll` over the batch's renderings in order, which `Sinks.AppendAllFile`, `AppendAllConsole` and `AppendAllBounded` characterise |
| Loggers.Logger.ProcessBatch | src/logger.hpp:404-427 | the queue ends empty; the result is the number of rounds; the output state is `FinalFlush` after `Rounds`, whose properties are `Loggers.Delivered` |
| Loggers.Logger.RunWorker | src/logger.hpp:555-569 | the worker thread's call: `processBatch` with batch size 4096, half the queue size, with the same result as `ProcessBatch` |
| Loggers.Logger.RunRounds | src/logger.hpp:405-411 | from round `round` on, the loop leaves the queue empty and reaches the state and round count that `Rounds` gives |
| Loggers.Logger.WorkRound | src/logger.hpp:406-410 | one round shortens a non-empty queue and leaves `Rounds` of the remaining rounds equal to `Rounds` from this one |
| Loggers.Logger.TakeAndWrite | src/logger.hpp:406-410 | the oldest `Taken(..)` records leave the queue and are written by `AppendAll`, in order; the batch ends cleared |
| Loggers.Logger.WriteBatch | src/logger.hpp:407-410 | a non-empty batch is written by `AppendAll` and cleared; an empty one changes nothing |
| Loggers.Logger.FlushRemaining | src/logger.hpp:412-426 | the new output state is `FinalFlush` of the old one (`Sinks.FinalFlushFacts`) |
| Loggers.Logger.SetLogDirName | src/logger.hpp:500-503 | only `logDirName` changes, and the same logger is returned |
| Loggers.Logger.SetPrefixPath | src/logger.hpp:504-507 | only `logPrefixPath` changes, and the same logger is returned |
| Loggers.Logger.SetLogFileName | src/logger.hpp:508-512 | only `logFileName` changes, and the same logger is returned |
| Loggers.Logger.SetFileMaxSize | src/logger.hpp:514-517 | only `fileMaxSize` changes (not the thresholds derived from it), and the same logger is returned |
| Loggers.Logger.SetFileNum | src/logger.hpp:518-521 | only `fileNum` changes, and the same logger is returned |
| Loggers.Logger.SetConsole | src/logger.hpp:522-525 | only `isConsole` changes, and the same logger is returned |
| Loggers.Logger.SetColor | src/logger.hpp:526-529 | only `isColor` changes, and the same logger is returned |
| Loggers.Logger.SetWritefile | src/logger.hpp:530-533 | only `isWritefile` changes, and the same logger is returned |
| Loggers.Logger.SetRotate | src/logger.hpp:534-537 | only `isRotate` changes, and the same logger is returned |

## Left out

- Strings are sequences of Dafny `char`, and one `char` stands for one byte of a `std::string`. Buffer lengths, file lengths and the flush and rotation thresholds are counted in those units, as `size()` and `file_size` count bytes; a text holding a multi-byte UTF-8 character is modelled by its bytes, not by its Unicode characters.
- The singleton `getInstance` with its double-checked locking exists only for concurrency. The model constructs one `Logger`.
- Mutexes, condition variables and `notify_one` are absent: one thread runs at a time. The wait in `enqueen` becomes the precondition that the queue has room. The wait in the single-item `dequeen` becomes the precondition that it is non-empty.
- The 1 ms `wait_for` in the batch `dequeen` is modelled as "nothing was queued, nothing is taken"; no record arrives during the wait.
- Nothing models the worker thread, its creation in `initiallize`, or `join` in the destructor. The destructor's `_isStop = true` is the `stopRound` argument of `ProcessBatch`.
- No producer runs beside `processBatch`. `Rounds` drains the records queued when the worker starts.
- `thread_local` on `_writeBuffer` is dropped; it is a plain field.
- `getCurrentTime` (clock, `localtime_r`, `snprintf`) and the rotation timestamp (`strftime`) are not computed; they are strings given to the model.
- Input and output are abstract state. The model has no real `ofstream`, `std::cout` or `std::filesystem`. File contents are not tracked beyond their length and everything written through the handle. `is_regular_file` is taken to hold for every existing path.
- `createlogDir` and the exception it may throw, caught in the constructor, are not modelled.
- `Message::outPutMsg` and `Logger::process` are an older output path the worker never calls.
- Capturing `source_location` and the thread id in `LocationInfo` is left out. A location is a plain file, function and line triple.
- The move constructor and the move assignment (`rvalueCtor`) are left out. They leave a queue with zero slots, on which `getNum`, `isFull`, `push` and `front_pop` divide by zero and `pop` reads out of bounds (`isEmpty` does not, and `setMaxSize` sets the slot count again).
- `_iOverCount` is never read or updated beyond being copied, so it is left out.
- `Loggers.Logger.RotateFile`: reopening the active file after a rotation always succeeds.
- `Sinks.WriteFile`: every write and flush through an open handle succeeds. In the source a failed write (a full disk, say) sets the stream's error state while `is_open()` stays true, and the buffer is cleared anyway, so that text is lost. The model's "everything buffered or queued was written through the handle" depends on this.
- `Sinks.Rotate`: `exists`, `is_regular_file`, `file_size` and `rename` always succeed. In the source they can throw `filesystem_error`, which nothing on the worker thread catches, so the process terminates.
- `RotateFile` narrows `file_size` into an `int` before comparing it with `_fileMaxSize`; sizes are unbounded naturals here, and likewise `size_t` arithmetic does not wrap.
- `_fileNum`: the source stores the number of rotated files to keep but never enforces it, so the model does not either.
- `CircularQueues.CircularQueue.Pop`: requires a non-empty queue. On an empty queue the source advances `_Head` past `_Tail`, after which the indices describe a full queue of stale slots. Its only caller checks emptiness first.
- `CircularQueues.CircularQueue.FrontPop`: requires a non-empty queue, for the same reason as `Pop`.
- `CircularQueues.CircularQueue.SetMaxSize`: requires an empty queue whose head index fits the new size. The source keeps `_Head` and `_Tail` through the resize, which otherwise leaves them out of range. Its only use is on the fresh queue in `initiallize`.
- `BufferQueues.BufferQueue.Resize`: carries the same precondition as `SetMaxSize`.
- `Loggers.Logger.ProcessBatch`: requires `batchSize > 0` and an empty batch on entry. With a batch size of 0 the source's loop never takes a record and never ends while records are queued. The source calls it with 4096 and an empty batch.
- `Loggers.Logger.WriteMsgBuffer`: takes one rotation stamp per call, not a fresh clock reading for every rotation inside the loop. So a second rotation in the same call renames the active file onto the same rotated name and replaces the file rotated earlier; the source does the same when two rotations fall in the same second, since its stamp has one-second resolution and its rename replaces an existing target.
- `Loggers.Logger.RunRounds`: `processBatch`'s `while` loop is not written as a loop. The method runs one round and then calls itself for the remaining rounds, call for call as `Rounds` unfolds, so the order of rounds and their effects are the loop's, but the loop's in-place iteration is expressed as recursion.
- `isColor`, `isConsole` and the other configuration fields stay fixed while the worker runs; no setter is called concurrently.
