# sylar logging pipeline in Dafny

A model of the logging core of the sylar C++ library (`sylar/log.h`, `sylar/log.cpp`):
log levels and their names, the eleven format items, `LogFormatter` with its
pattern scanner `init` and its `format`, the two appenders with their level gates
and sinks, and `Logger` with its ordered appender list and its fan-out.

Modules, leaves first:

- `Levels` (levels.dfy): `LogLevel::Level` as integers 1..5 and `LogLevel::ToString`.
- `Decimal` (decimal.dfy): base-10 rendering of integers, as `std::ostream <<` prints the
  numeric event fields, with a parser as its inverse.
- `Events` (events.dfy): `LogEvent` as a value; its string stream is the `content` field.
- `FormatItems` (format_items.dfy): the closed family of items as one datatype with a
  `Render` function; `RenderAll` is the in-order concatenation; the unused
  `s_format_items` table.
- `Formatters` (formatters.dfy): `LogFormatter` as a class, `init` as a method that keeps
  the original's loop variables (`i`, `n`, `fmt_status`, `str`, `fmt`, `fmt_begin`,
  `nstr`, `vec`), and a declarative account of which patterns the scan finishes on.
- `Appenders` (appenders.dfy): a `Stream` class for sinks (standard output or a file
  stream, each a sequence of written chunks) and `LogAppender` as a class for both
  subclasses.
- `Loggers` (loggers.dfy): `Logger` as a class whose `appenders` sequence changes in place.

The model follows the code as written, which differs from the library's stated intent
in several places:

- `init` never assigns `m_items`: the tuples it collects are discarded, so every
  formatter that can be constructed has no items and renders "".
- `%%` appends `%` and then scans the second `%` again as the start of a directive, so
  `%%` alone gives `%`, but `%%m` never finishes.
- A `%` followed by any non-space character other than `%` or `{` makes the inner
  `while` loop repeat forever (in the original, `vec` grows until memory runs out). The
  same happens for `%{x` and for `%{}x` with a non-space `x`. The scan finishes only
  when every such `%` is followed by the end or whitespace, or by `{` or `{}` and then
  the end or whitespace; the `%` is then dropped and the braces stay literal text.
- The default pattern `"%d {%p} %f %l %m %n "` is one of the diverging ones, so the
  `Logger` constructor does not return.
- There is no UNKNOWN level; `ToString` answers "UNKNOW" for any other integer.
- The date-time item prints the raw timestamp and ignores its sub-format.

## Model

| member | source | states |
|---|---|---|
| `Levels.ToString` | sylar/log.cpp:7-26 | one of the five names exactly for the levels 1..5, "UNKNOW" for any other value |
| `Levels.ToStringInjective` | sylar/log.h:41-47 | distinct enumerators have distinct names |
| `Decimal.NatToString` | sylar/log.cpp:43-50 | an unsigned field prints as one or more decimal digits, with no leading zero except for 0 itself |
| `Decimal.IntToString` | sylar/log.cpp:101-108 | a signed field prints as one or more characters, starting with '-' exactly when it is negative |
| `Decimal.ParseNatToString` | sylar/log.cpp:43-50 | an unsigned field printed in base 10 parses back to itself |
| `Decimal.ParseIntToString` | sylar/log.cpp:101-108 | the signed line number printed in base 10, with '-' when negative, parses back to itself |
| `Decimal.NatToStringInjective` | sylar/log.cpp:61-77 | distinct numbers print differently |
| `Events.NewEvent` | sylar/log.cpp:311-318 | every getter of a new event returns its constructor argument; the content starts empty |
| `Events.Write` | sylar/log.h:24-25 | writing to the event's stream extends `getContent()` by exactly the text and changes no other field |
| `Events.WriteTwice` | sylar/log.h:24-25 | two writes in a row equal one write of the concatenation |
| `FormatItems.Render` | sylar/log.cpp:27-132 | only the message, name, file-name and literal items can write nothing; the elapse, thread, fiber and date-time items write decimal digits only |
| `FormatItems.RenderAll` | sylar/log.cpp:203-210 | the items' outputs joined in order, so an output whose last item is not one of those four is not empty |
| `FormatItems.RenderAllWrites` | sylar/log.cpp:203-210 | the output has at least one character for every item other than the message, name, file-name and literal items |
| `FormatItems.LevelItemWritesName` | sylar/log.cpp:35-42 | the level item writes `ToString(level)`: a level name for 1..5, "UNKNOW" otherwise |
| `FormatItems.NumericItemsRoundTrip` | sylar/log.cpp:43-108 | elapse, thread id, fiber id, timestamp and line items write exactly the decimal digits of their field |
| `FormatItems.DateTimeIgnoresFormat` | sylar/log.cpp:79-90 | the date-time item writes the raw timestamp whatever its sub-format |
| `FormatItems.RenderReadsOneField` | sylar/log.cpp:27-132 | each item's output depends only on the one event field it reads |
| `FormatItems.RenderAllAppend` | sylar/log.cpp:203-210 | rendering a concatenation of items is the concatenation of the renderings, no separators |
| `FormatItems.RenderAllOfText` | sylar/log.cpp:122-132 | literal items render their text, whatever the event |
| `FormatItems.MakeItem` | sylar/log.cpp:291-308 | the static table knows exactly the nine letters m p r c t n d f l, and only `d` keeps its sub-format |
| `Formatters.Iterate` | sylar/log.cpp:234-277 | one pass of the inner loop either takes the `{` or `}` step (n and fmt_status advance, vec unchanged) or is stuck (n and fmt_status unchanged, vec grows, stuck again) |
| `Formatters.IterateN` | sylar/log.cpp:234-277 | from a stuck state, after any number of passes the loop guard still holds, no whitespace breaks it and vec has grown by at least one tuple per pass: the loop never ends |
| `Formatters.KeptNoPercent` | sylar/log.cpp:216-220 | characters other than `%` are appended to `nstr` one for one |
| `Formatters.PlainPattern` | sylar/log.cpp:216-281 | a pattern without `%` is scanned to completion and yields the single literal tuple (pattern, "", 0), or nothing for "" |
| `Formatters.TrailingPercentDropped` | sylar/log.cpp:229-237 | a `%` at the end of the pattern adds nothing |
| `Formatters.PercentBeforeSpaceDropped` | sylar/log.cpp:234-237 | a `%` before whitespace adds nothing; the whitespace stays literal text |
| `Formatters.EmptyBracesStayLiteral` | sylar/log.cpp:239-257 | `%{}` before whitespace finishes, drops the `%` and keeps `{}` as literal text |
| `Formatters.DoublePercentAlone` | sylar/log.cpp:222-226 | `%%` alone yields one literal `%` |
| `Formatters.DirectiveDiverges` | sylar/log.cpp:259-265 | `%` followed by a non-space character other than `%` and `{` makes the scan never finish, whatever surrounds it |
| `Formatters.DefaultPatternDiverges` | sylar/log.cpp:152 | the logger's default pattern is such a pattern |
| `Formatters.LogFormatter.constructor` | sylar/log.cpp:199-201 | stores the pattern, runs `init`, and leaves `m_items` empty |
| `Formatters.LogFormatter.Format` | sylar/log.cpp:203-210 | the result is every item's rendering concatenated in item order |
| `Formatters.LogFormatter.Init` | sylar/log.cpp:212-309 | the scan finishes exactly when every lone `%` closes; it then holds the literal text (the pattern minus every lone `%`) as one tuple or nothing; otherwise it stops in a stuck state of the inner loop |
| `Formatters.ConstructedFormatterRendersEmpty` | sylar/log.cpp:199-210 | every formatter that can be constructed renders "" |
| `Appenders.Stream.Write` | sylar/log.cpp:177-182 | an open stream gains the text as one more chunk; a stream that is not open is unchanged |
| `Appenders.Stream.Open` | sylar/log.cpp:184-190 | the stream is open exactly when opening succeeded, and a newly opened file is empty |
| `Appenders.LogAppender.Stdout` | sylar/log.h:84-86 | a new standard-output appender writes to the shared console, with level DEBUG and no formatter |
| `Appenders.LogAppender.File` | sylar/log.cpp:174-175 | a new file appender keeps its file name, owns a stream that is not open, has level DEBUG and no formatter |
| `Appenders.LogAppender.SetFormatter` | sylar/log.h:80-81 | the formatter becomes the argument; the level is unchanged |
| `Appenders.LogAppender.Log` | sylar/log.cpp:177-197 | if the level passes the appender's gate the sink receives exactly the formatter's output as one chunk, otherwise the sink is unchanged; a formatter is needed only when the gate passes |
| `Appenders.LogAppender.Reopen` | sylar/log.cpp:184-190 | reports whether the file was opened; on success the stream is open on an empty file |
| `Appenders.NewAppenderGate` | sylar/log.h:85-86 | with the default level DEBUG, an appender writes for every level 1..5 and stops only values below 1 |
| `Loggers.RemoveFirst` | sylar/log.cpp:141-148 | erasing removes at most one entry and adds none |
| `Loggers.RemoveFirstAt` | sylar/log.cpp:141-148 | erasing cuts out exactly the first entry equal to the argument |
| `Loggers.RemoveFirstAbsent` | sylar/log.cpp:141-148 | erasing an absent appender leaves the list and its order unchanged |
| `Loggers.RemoveFirstCount` | sylar/log.cpp:141-148 | erasing a present appender removes one copy of it and nothing else |
| `Loggers.EmittedAppend` | sylar/log.cpp:155-162 | delivering to a list that is two lists joined writes what the first writes, then what the second writes |
| `Loggers.EmittedByWriters` | sylar/log.cpp:155-162 | each appender on a sink that passes its gate contributes exactly one chunk, its formatter's output, in list order |
| `Loggers.EmittedAfterRemove` | sylar/log.cpp:141-162 | after erasing an appender each sink loses exactly that entry's chunk |
| `Loggers.Logger.constructor` | sylar/log.cpp:150-153 | level DEBUG, no appenders, the given formatter, and the given name or "root" when none is given |
| `Loggers.Logger.SetLevel` | sylar/log.h:103-104 | the level becomes the argument |
| `Loggers.Logger.AddAppender` | sylar/log.cpp:134-139 | the appender is appended after the unchanged earlier entries; it gets the logger's formatter only if it had none |
| `Loggers.Logger.DelAppender` | sylar/log.cpp:141-148 | the list becomes the list with its first entry identical to the argument erased |
| `Loggers.Logger.Log` | sylar/log.cpp:155-162 | below the logger's level no sink changes; otherwise each sink receives the chunks of its appenders in list order; only appenders whose gate passes need a formatter, and none does below the logger's level |
| `Loggers.Logger.Debug` | sylar/log.cpp:164 | the same effect as `Log` at DEBUG |
| `Loggers.Logger.Info` | sylar/log.cpp:166 | the same effect as `Log` at INFO |
| `Loggers.Logger.Warn` | sylar/log.cpp:168 | the same effect as `Log` at WARN |
| `Loggers.Logger.Error` | sylar/log.cpp:170 | the same effect as `Log` at ERROR |
| `Loggers.Logger.Fatal` | sylar/log.cpp:172 | the same effect as `Log` at FATAL |

## Left out

- Formatters.LogFormatter.Init: where the original loops forever, the method performs the stuck pass once and returns that state (`Loops`) instead of running on; `IterateN` shows the state repeats. The memory exhaustion that would end the original's loop is not modelled.
- Formatters.LogFormatter.constructor: requires a pattern on which `init` finishes, because on any other pattern the original constructor never returns.
- Loggers.Logger.constructor: receives its formatter as a parameter. The original builds it from the default pattern, on which `init` never returns (`DefaultPatternDiverges`), so as written no `Logger` can be constructed at all. The name defaults to "root" (`DEFAULT_NAME`), as in log.h:93.
- Appenders.LogAppender.Log: receives the logger's name instead of the logger, because the name is all any item reads from it; the same holds for `LogFormatter.Format` and `Logger.Log`.
- Appenders.LogAppender.Reopen: the operating system's answer to opening the file is a parameter; `if (m_filestream)` tests the stream's error state, while the model closes the stream when it is open, which has the same effect on what is written afterwards.
- Stream error flags other than "not open" are not tracked; a write on a stream that is not open writes nothing, as the original's failed write does.
- The console and file writes are modelled as appending to a sequence of chunks; `std::endl` is "\n" and its flush is not modelled.
- The "pattern parse error" message printed to `std::cout` inside the diverging loop is console output and is left out.
- Levels are unbounded integers; the C++ enumeration's range of representable values is not modelled (only `ToString`'s default branch depends on it).
- `shared_ptr` reference counting and `enable_shared_from_this` are left out; appenders and formatters are object references, and `delAppender` compares them by identity.
- Null pointers: appenders are never null; an appender's formatter may be null. The original dereferences it only when both the logger's gate and that appender's gate pass, so only that case is excluded by a precondition.
- The getters (`getLevel`, `getName`, `getFormatter`, the `LogEvent` getters) are the fields themselves.
- No locking: the original has none and the model is sequential.
- tests/test.cpp is not part of this model: it uses the `SYLAR_LOG_*` macros, `util.h` and `loggerMgr`, which log.h does not declare, calls a `setLevel` that `LogAppender` does not declare, and relies on the mistyped `FileLogAppender::ptr` (log.h:125).
