/**
 * `LogAppender` and its two subclasses. An appender has its own level gate
 * (`m_level`, DEBUG from construction; no member changes it) and a formatter
 * that starts null. `StdoutLogAppender` writes to the process's standard
 * output, which all of them share; `FileLogAppender` writes to its own
 * `std::ofstream`, which its constructor leaves unopened.
 */
module Appenders {
  import opened Levels
  import opened Events
  import opened FormatItems
  import opened Formatters

  /** An output stream: the chunks written while it was open, in order. Writing to a
      stream that is not open writes nothing (the stream only records the failure). */
  class Stream {
    var isOpen: bool
    var chunks: seq<string>

    /** `std::cout`: open from the start. */
    constructor Console()
      ensures isOpen && chunks == []
    {
      isOpen, chunks := true, [];
    }

    /** A default-constructed `std::ofstream`: no file attached. */
    constructor Unopened()
      ensures !isOpen && chunks == []
    {
      isOpen, chunks := false, [];
    }

    /** `os << text`. */
    method Write(text: string)
      modifies this`chunks
      ensures chunks == old(chunks) + (if isOpen then [text] else [])
    {
      if isOpen {
        chunks := chunks + [text];
      }
    }

    method Close()
      modifies this`isOpen
      ensures !isOpen
    {
      isOpen := false;
    }

    /** `open(filename)` in the default truncating mode; whether the operating system
        grants it is the parameter. A fresh file starts empty. */
    method Open(succeeded: bool)
      modifies this
      ensures isOpen == succeeded
      ensures chunks == if succeeded then [] else old(chunks)
    {
      isOpen := succeeded;
      if succeeded {
        chunks := [];
      }
    }
  }

  datatype Target = StandardOutput | FileAt(filename: string)

  class LogAppender {
    const target: Target
    const stream: Stream
    var level: Level
    var formatter: LogFormatter?

    /** `StdoutLogAppender`: `console` is the process's standard output. */
    constructor Stdout(console: Stream)
      ensures target == StandardOutput && stream == console
      ensures level == DEBUG && formatter == null
    {
      target, stream := StandardOutput, console;
      level, formatter := DEBUG, null;
    }

    /** `FileLogAppender(filename)`: keeps the name; the file stream is not opened. */
    constructor File(filename: string)
      ensures target == FileAt(filename) && fresh(stream)
      ensures !stream.isOpen && stream.chunks == []
      ensures level == DEBUG && formatter == null
    {
      target := FileAt(filename);
      stream := new Stream.Unopened();
      level, formatter := DEBUG, null;
    }

    /** `setFormatter`: `getFormatter` (the field) returns `f` from now on; the level
        gate stays as it was. */
    method SetFormatter(f: LogFormatter?)
      modifies this`formatter
      ensures formatter == f && level == old(level)
    {
      formatter := f;
    }

    /** What one call of `log` writes: the formatter's rendering of the event if the
        level passes this appender's gate, nothing otherwise. */
    function Emission(loggerName: string, level: Level, event: LogEvent): seq<string>
      reads this
      requires level >= this.level ==> formatter != null
    {
      if level >= this.level then [RenderAll(formatter.items, loggerName, level, event)] else []
    }

    /** `StdoutLogAppender::log` and `FileLogAppender::log`: if `level >= m_level`, write
        exactly the formatter's output, with no separator added; otherwise nothing. The
        formatter must be set when the gate passes (the original dereferences it then). */
    method Log(loggerName: string, level: Level, event: LogEvent)
      requires level >= this.level ==> formatter != null
      modifies stream`chunks
      ensures stream.chunks == old(stream.chunks) +
        (if stream.isOpen && level >= this.level
         then [RenderAll(formatter.items, loggerName, level, event)] else [])
      ensures stream.chunks == old(stream.chunks) + (if stream.isOpen then Emission(loggerName, level, event) else [])
    {
      if level >= this.level {
        var text := formatter.Format(loggerName, level, event);
        stream.Write(text);
      }
    }

    /** `FileLogAppender::reopen`: close the stream if it is usable, open the file again
        (truncating it) and report whether that worked; `granted` is the operating
        system's answer. */
    method Reopen(granted: bool) returns (ok: bool)
      requires target.FileAt?
      modifies stream
      ensures ok == granted && stream.isOpen == granted
      ensures stream.chunks == if granted then [] else old(stream.chunks)
    {
      if stream.isOpen {
        stream.Close();
      }
      stream.Open(granted);
      ok := stream.isOpen;
    }
  }

  /** With the default level DEBUG, a level below DEBUG (a cast of 0 or a negative
      integer) is the only thing an appender's gate stops. */
  lemma NewAppenderGate(loggerName: string, level: Level, event: LogEvent, a: LogAppender)
    requires a.level == DEBUG && (level >= DEBUG ==> a.formatter != null)
    ensures a.Emission(loggerName, level, event) == [] <==> level < DEBUG
    ensures IsNamed(level) ==> |a.Emission(loggerName, level, event)| == 1
  {
  }
}
