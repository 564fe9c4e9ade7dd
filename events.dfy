/**
 * `LogEvent`: one log occurrence. The constructor takes the source location,
 * counters and timestamp; the message text is what the caller writes into the
 * event's string stream (`getSS()`) before dispatch, and `getContent()` reads it.
 * Downstream consumers only read an event, so it is a value here.
 */
module Events {

  type int32 = x: int | -0x8000_0000 <= x < 0x8000_0000
  type uint32 = x: int | 0 <= x < 0x1_0000_0000
  type uint64 = x: int | 0 <= x < 0x1_0000_0000_0000_0000

  datatype LogEvent = LogEvent(
    file: string,       // getFile()
    line: int32,        // getLine()
    elapse: uint32,     // getElapse()
    threadId: uint32,   // getThreadId()
    fiberId: uint32,    // getFiber()
    time: uint64,       // getTime()
    content: string)    // getContent(): everything written to getSS()

  /** The constructor: every getter returns its argument, and the stream starts empty. */
  function NewEvent(file: string, line: int32, elapse: uint32, threadId: uint32,
                    fiberId: uint32, time: uint64): (e: LogEvent)
    ensures e.file == file && e.line == line && e.elapse == elapse
    ensures e.threadId == threadId && e.fiberId == fiberId && e.time == time
    ensures e.content == ""
  {
    LogEvent(file, line, elapse, threadId, fiberId, time, "")
  }

  /** `getSS() << text`: the content grows by exactly `text`; nothing else changes. */
  function Write(e: LogEvent, text: string): (e': LogEvent)
    ensures e'.content == e.content + text
    ensures e'.(content := e.content) == e
  {
    e.(content := e.content + text)
  }

  /** Writing pieces one after another is writing their concatenation. */
  lemma WriteTwice(e: LogEvent, a: string, b: string)
    ensures Write(Write(e, a), b) == Write(e, a + b)
  {
    assert e.content + a + b == e.content + (a + b);
  }
}
