/**
 * `Logger`: a name, a level gate, a default formatter and an ordered list of
 * appenders. `log` passes an event through the gate and then hands it to every
 * appender in list order; `addAppender` and `delAppender` change the list in place.
 */
module Loggers {
  import opened Levels
  import opened Events
  import opened FormatItems
  import opened Formatters
  import opened Appenders

  const DEFAULT_NAME: string := "root"

  /** `std::list::erase` of the first element equal to `x`; the list as it was if none is.
      At most one element goes, and nothing new comes in. */
  function RemoveFirst<T(==)>(s: seq<T>, x: T): (r: seq<T>)
    ensures |s| - 1 <= |r| <= |s|
    ensures forall y :: y in r ==> y in s
  {
    if s == [] then []
    else if s[0] == x then s[1..]
    else [s[0]] + RemoveFirst(s[1..], x)
  }

  /** With `i` the first position holding `x`, removal cuts out exactly that position. */
  lemma {:induction false} RemoveFirstAt<T>(s: seq<T>, x: T, i: nat)
    requires i < |s| && s[i] == x
    requires forall j :: 0 <= j < i ==> s[j] != x
    ensures RemoveFirst(s, x) == s[..i] + s[i + 1..]
  {
    if i > 0 {
      RemoveFirstAt(s[1..], x, i - 1);
      assert s[1..][..i - 1] == s[1..i];
      assert s[1..][i..] == s[i + 1..];
      assert s[..i] == [s[0]] + s[1..i];
    }
  }

  /** Removing an element that is not there changes nothing, order included. */
  lemma {:induction false} RemoveFirstAbsent<T>(s: seq<T>, x: T)
    requires x !in s
    ensures RemoveFirst(s, x) == s
  {
    if s != [] {
      RemoveFirstAbsent(s[1..], x);
      assert s == [s[0]] + s[1..];
    }
  }

  /** Removing a present element removes one copy of it and nothing else. */
  lemma {:induction false} RemoveFirstCount<T>(s: seq<T>, x: T)
    requires x in s
    ensures |RemoveFirst(s, x)| == |s| - 1
    ensures multiset(RemoveFirst(s, x)) == multiset(s) - multiset{x}
  {
    if s[0] != x {
      RemoveFirstCount(s[1..], x);
      assert s == [s[0]] + s[1..];
    } else {
      assert s == [s[0]] + s[1..];
    }
  }

  /** Every appender whose gate lets `level` through has a formatter. The original
      dereferences `m_formatter` only past that gate, so the others may have none. */
  predicate Ready(appenders: seq<LogAppender>, level: Level)
    reads appenders
  {
    forall a :: a in appenders && level >= a.level ==> a.formatter != null
  }

  /** The chunks that the appenders in `xs`, called in order, write to stream `s`. */
  function Emitted(xs: seq<LogAppender>, s: Stream, loggerName: string, level: Level, event: LogEvent): seq<string>
    reads xs
    requires Ready(xs, level)
  {
    if xs == [] then []
    else
      var a := xs[|xs| - 1];
      Emitted(xs[..|xs| - 1], s, loggerName, level, event)
      + (if a.stream == s then a.Emission(loggerName, level, event) else [])
  }

  /** Calling one more appender adds exactly its chunk for `s`, if it writes to `s`. */
  lemma EmittedStep(xs: seq<LogAppender>, k: nat, s: Stream, loggerName: string, level: Level, event: LogEvent)
    requires Ready(xs, level) && k < |xs|
    ensures Ready(xs[..k], level) && Ready(xs[..k + 1], level)
    ensures Emitted(xs[..k + 1], s, loggerName, level, event)
         == Emitted(xs[..k], s, loggerName, level, event)
          + (if xs[k].stream == s then xs[k].Emission(loggerName, level, event) else [])
  {
    assert xs[..k + 1][..k] == xs[..k];
  }

  /** What an open or closed stream holds after one more appender of `xs` has been
      called, given what it held before. */
  lemma ChunksStep(xs: seq<LogAppender>, k: nat, s: Stream, loggerName: string, level: Level,
                   event: LogEvent, isOpen: bool, start: seq<string>, before: seq<string>, after: seq<string>)
    requires Ready(xs, level) && k < |xs|
    requires before == start + (if isOpen then Emitted(xs[..k], s, loggerName, level, event) else [])
    requires after == before + (if isOpen && xs[k].stream == s then xs[k].Emission(loggerName, level, event) else [])
    ensures Ready(xs[..k + 1], level)
    ensures after == start + (if isOpen then Emitted(xs[..k + 1], s, loggerName, level, event) else [])
  {
    EmittedStep(xs, k, s, loggerName, level, event);
  }

  /** Delivering to `xs + ys` writes what `xs` writes, then what `ys` writes. */
  lemma {:induction false} EmittedAppend(xs: seq<LogAppender>, ys: seq<LogAppender>, s: Stream,
                                         loggerName: string, level: Level, event: LogEvent)
    requires Ready(xs, level) && Ready(ys, level)
    ensures Ready(xs + ys, level)
    ensures Emitted(xs + ys, s, loggerName, level, event)
         == Emitted(xs, s, loggerName, level, event) + Emitted(ys, s, loggerName, level, event)
    decreases |ys|
  {
    if ys == [] {
      assert xs + ys == xs;
    } else {
      var ys' := ys[..|ys| - 1];
      assert (xs + ys)[..|xs + ys| - 1] == xs + ys';
      EmittedAppend(xs, ys', s, loggerName, level, event);
    }
  }

  /** The appenders of `xs` that write to `s` at `level`, in list order, repeats kept. */
  function Writers(xs: seq<LogAppender>, s: Stream, level: Level): seq<LogAppender>
    reads xs
  {
    if xs == [] then []
    else
      var a := xs[|xs| - 1];
      Writers(xs[..|xs| - 1], s, level) + (if a.stream == s && level >= a.level then [a] else [])
  }

  /** Every appender that writes to `s` and passes its gate contributes exactly one chunk,
      its formatter's output, in list order; no other chunk reaches `s`. */
  lemma {:induction false} EmittedByWriters(xs: seq<LogAppender>, s: Stream, loggerName: string,
                                            level: Level, event: LogEvent)
    requires Ready(xs, level)
    ensures var w := Writers(xs, s, level);
      var out := Emitted(xs, s, loggerName, level, event);
      |out| == |w| &&
      forall j :: 0 <= j < |w| ==>
        w[j] in xs && w[j].stream == s && level >= w[j].level &&
        out[j] == RenderAll(w[j].formatter.items, loggerName, level, event)
    decreases |xs|
  {
    if xs != [] {
      var xs' := xs[..|xs| - 1];
      assert forall a :: a in xs' ==> a in xs;
      EmittedByWriters(xs', s, loggerName, level, event);
    }
  }

  /** After `delAppender(a)`, a stream receives what it received before minus exactly the
      one chunk of the removed entry. */
  lemma EmittedAfterRemove(xs: seq<LogAppender>, a: LogAppender, i: nat, s: Stream,
                           loggerName: string, level: Level, event: LogEvent)
    requires Ready(xs, level)
    requires i < |xs| && xs[i] == a && forall j :: 0 <= j < i ==> xs[j] != a
    ensures Ready(RemoveFirst(xs, a), level)
    ensures Emitted(xs, s, loggerName, level, event)
         == Emitted(xs[..i], s, loggerName, level, event)
          + (if a.stream == s then a.Emission(loggerName, level, event) else [])
          + Emitted(xs[i + 1..], s, loggerName, level, event)
    ensures Emitted(RemoveFirst(xs, a), s, loggerName, level, event)
         == Emitted(xs[..i], s, loggerName, level, event) + Emitted(xs[i + 1..], s, loggerName, level, event)
  {
    RemoveFirstAt(xs, a, i);
    assert xs == xs[..i + 1] + xs[i + 1..];
    assert xs[..i + 1][..i] == xs[..i];
    EmittedAppend(xs[..i + 1], xs[i + 1..], s, loggerName, level, event);
    EmittedAppend(xs[..i], xs[i + 1..], s, loggerName, level, event);
  }

  class Logger {
    const name: string
    var level: Level
    const formatter: LogFormatter
    var appenders: seq<LogAppender>

    /** `Logger(name)`: level DEBUG, no appenders. The original builds the formatter
        from the default pattern, on which `init` never returns; the model receives it. */
    constructor (formatter: LogFormatter, name: string := DEFAULT_NAME)
      ensures this.name == name && level == DEBUG
      ensures this.formatter == formatter && appenders == []
    {
      this.name := name;
      level := DEBUG;
      this.formatter := formatter;
      appenders := [];
    }

    /** `setLevel`: `getLevel` (the field) returns `val` from now on. */
    method SetLevel(val: Level)
      modifies this`level
      ensures level == val
    {
      level := val;
    }

    /** `addAppender`: an appender without a formatter gets the logger's; one with a
        formatter keeps it. The appender goes to the end; earlier entries stay. */
    method AddAppender(a: LogAppender)
      modifies this`appenders, a`formatter
      ensures appenders == old(appenders) + [a]
      ensures a.formatter == if old(a.formatter) == null then formatter else old(a.formatter)
    {
      if a.formatter == null {
        a.SetFormatter(formatter);
      }
      appenders := appenders + [a];
    }

    /** `delAppender`: erase the first entry that is the same object as `a`, if any. */
    method DelAppender(a: LogAppender)
      modifies this`appenders
      ensures appenders == RemoveFirst(old(appenders), a)
    {
      var i := 0;
      while i < |appenders|
        invariant 0 <= i <= |appenders|
        invariant appenders == old(appenders)
        invariant forall j :: 0 <= j < i ==> appenders[j] != a
      {
        if appenders[i] == a {
          RemoveFirstAt(appenders, a, i);
          appenders := appenders[..i] + appenders[i + 1..];
          return;
        }
        i := i + 1;
      }
      RemoveFirstAbsent(appenders, a);
    }

    ghost function Streams(): set<Stream>
      reads this
    {
      set a | a in appenders :: a.stream
    }

    /** What one `log(level, event)` writes to `s`: nothing below the logger's gate,
        otherwise every appender's chunk for `s` in list order. */
    function Output(s: Stream, level: Level, event: LogEvent): seq<string>
      reads this, appenders
      requires level >= this.level ==> Ready(appenders, level)
    {
      if level >= this.level then Emitted(appenders, s, name, level, event) else []
    }

    /** `log`: below the gate nothing happens; otherwise each appender is called once,
        in list order, with the same level and event. Only an appender whose own gate
        passes needs a formatter (the original dereferences it only then). */
    method Log(level: Level, event: LogEvent)
      requires level >= this.level ==> Ready(appenders, level)
      modifies Streams()
      ensures forall s :: s in Streams() ==> s.isOpen == old(s.isOpen)
      ensures forall s :: s in Streams() ==>
        s.chunks == old(s.chunks) + (if s.isOpen then Output(s, level, event) else [])
    {
      if level >= this.level {
        for k := 0 to |appenders|
          invariant Ready(appenders, level)
          invariant forall s :: s in Streams() ==> s.isOpen == old(s.isOpen)
          invariant forall s :: s in Streams() ==>
            s.chunks == old(s.chunks) + (if s.isOpen then Emitted(appenders[..k], s, name, level, event) else [])
        {
          var a := appenders[k];
          label Before:
          a.Log(name, level, event);
          forall s | s in Streams()
            ensures s.isOpen == old(s.isOpen)
            ensures s.chunks == old(s.chunks) + (if s.isOpen then Emitted(appenders[..k + 1], s, name, level, event) else [])
          {
            ChunksStep(appenders, k, s, name, level, event, s.isOpen,
                       old(s.chunks), old@Before(s.chunks), s.chunks);
          }
        }
        assert appenders[..|appenders|] == appenders;
      }
    }

    method Debug(event: LogEvent)
      requires DEBUG >= this.level ==> Ready(appenders, DEBUG)
      modifies Streams()
      ensures forall s :: s in Streams() ==> s.isOpen == old(s.isOpen)
      ensures forall s :: s in Streams() ==>
        s.chunks == old(s.chunks) + (if s.isOpen then Output(s, DEBUG, event) else [])
    {
      Log(DEBUG, event);
    }

    method Info(event: LogEvent)
      requires INFO >= this.level ==> Ready(appenders, INFO)
      modifies Streams()
      ensures forall s :: s in Streams() ==> s.isOpen == old(s.isOpen)
      ensures forall s :: s in Streams() ==>
        s.chunks == old(s.chunks) + (if s.isOpen then Output(s, INFO, event) else [])
    {
      Log(INFO, event);
    }

    method Warn(event: LogEvent)
      requires WARN >= this.level ==> Ready(appenders, WARN)
      modifies Streams()
      ensures forall s :: s in Streams() ==> s.isOpen == old(s.isOpen)
      ensures forall s :: s in Streams() ==>
        s.chunks == old(s.chunks) + (if s.isOpen then Output(s, WARN, event) else [])
    {
      Log(WARN, event);
    }

    method Error(event: LogEvent)
      requires ERROR >= this.level ==> Ready(appenders, ERROR)
      modifies Streams()
      ensures forall s :: s in Streams() ==> s.isOpen == old(s.isOpen)
      ensures forall s :: s in Streams() ==>
        s.chunks == old(s.chunks) + (if s.isOpen then Output(s, ERROR, event) else [])
    {
      Log(ERROR, event);
    }

    method Fatal(event: LogEvent)
      requires FATAL >= this.level ==> Ready(appenders, FATAL)
      modifies Streams()
      ensures forall s :: s in Streams() ==> s.isOpen == old(s.isOpen)
      ensures forall s :: s in Streams() ==>
        s.chunks == old(s.chunks) + (if s.isOpen then Output(s, FATAL, event) else [])
    {
      Log(FATAL, event);
    }
  }
}
