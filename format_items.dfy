/**
 * The closed family of `FormatItem` render operations. Each item writes one
 * field of the event (or the level, the logger's name, a newline, or fixed
 * text) onto the output stream; rendering a sequence of items concatenates
 * their outputs in order.
 */
module FormatItems {
  import opened Levels
  import opened Decimal
  import opened Events

  /** Default sub-format of `DateTimeFormatItem`; stored but never used when rendering. */
  const DEFAULT_TIME_FORMAT: string := "%Y:%m:%d %H:%M:%S"

  datatype FormatItem =
    | Message                    // MessageFormatItem
    | LevelName                  // LevelFormatItem
    | Elapse                     // ElapseFormatItem
    | Name                       // NameFormatItem
    | ThreadId                   // ThreadIdFormatItem
    | Fiber                      // FiberFormatItem
    | DateTime(format: string)   // DateTimeFormatItem, keeps m_format
    | FileName                   // FileNameFormatItem
    | Line                       // LineFormatItem
    | NewLine                    // NewLineFormatItem
    | Text(text: string)         // StringFormatItem

  /** The items that echo a string (message, logger name, file name, literal text); only
      these can write nothing. */
  predicate Echoes(item: FormatItem) {
    item.Message? || item.Name? || item.FileName? || item.Text?
  }

  /** `item->format(os, logger, level, event)`: what the item writes. Only the items that
      echo a string (message, logger name, file name, literal text) can write nothing;
      the numeric items write decimal digits only. The logger enters
      only through its name, the one thing `NameFormatItem` reads from it; `std::endl`
      writes "\n" (its flush is not modelled). */
  function Render(item: FormatItem, loggerName: string, level: Level, event: LogEvent): (r: string)
    ensures r == "" ==> Echoes(item)
    ensures item.Elapse? || item.ThreadId? || item.Fiber? || item.DateTime? ==>
      forall k :: 0 <= k < |r| ==> IsDigit(r[k])
  {
    match item
    case Message => event.content
    case LevelName => ToString(level)
    case Elapse => NatToString(event.elapse)
    case Name => loggerName
    case ThreadId => NatToString(event.threadId)
    case Fiber => NatToString(event.fiberId)
    case DateTime(_) => NatToString(event.time)
    case FileName => event.file
    case Line => IntToString(event.line)
    case NewLine => "\n"
    case Text(s) => s
  }

  /** The level item writes the level's display name: one of the five names for an
      enumerator, "UNKNOW" for any other value. */
  lemma LevelItemWritesName(loggerName: string, level: Level, event: LogEvent)
    ensures var s := Render(LevelName, loggerName, level, event);
      s == ToString(level) &&
      (IsNamed(level) <==> s in {"DEBUG", "INFO", "WARN", "ERROR", "FATAL"}) &&
      (!IsNamed(level) <==> s == "UNKNOW")
  {
  }

  /** Numeric items write the base-10 digits of their field and nothing else: parsing
      the output gives the field back. */
  lemma NumericItemsRoundTrip(loggerName: string, level: Level, event: LogEvent)
    ensures ParseNat(Render(Elapse, loggerName, level, event)) == event.elapse
    ensures ParseNat(Render(ThreadId, loggerName, level, event)) == event.threadId
    ensures ParseNat(Render(Fiber, loggerName, level, event)) == event.fiberId
    ensures ParseNat(Render(DateTime(DEFAULT_TIME_FORMAT), loggerName, level, event)) == event.time
    ensures ParseInt(Render(Line, loggerName, level, event)) == event.line
  {
    ParseNatToString(event.elapse);
    ParseNatToString(event.threadId);
    ParseNatToString(event.fiberId);
    ParseNatToString(event.time);
    ParseIntToString(event.line);
  }

  /** The date-time item prints the raw timestamp: its sub-format has no effect. */
  lemma DateTimeIgnoresFormat(f: string, g: string, loggerName: string, level: Level, event: LogEvent)
    ensures Render(DateTime(f), loggerName, level, event) == Render(DateTime(g), loggerName, level, event)
    ensures Render(DateTime(f), loggerName, level, event) == NatToString(event.time)
  {
  }

  /** Every item reads one field only: two events that agree on that field render the same. */
  predicate SameField(item: FormatItem, e1: LogEvent, e2: LogEvent) {
    match item
    case Message => e1.content == e2.content
    case Elapse => e1.elapse == e2.elapse
    case ThreadId => e1.threadId == e2.threadId
    case Fiber => e1.fiberId == e2.fiberId
    case DateTime(_) => e1.time == e2.time
    case FileName => e1.file == e2.file
    case Line => e1.line == e2.line
    case _ => true
  }

  lemma RenderReadsOneField(item: FormatItem, loggerName: string, level: Level, e1: LogEvent, e2: LogEvent)
    requires SameField(item, e1, e2)
    ensures Render(item, loggerName, level, e1) == Render(item, loggerName, level, e2)
  {
  }

  /** The number of items that always write at least one character. */
  function Writing(items: seq<FormatItem>): nat {
    if items == [] then 0
    else Writing(items[..|items| - 1]) + (if Echoes(items[|items| - 1]) then 0 else 1)
  }

  /** `LogFormatter::format`: the items' outputs concatenated in order, no separators;
      so an output that ends with an item that always writes is not empty. */
  function RenderAll(items: seq<FormatItem>, loggerName: string, level: Level, event: LogEvent): (r: string)
    ensures items != [] && !Echoes(items[|items| - 1]) ==> r != ""
  {
    if items == [] then ""
    else RenderAll(items[..|items| - 1], loggerName, level, event)
         + Render(items[|items| - 1], loggerName, level, event)
  }

  /** Rendering distributes over concatenation of item sequences. */
  lemma {:induction false} RenderAllAppend(a: seq<FormatItem>, b: seq<FormatItem>,
                                           loggerName: string, level: Level, event: LogEvent)
    ensures RenderAll(a + b, loggerName, level, event)
         == RenderAll(a, loggerName, level, event) + RenderAll(b, loggerName, level, event)
    decreases |b|
  {
    if b == [] {
      assert a + b == a;
    } else {
      var b' := b[..|b| - 1];
      assert (a + b)[..|a + b| - 1] == a + b';
      RenderAllAppend(a, b', loggerName, level, event);
    }
  }

  /** Every item that always writes adds at least one character to the output. */
  lemma {:induction false} RenderAllWrites(items: seq<FormatItem>, loggerName: string, level: Level, event: LogEvent)
    ensures |RenderAll(items, loggerName, level, event)| >= Writing(items)
  {
    if items != [] {
      RenderAllWrites(items[..|items| - 1], loggerName, level, event);
    }
  }

  /** Output of literal-only item sequences is their text, whatever the event. */
  function TextOf(items: seq<FormatItem>): string
    requires forall k :: 0 <= k < |items| ==> items[k].Text?
  {
    if items == [] then "" else TextOf(items[..|items| - 1]) + items[|items| - 1].text
  }

  lemma {:induction false} RenderAllOfText(items: seq<FormatItem>, loggerName: string, level: Level, event: LogEvent)
    requires forall k :: 0 <= k < |items| ==> items[k].Text?
    ensures RenderAll(items, loggerName, level, event) == TextOf(items)
    decreases |items|
  {
    if items != [] {
      RenderAllOfText(items[..|items| - 1], loggerName, level, event);
    }
  }

  /** The static `s_format_items` table: directive letter to item constructor. It is built
      by `init` but never consulted, so nothing else in the model uses it. The fiber item
      has no letter. */
  function MakeItem(key: string, fmt: string): (r: Option<FormatItem>)
    ensures r.Some? <==> key in {"m", "p", "r", "c", "t", "n", "d", "f", "l"}
    ensures r.Some? && r.value.DateTime? ==> key == "d" && r.value.format == fmt
  {
    match key
    case "m" => Some(Message)
    case "p" => Some(LevelName)
    case "r" => Some(Elapse)
    case "c" => Some(Name)
    case "t" => Some(ThreadId)
    case "n" => Some(NewLine)
    case "d" => Some(DateTime(fmt))
    case "f" => Some(FileName)
    case "l" => Some(Line)
    case _ => None
  }

  datatype Option<T> = None | Some(value: T)
}
