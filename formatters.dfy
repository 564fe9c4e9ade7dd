/**
 * `LogFormatter`: a pattern, the compiled item sequence `m_items`, `format`, and
 * `init`, the scanner over the pattern.
 *
 * As written, `init` fills a local vector of (text, fmt, kind) tuples and a
 * static table, and assigns neither to `m_items`; so a constructed formatter has
 * no items and renders "". Its scan returns only on patterns in which every `%`
 * that is not followed by another `%` is followed by the end of the pattern,
 * whitespace, `{` and then end/whitespace, or `{}` and then end/whitespace; on
 * every other pattern the inner `while` loop reaches a branch that advances
 * neither `n` nor `fmt_status` and repeats it forever.
 */
module Formatters {
  import opened Levels
  import opened Events
  import opened FormatItems

  /** One `std::tuple<std::string, std::string, int>` of `init`'s local vector:
      kind 0 is literal text, kind 1 a directive. */
  datatype Token = Token(text: string, fmt: string, kind: int)

  /** C-locale `isspace`: space, \t, \n, \v, \f, \r. */
  predicate IsSpace(c: char) {
    c == ' ' || c == '\t' || c == '\n' || c == 11 as char || c == 12 as char || c == '\r'
  }

  const SIZE_T_MODULUS: int := 0x1_0000_0000_0000_0000

  /** `size_t` arithmetic: a negative difference wraps around. */
  function SizeT(x: int): nat {
    x % SIZE_T_MODULUS
  }

  /** `std::string::substr(pos, count)`: at most `count` characters from `pos`. */
  function Substr(s: string, pos: nat, count: nat): (r: string)
    requires pos <= |s|
    ensures pos + |r| <= |s| && |r| <= count && r == s[pos..pos + |r|]
    ensures |r| == count || pos + |r| == |s|
  {
    if count <= |s| - pos then s[pos..pos + count] else s[pos..]
  }

  // ---------------------------------------------------------------------------
  // What the scan does, stated on the pattern alone.

  /** A `%` at `k` that does not start `%%`; it opens a directive. */
  predicate Lone(p: string, k: nat)
    requires k < |p|
  {
    p[k] == '%' && !(k + 1 < |p| && p[k + 1] == '%')
  }

  /** The inner loop, started at `n`, leaves normally: it meets the end or whitespace,
      possibly after one `{` and then possibly one `}`. */
  predicate Closes(p: string, n: nat)
    requires n <= |p|
  {
    n == |p| || IsSpace(p[n]) ||
    (p[n] == '{' &&
      (n + 1 == |p| || IsSpace(p[n + 1]) ||
       (p[n + 1] == '}' && (n + 2 == |p| || IsSpace(p[n + 2])))))
  }

  /** `init` returns exactly on the patterns in which every directive closes. */
  predicate InitReturns(p: string) {
    forall k :: 0 <= k < |p| && Lone(p, k) ==> Closes(p, k + 1)
  }

  /** The literal text the scan accumulates in `nstr` from the first `i` characters:
      every character except a lone `%` (of `%%`, the first `%` stands for itself
      and the second is scanned again on its own). */
  function KeptPrefix(p: string, i: nat): string
    requires i <= |p|
  {
    if i == 0 then ""
    else KeptPrefix(p, i - 1) + (if Lone(p, i - 1) then "" else [p[i - 1]])
  }

  function Literal(p: string): string {
    KeptPrefix(p, |p|)
  }

  /** The vector `init` has built when it returns. */
  function LiteralTokens(p: string): seq<Token> {
    if Literal(p) == "" then [] else [Token(Literal(p), "", 0)]
  }

  // ---------------------------------------------------------------------------
  // The inner loop's state, one pass of its body, and why a stuck state repeats.

  datatype Config = Config(i: nat, n: nat, status: int, str: string, fmt: string,
                           fmtBegin: nat, nstr: string, vec: seq<Token>)

  /** The state is well formed and the loop neither exits nor breaks at it. */
  predicate Running(p: string, c: Config) {
    c.i <= c.n < |p| && c.fmtBegin <= c.n && 0 <= c.status <= 2 && !IsSpace(p[c.n])
  }

  /** A running state at which the body takes neither the `{` nor the `}` step, so it
      changes neither `n` nor `fmt_status`. */
  predicate Stuck(p: string, c: Config) {
    Running(p, c) &&
    (c.status == 0 ==> p[c.n] != '{') &&
    (c.status == 1 ==> p[c.n] != '}')
  }

  function PendingText(nstr: string): seq<Token> {
    if nstr == "" then [] else [Token(nstr, "", 0)]
  }

  /** One pass of the `while` body after the whitespace test; `Init` takes its stuck
      pass through it. A pass either takes the `{` or the `}` step, advancing `n`
      without touching the vector, or it is stuck: it pushes at least one tuple and
      leaves a state that is stuck again. */
  function Iterate(p: string, c: Config): (r: Config)
    requires Running(p, c)
    ensures !Stuck(p, c) ==> r.n == c.n + 1 && r.status == c.status + 1 && r.vec == c.vec
    ensures Stuck(p, c) ==> Stuck(p, r) && r.n == c.n && r.status == c.status && |r.vec| > |c.vec|
  {
    if c.status == 0 && p[c.n] == '{' then
      c.(str := Substr(p, c.i + 1, SizeT(c.n - c.i - 1)), status := 1, fmtBegin := c.n + 1, n := c.n + 1)
    else if c.status == 1 && p[c.n] == '}' then
      c.(fmt := Substr(p, c.fmtBegin + 1, SizeT(c.n - c.fmtBegin - 1)), status := 2, n := c.n + 1)
    else if c.status == 0 then
      var str := Substr(p, c.i + 1, SizeT(c.n - c.i - 1));
      c.(vec := c.vec + PendingText(c.nstr) + [Token(str, c.fmt, 1)], str := str, i := c.n)
    else if c.status == 1 then
      c.(vec := c.vec + [Token("pattern_error", c.fmt, 0)])
    else
      c.(vec := c.vec + PendingText(c.nstr) + [Token(c.str, c.fmt, 1)], i := c.n)
  }

  /** `k` passes from a stuck state. The loop never ends: after any number of passes the
      guard still holds, there is still no whitespace to break on, `n` and `fmt_status`
      are as they were, and the vector has grown by at least one tuple per pass. */
  function IterateN(p: string, c: Config, k: nat): (r: Config)
    requires Stuck(p, c)
    ensures Stuck(p, r) && r.n == c.n && r.status == c.status && |r.vec| >= |c.vec| + k
  {
    if k == 0 then c else Iterate(p, IterateN(p, c, k - 1))
  }

  /** The pattern the `Logger` constructor hands to its formatter. */
  const DEFAULT_PATTERN: string := "%d {%p} %f %l %m %n "

  /** Characters without `%` are copied into the literal text one for one. */
  lemma {:induction false} KeptNoPercent(p: string, i: nat, j: nat)
    requires i <= j <= |p|
    requires forall k :: i <= k < j ==> p[k] != '%'
    ensures KeptPrefix(p, j) == KeptPrefix(p, i) + p[i..j]
    decreases j - i
  {
    if i < j {
      KeptNoPercent(p, i, j - 1);
      assert p[i..j] == p[i..j - 1] + [p[j - 1]];
    }
  }

  /** A pattern without `%`: the scan returns, and its vector is the pattern itself as
      one literal tuple, or nothing for "". */
  lemma PlainPattern(p: string)
    requires forall k :: 0 <= k < |p| ==> p[k] != '%'
    ensures InitReturns(p)
    ensures Literal(p) == p
    ensures LiteralTokens(p) == if p == "" then [] else [Token(p, "", 0)]
  {
    KeptNoPercent(p, 0, |p|);
    assert p[0..|p|] == p;
  }

  /** A `%` at the end of the pattern is dropped without a trace. */
  lemma TrailingPercentDropped(a: string)
    requires forall k :: 0 <= k < |a| ==> a[k] != '%'
    ensures InitReturns(a + "%")
    ensures Literal(a + "%") == a
  {
    var p := a + "%";
    KeptNoPercent(p, 0, |a|);
    assert p[0..|a|] == a;
    assert Lone(p, |a|);
  }

  /** A `%` before whitespace is dropped; the whitespace and the rest stay literal text. */
  lemma PercentBeforeSpaceDropped(a: string, c: char, b: string)
    requires forall k :: 0 <= k < |a| ==> a[k] != '%'
    requires forall k :: 0 <= k < |b| ==> b[k] != '%'
    requires IsSpace(c)
    ensures InitReturns(a + ['%', c] + b)
    ensures Literal(a + ['%', c] + b) == a + [c] + b
  {
    var p := a + ['%', c] + b;
    KeptNoPercent(p, 0, |a|);
    assert Lone(p, |a|);
    KeptNoPercent(p, |a| + 1, |p|);
    assert p[0..|a|] == a;
    assert p[|a| + 1..|p|] == [c] + b;
  }

  /** `%{}` before whitespace: the `%` is dropped and the braces become literal text,
      because after the inner loop leaves, the outer loop resumes at the `{`. */
  lemma EmptyBracesStayLiteral(a: string, c: char, b: string)
    requires forall k :: 0 <= k < |a| ==> a[k] != '%'
    requires forall k :: 0 <= k < |b| ==> b[k] != '%'
    requires IsSpace(c)
    ensures InitReturns(a + "%{}" + [c] + b)
    ensures Literal(a + "%{}" + [c] + b) == a + "{}" + [c] + b
  {
    var p := a + "%{}" + [c] + b;
    KeptNoPercent(p, 0, |a|);
    assert Lone(p, |a|);
    KeptNoPercent(p, |a| + 1, |p|);
    assert p[0..|a|] == a;
    assert p[|a| + 1..|p|] == "{}" + [c] + b;
  }

  /** `%%` stands for one `%` when nothing follows. */
  lemma DoublePercentAlone()
    ensures InitReturns("%%") && Literal("%%") == "%"
  {
    assert !Lone("%%", 0) && Lone("%%", 1);
    assert KeptPrefix("%%", 1) == "%";
  }

  /** A `%` followed by any non-space character other than `%` and `{` makes the scan
      loop forever, whatever precedes and follows it. */
  lemma DirectiveDiverges(a: string, x: char, b: string)
    requires x != '%' && x != '{' && !IsSpace(x)
    ensures !InitReturns(a + ['%', x] + b)
  {
    var p := a + ['%', x] + b;
    assert p[|a|] == '%' && p[|a| + 1] == x;
    assert Lone(p, |a|) && !Closes(p, |a| + 1);
  }

  /** The logger's default pattern is one of those: its first directive `%d` never ends. */
  lemma DefaultPatternDiverges()
    ensures !InitReturns(DEFAULT_PATTERN)
  {
    DirectiveDiverges("", 'd', DEFAULT_PATTERN[2..]);
    assert "" + ['%', 'd'] + DEFAULT_PATTERN[2..] == DEFAULT_PATTERN;
  }

  datatype InitResult =
    | Returns(vec: seq<Token>)   // the loops ended with this local vector
    | Loops(config: Config)      // the inner loop is at a stuck state after one pass

  // ---------------------------------------------------------------------------

  class LogFormatter {
    const pattern: string
    /** `m_items`: nothing ever assigns it after construction. */
    const items: seq<FormatItem>

    /** The constructor stores the pattern and runs `init`, which returns only on
        patterns with `InitReturns`; `m_items` stays the empty vector. */
    constructor (pattern: string)
      requires InitReturns(pattern)
      ensures this.pattern == pattern && items == []
    {
      this.pattern := pattern;
      items := [];
      new;
      var r := Init();
    }

    /** `format`: every item's output, in order, appended to one string stream. */
    method Format(loggerName: string, level: Level, event: LogEvent) returns (s: string)
      ensures s == RenderAll(items, loggerName, level, event)
    {
      s := "";
      for k := 0 to |items|
        invariant s == RenderAll(items[..k], loggerName, level, event)
      {
        assert items[..k + 1][..k] == items[..k];
        s := s + Render(items[k], loggerName, level, event);
      }
      assert items[..|items|] == items;
    }

    /** `init`: the scan over `m_pattern`, with its loop variables. It changes no field;
        the local vector is returned so that what the scan computes can be stated. Where
        the original loops forever the method stops after the first pass of the stuck
        branch and returns that state. */
    method Init() returns (r: InitResult)
      ensures r.Returns? <==> InitReturns(pattern)
      ensures r.Returns? ==> r.vec == LiteralTokens(pattern)
      ensures r.Loops? ==> Stuck(pattern, r.config)
    {
      var p := pattern;
      var vec: seq<Token> := [];
      var nstr: string := "";
      var i := 0;
      while i < |p|
        invariant 0 <= i <= |p|
        invariant vec == []
        invariant nstr == KeptPrefix(p, i)
        invariant forall k :: 0 <= k < i && Lone(p, k) ==> Closes(p, k + 1)
      {
        if p[i] != '%' {
          nstr := nstr + [p[i]];
          i := i + 1;
          continue;
        }
        if i + 1 < |p| && p[i + 1] == '%' {
          nstr := nstr + "%";
          i := i + 1;
          continue;
        }
        var n := i + 1;
        var status := 0;
        var str: string := "";
        var fmt: string := "";
        var fmtBegin := 0;
        while n < |p|
          invariant i + 1 <= n <= |p| && fmtBegin <= n
          invariant status == 0 ==> n == i + 1
          invariant status == 1 ==> n == i + 2 && p[i + 1] == '{'
          invariant status == 2 ==> n == i + 3 && p[i + 1] == '{' && p[i + 2] == '}'
          invariant 0 <= status <= 2
          invariant vec == []
          decreases |p| - n
        {
          if IsSpace(p[n]) {
            break;
          }
          if status == 0 && p[n] == '{' {
            str := Substr(p, i + 1, SizeT(n - i - 1));
            status := 1;
            fmtBegin := n + 1;
            n := n + 1;
            continue;
          }
          if status == 1 && p[n] == '}' {
            fmt := Substr(p, fmtBegin + 1, SizeT(n - fmtBegin - 1));
            status := 2;
            n := n + 1;
            continue;
          }
          // The remaining branches change neither `n` nor `status`: the original repeats
          // this pass forever. It is taken once, as `Iterate` (which `IterateN` iterates).
          assert Lone(p, i) && !Closes(p, i + 1);
          r := Loops(Iterate(p, Config(i, n, status, str, fmt, fmtBegin, nstr, vec)));
          return;
        }
        assert Closes(p, i + 1);
        i := i + 1;
      }
      if nstr != "" {
        vec := vec + [Token(nstr, "", 0)];
      }
      assert nstr == Literal(p);
      r := Returns(vec);
    }
  }

  /** Since `init` never assigns `m_items`, every formatter that can be constructed renders
      the empty string, whatever the pattern, logger, level and event. */
  method ConstructedFormatterRendersEmpty(pattern: string, loggerName: string, level: Level, event: LogEvent)
    returns (s: string)
    requires InitReturns(pattern)
    ensures s == ""
  {
    var f := new LogFormatter(pattern);
    s := f.Format(loggerName, level, event);
  }
}
