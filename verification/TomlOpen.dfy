/** Where a table's span can end inside a multi-line string, although the table does not.
    Model of what trimAttached in internal/agent/harness/tomledit.go leaves as the span. */
module TomlOpen {
  import opened Prelude
  import opened TomlScan
  import opened TomlCut
  import opened TomlRender
  import opened CodexRewrite

  /** The lexical state after src when its first line starts in state s. */
  function EndState(src: string, s: LineState): LineState
    decreases |src|
  {
    if src == "" then s else var n := LineLen(src); EndState(src[n..], ScanLine(Chomp(src[..n]), s))
  }

  /** Cut a document that scans after any complete line: the rest scans from the state reached,
      and only what is open in that state keeps the front from scanning. */
  lemma {:induction false} FrontScans(a: string, b: string, s: LineState, uq: Unquote)
    requires Complete(a) && Sections(a + b, s, uq).Ok?
    ensures var e := EndState(a, s);
      && Sections(b, e, uq).Ok?
      && (e == Top <==> Sections(a, s, uq).Ok?)
      && (e != Top ==> Sections(a, s, uq) == AtEnd(e))
    decreases |a|
  {
    if a == "" {
      assert a + b == b;
    } else {
      hide LineLen, Chomp, ScanLine, ParseHeader, TrimPad, LooksLikeHeader, Sections, Complete;
      var n := LineLen(a);
      FirstOf(a, b);
      Unfold(a, s, uq);
      StepOk(a + b, s, uq);
      FrontScans(a[n..], b, ScanLine(Chomp(a[..n]), s), uq);
    }
  }

  /** Attached lines close nothing outside a string. */
  lemma {:induction false} AttachedAtTop(b: string, s: LineState, uq: Unquote)
    requires AttachedRun(b) && s.multi.None? && Sections(b, s, uq).Ok?
    ensures s == Top
    decreases |b|
  {
    if b != "" {
      hide LineLen, Chomp, Attached, ScanLine, LooksLikeHeader, Sections;
      var n := LineLen(b);
      AttachedChomp(b[..n]);
      AttachedNeutral(Chomp(b[..n]), s);
      StepOk(b, s, uq);
      AttachedAtTop(b[n..], s, uq);
    }
  }

  function Core(t: Table): string { t.text[..CoreLen(t.text)] }

  lemma CoreTail(t: Table)
    ensures Core(t) + Tail(t) == t.text && AttachedRun(Tail(t)) && (Tail(t) == "" || Complete(Core(t)))
  {
    hide TrimAttached, AttachedRun;
    NothingAttached(t.text[|t.text|..]);
    TrimmedRun(t.text, 0, |t.text|);
    TrimmedEnd(t.text, 0, |t.text|);
  }

  lemma NothingAttached(s: string)
    requires s == ""
    ensures AttachedRun(s)
  {
  }

  lemma {:induction false} TrimmedEnd(src: string, start: nat, end: nat)
    requires start <= end <= |src|
    ensures var e := TrimAttached(src, start, end); e == end || e == 0 || src[e - 1] == '\n'
    decreases end
  {
    if start < end {
      var k := LineStart(src, end - 1);
      if k > start && AttachedAt(src, k, end) {
        TrimmedEnd(src, start, k);
      }
    }
  }

  /** A table's span scans on its own to that table, unless it ends with a multi-line string
      open, which the lines cut off then close. */
  lemma CoreAlone(t: Table, uq: Unquote)
    requires Alone(t, uq)
    ensures var r := Sections(Core(t), Top, uq);
      if EndState(Core(t), Top).multi.Some? then r == Err(OpenString)
      else r.Ok? && Headers(r.value.tables) == [t.header]
  {
    hide Sections, AttachedRun, EndState, CoreLen, Complete;
    CoreTail(t);
    if Tail(t) == "" {
      assert Core(t) == t.text;
      EndsAtTop(t.text, Top, uq);
    } else {
      FrontScans(Core(t), Tail(t), Top, uq);
      if EndState(Core(t), Top).multi.None? {
        AttachedAtTop(Tail(t), EndState(Core(t), Top), uq);
        TailQuiet(t, uq);
        Compose(Core(t), Tail(t), Top, uq);
        var x := Sections(Core(t), Top, uq).value;
        HeadersThen(x, Layout(Tail(t), []));
        assert Headers([]) == [] && Headers([t]) == [t.header] && Headers(x.tables) + [] == Headers(x.tables);
      }
    }
  }

  /** A document that scans ends at top level. */
  lemma {:induction false} EndsAtTop(a: string, s: LineState, uq: Unquote)
    requires Sections(a, s, uq).Ok?
    ensures EndState(a, s) == Top
    decreases |a|
  {
    if a != "" {
      hide LineLen, Chomp, ScanLine, Sections;
      StepOk(a, s, uq);
      EndsAtTop(a[LineLen(a)..], ScanLine(Chomp(a[..LineLen(a)]), s), uq);
    }
  }

  // ---- Told from the table's text -----------------------------------------

  /** Position n ends a line of the table, its header line at the earliest; the text up to it ends
      inside a multi-line string, and only blank and comment-looking lines follow. */
  ghost predicate SplitsOpen(text: string, n: nat) {
    && 0 < n <= |text| && Complete(text[..n]) && LineLen(text) <= n
    && AttachedRun(text[n..]) && EndState(text[..n], Top).multi.Some?
  }

  /** The first line of what follows n. */
  lemma LineAfter(text: string, n: nat)
    requires n < |text| && AttachedRun(text[n..])
    ensures var end := n + LineLen(text[n..]);
      && n < end <= |text| && AttachedAt(text, n, end) && AttachedRun(text[end..])
      && (forall j | n <= j < end - 1 :: text[j] != '\n') && (end < |text| ==> text[end - 1] == '\n')
  {
    hide Attached, LineLen;
    var s := text[n..];
    var m := LineLen(s);
    FirstLine(s);
    assert s[m..] == text[n + m..] && s[..m] == text[n..n + m];
    assert forall j | n <= j < |text| :: text[j] == s[j - n];
  }

  lemma TrimStep(text: string, n: nat, end: nat)
    requires 0 < n < end <= |text| && LineStart(text, end - 1) == n && AttachedAt(text, n, end)
    ensures TrimAttached(text, 0, end) == TrimAttached(text, 0, n)
  {
    hide LineStart, AttachedAt;
  }

  /** The trimming walks back over every run of attached lines. */
  lemma {:induction false} TrimReaches(text: string, n: nat)
    requires 0 < n <= |text| && text[n - 1] == '\n' && AttachedRun(text[n..])
    ensures CoreLen(text) == TrimAttached(text, 0, n)
    decreases |text| - n
  {
    hide AttachedAt, LineStart, AttachedRun, LineLen, TrimAttached;
    if n < |text| {
      var end := n + LineLen(text[n..]);
      LineAfter(text, n);
      LineStartIs(text, n, end - 1);
      TrimStep(text, n, end);
      if end < |text| {
        TrimReaches(text, end);
      }
    }
  }

  lemma {:induction false} FirstLine(s: string)
    requires s != ""
    ensures forall j | 0 <= j < LineLen(s) - 1 :: s[j] != '\n'
  {
    if s[0] != '\n' && |s| > 1 {
      FirstLine(s[1..]);
      assert forall j | 1 <= j < LineLen(s) - 1 :: s[j] == s[1..][j - 1];
    }
  }

  lemma {:induction false} EndStateThen(a: string, b: string, s: LineState)
    requires Complete(a)
    ensures EndState(a + b, s) == EndState(b, EndState(a, s))
    decreases |a|
  {
    if a == "" {
      assert a + b == b;
    } else {
      hide LineLen, Chomp, ScanLine;
      FirstOf(a, b);
      EndStateThen(a[LineLen(a)..], b, ScanLine(Chomp(a[..LineLen(a)]), s));
    }
  }

  lemma {:induction false} AttachedEnds(b: string, s: LineState)
    requires AttachedRun(b) && s.multi.None?
    ensures EndState(b, s) == s
    decreases |b|
  {
    if b != "" {
      hide LineLen, Chomp, Attached, ScanLine;
      AttachedChomp(b[..LineLen(b)]);
      AttachedNeutral(Chomp(b[..LineLen(b)]), s);
      AttachedEnds(b[LineLen(b)..], s);
    }
  }

  lemma SplitOpensCore(text: string, n: nat)
    requires SplitsOpen(text, n)
    ensures EndState(text[..CoreLen(text)], Top).multi.Some?
  {
    hide EndState, AttachedRun, TrimAttached, LineLen;
    var front, c := text[..n], CoreLen(text);
    TrimReaches(text, n);
    TrimAttachedShift(text, 0, n, n);
    assert text[0..n] == front;
    var t := Table(Header([], false), front);
    CoreTail(t);
    assert c == CoreLen(front) && Core(t) == text[..c];
    if EndState(text[..c], Top).multi.None? {
      if Tail(t) == "" {
        assert text[..c] == front;
      } else {
        EndStateThen(Core(t), Tail(t), Top);
        AttachedEnds(Tail(t), EndState(Core(t), Top));
      }
    }
  }

  /** Exactly when the trimming cuts into a string: some line of the table, its header line at the
      earliest, ends inside a multi-line string and has only attached lines after it. */
  lemma CoreOpensIff(t: Table, uq: Unquote)
    requires Alone(t, uq)
    ensures Sections(Core(t), Top, uq) == Err(OpenString) <==> exists n: nat :: SplitsOpen(t.text, n)
  {
    hide Sections, AttachedRun, EndState, CoreLen, LineLen;
    CoreAlone(t, uq);
    CoreTail(t);
    assert Core(t) + "" == Core(t);
    if EndState(Core(t), Top).multi.Some? && Tail(t) != "" {
      LineLenWithin(t.text, |Core(t)|);
      assert SplitsOpen(t.text, |Core(t)|);
    }
    if n: nat :| SplitsOpen(t.text, n) {
      SplitOpensCore(t.text, n);
    }
  }

  lemma {:induction false} LineLenWithin(text: string, n: nat)
    requires 0 < n <= |text| && text[n - 1] == '\n'
    ensures LineLen(text) <= n
  {
    if text[0] != '\n' && |text| > 1 && n > 1 {
      LineLenWithin(text[1..], n - 1);
    }
  }

  // ---- A document in which it happens -------------------------------------

  const OPENING := "k = " + Quotes(Basic)
  const CLOSING := "# text " + Quotes(Basic)

  /** One table whose only value is a multi-line string, its last line looking like a comment. */
  const CUT_OPEN := Table(Header(["a"], false), HeaderLine(["a"]) + "\n" + (OPENING + "\n") + (CLOSING + "\n"))

  lemma OpeningOpens()
    ensures ScanLine(OPENING, Top) == LineState(Some(Basic), 0) && !LooksLikeHeader(OPENING) && !Attached(OPENING)
  {
    PlainNeutral("k = ", Quotes(Basic), Top);
    ScanNothing(LineState(Some(Basic), 0));
    assert Quotes(Basic)[3..] == "";
    FirstCharDecides(OPENING);
  }

  /** Scanning that header line and the line after it, whatever follows. */
  lemma TwoLines(rest: string, uq: Unquote)
    ensures var d := HeaderLine(["a"]) + "\n" + (OPENING + "\n" + rest);
      Sections(d, Top, uq)
      == WithHeader(HeaderLine(["a"]) + "\n", Header(["a"], false),
                    WithLine(OPENING + "\n", Sections(rest, LineState(Some(Basic), 0), uq)))
  {
    hide ScanLine, LooksLikeHeader, ParseHeader, HeaderLine, LineLen, Chomp, Sections, WithLine, WithHeader;
    var h := HeaderLine(["a"]);
    HeaderLineNeutral(["a"]);
    HeaderReadsBack(["a"], uq);
    HeaderStarts(["a"]);
    NoPad(h);
    OpeningOpens();
    LinesOfText(h, OPENING + "\n" + rest);
    Unfold(h + "\n" + (OPENING + "\n" + rest), Top, uq);
    LinesOfText(OPENING, rest);
    Unfold(OPENING + "\n" + rest, Top, uq);
    assert (h + "\n" + (OPENING + "\n" + rest))[..|h| + 1] == h + "\n";
    assert (OPENING + "\n" + rest)[..|OPENING| + 1] == OPENING + "\n";
  }

  lemma LastCloses(uq: Unquote)
    ensures Sections(CLOSING + "\n", LineState(Some(Basic), 0), uq) == Ok(Layout(CLOSING + "\n", []))
  {
    hide ScanLine, LineLen, Chomp, Sections;
    AttachedMayClose();
    LinesOfText(CLOSING, "");
    assert CLOSING + "\n" + "" == CLOSING + "\n";
    Unfold(CLOSING + "\n", LineState(Some(Basic), 0), uq);
    EmptyQuiet(uq);
  }

  lemma CutOpenCore()
    ensures Core(CUT_OPEN) == HeaderLine(["a"]) + "\n" + (OPENING + "\n")
  {
    hide HeaderLine, CoreLen;
    var h := HeaderLine(["a"]) + "\n";
    var core := h + (OPENING + "\n");
    OpeningOpens();
    LastLine(h, OPENING);
    assert Attached(CLOSING + "\n");
    LastAttached(core, CLOSING);
    assert CUT_OPEN.text[..|core|] == core;
  }

  /** The span of that table ends with the string open, and the line that closes it is cut off. */
  lemma CutsIntoString(uq: Unquote)
    ensures Alone(CUT_OPEN, uq)
    ensures Core(CUT_OPEN) + (CLOSING + "\n") == CUT_OPEN.text
    ensures Sections(Core(CUT_OPEN), Top, uq) == Err(OpenString)
  {
    hide Sections, HeaderLine, Core;
    var h := HeaderLine(["a"]) + "\n";
    CutOpenCore();
    TwoLines(CLOSING + "\n", uq);
    LastCloses(uq);
    assert CUT_OPEN.text == h + (OPENING + "\n" + (CLOSING + "\n"));
    assert [CUT_OPEN] + [] == [CUT_OPEN];
    assert OPENING + "\n" + (CLOSING + "\n") == (OPENING + "\n") + (CLOSING + "\n");
    TwoLines("", uq);
    assert OPENING + "\n" + "" == OPENING + "\n";
    assert Sections("", LineState(Some(Basic), 0), uq) == Err(OpenString) by { OpenAtEnd(uq); }
  }

  lemma OpenAtEnd(uq: Unquote)
    ensures Sections("", LineState(Some(Basic), 0), uq) == Err(OpenString)
  {
  }
}
