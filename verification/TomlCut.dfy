/** Cutting managed tables out of a document: what is lost, and that what is left still
    scans. Model of removeTOMLTables in internal/agent/harness/tomledit.go. */
module TomlCut {
  import opened Prelude
  import opened TomlScan

  // ---- Layouts compose ----------------------------------------------------

  predicate Complete(s: string) {
    s == "" || s[|s| - 1] == '\n'
  }

  /** The layout of two documents written one after the other. */
  function Then(a: Layout, b: Layout): Layout {
    if a.tables == [] then Layout(a.pre + b.pre, b.tables)
    else
      var n := |a.tables| - 1;
      Layout(a.pre, a.tables[..n] + [a.tables[n].(text := a.tables[n].text + b.pre)] + b.tables)
  }

  lemma {:induction false} LineLenPrefix(a: string, b: string)
    requires a != "" && (b == "" || Complete(a))
    ensures LineLen(a + b) == LineLen(a)
    decreases |a|
  {
    assert a + b == [a[0]] + (a[1..] + b);
    if a[0] != '\n' && |a| > 1 {
      assert (a + b)[1..] == a[1..] + b;
      LineLenPrefix(a[1..], b);
    } else if a[0] != '\n' {
      assert a + b == a;
    }
  }

  lemma WithLineThen(line: string, x: Layout, y: Layout)
    ensures WithLine(line, Ok(Then(x, y))) == Ok(Then(WithLine(line, Ok(x)).value, y))
  {
    if x.tables == [] {
      assert line + (x.pre + y.pre) == line + x.pre + y.pre;
    }
  }

  lemma WithHeaderThen(line: string, h: Header, x: Layout, y: Layout)
    ensures WithHeader(line, h, Ok(Then(x, y))) == Ok(Then(WithHeader(line, h, Ok(x)).value, y))
  {
    var first := Table(h, line + x.pre);
    if x.tables == [] {
      assert line + (x.pre + y.pre) == line + x.pre + y.pre;
      assert [first][..0] + [first.(text := first.text + y.pre)] + y.tables
          == [Table(h, line + (x.pre + y.pre))] + y.tables;
    } else {
      var n := |x.tables| - 1;
      var last := x.tables[n].(text := x.tables[n].text + y.pre);
      assert ([first] + x.tables)[..n + 1] == [first] + x.tables[..n];
      assert [first] + (x.tables[..n] + [last] + y.tables) == [first] + x.tables[..n] + [last] + y.tables;
    }
  }

  /** The three shapes a step of the scan can take when the whole document scans. */
  lemma StepOk(src: string, s: LineState, uq: Unquote)
    requires src != "" && Sections(src, s, uq).Ok?
    ensures var n := LineLen(src);
      var text := Chomp(src[..n]);
      var s' := ScanLine(text, s);
      var r := Sections(src[n..], s', uq);
      && r.Ok?
      && (!(s == Top && LooksLikeHeader(text)) ==>
            Sections(src, s, uq).value == Layout(src[..n] + r.value.pre, r.value.tables))
      && (s == Top && LooksLikeHeader(text) ==>
            var h := ParseHeader(TrimPad(text), uq);
            && h.Some?
            && Sections(src, s, uq).value == Layout("", [Table(h.value, src[..n] + r.value.pre)] + r.value.tables))
  {
    hide LineLen, Chomp, ScanLine, ParseHeader, TrimPad, LooksLikeHeader;
  }

  /** Scanning a document that follows complete lines ending at top level gives the two
      layouts joined. */
  lemma {:induction false} Compose(a: string, b: string, s: LineState, uq: Unquote)
    requires Complete(a) && Sections(a, s, uq).Ok? && Sections(b, Top, uq).Ok?
    ensures Sections(a + b, s, uq) == Ok(Then(Sections(a, s, uq).value, Sections(b, Top, uq).value))
    decreases |a|
  {
    var y := Sections(b, Top, uq).value;
    if a == "" {
      assert a + b == b;
      EmptyThen(y);
    } else {
      hide LineLen, Chomp, ScanLine, ParseHeader, TrimPad, LooksLikeHeader, WithLine, WithHeader, Then, Sections;
      var n := LineLen(a);
      FirstOf(a, b);
      Unfold(a, s, uq);
      Unfold(a + b, s, uq);
      var text := Chomp(a[..n]);
      var s' := ScanLine(text, s);
      StepOk(a, s, uq);
      Compose(a[n..], b, s', uq);
      var x := Sections(a[n..], s', uq).value;
      WithLineThen(a[..n], x, y);
      if s == Top && LooksLikeHeader(text) {
        WithHeaderThen(a[..n], ParseHeader(TrimPad(text), uq).value, x, y);
      }
    }
  }

  lemma FirstOf(a: string, b: string)
    requires a != "" && Complete(a)
    ensures var n := LineLen(a);
      LineLen(a + b) == n && (a + b)[..n] == a[..n] && (a + b)[n..] == a[n..] + b && Complete(a[n..])
  {
    hide LineLen;
    LineLenPrefix(a, b);
  }

  lemma EmptyThen(y: Layout)
    ensures Then(Layout("", []), y) == y
  {
    assert "" + y.pre == y.pre;
  }

  // ---- Layouts decompose --------------------------------------------------

  /** A text with no header in it that starts in state s and ends at top level. */
  ghost predicate Quiet(text: string, s: LineState, uq: Unquote) {
    Sections(text, s, uq) == Ok(Layout(text, []))
  }

  /** One table, from its header line on, scanned on its own. */
  ghost predicate Alone(t: Table, uq: Unquote) {
    t.text != "" && Sections(t.text, Top, uq) == Ok(Layout("", [t]))
  }

  ghost predicate WellCut(l: Layout, s: LineState, uq: Unquote) {
    && Quiet(l.pre, s, uq)
    && (l.tables != [] ==> Complete(l.pre))
    && (forall i | 0 <= i < |l.tables| :: Alone(l.tables[i], uq))
    && (forall i | 0 <= i < |l.tables| - 1 :: Complete(l.tables[i].text))
  }

  lemma {:induction false} Decompose(src: string, s: LineState, uq: Unquote)
    requires Sections(src, s, uq).Ok?
    ensures WellCut(Sections(src, s, uq).value, s, uq)
    decreases |src|
  {
    hide LineLen, ScanLine, ParseHeader, TrimPad, LooksLikeHeader;
    if src != "" {
      var n := LineLen(src);
      var line := src[..n];
      var s' := ScanLine(Chomp(line), s);
      StepOk(src, s, uq);
      Decompose(src[n..], s', uq);
      var r := Sections(src[n..], s', uq).value;
      DecomposeLine(src, s, r, uq);
    }
  }

  lemma {:induction false} SectionsText(src: string, s: LineState, uq: Unquote)
    requires Sections(src, s, uq).Ok?
    ensures var l := Sections(src, s, uq).value; l.pre + Text(l.tables) == src
    decreases |src|
  {
    hide LineLen, Chomp, ScanLine, ParseHeader, TrimPad, LooksLikeHeader;
    if src != "" {
      hide Sections;
      var n := LineLen(src);
      StepOk(src, s, uq);
      var s' := ScanLine(Chomp(src[..n]), s);
      SectionsText(src[n..], s', uq);
      var r := Sections(src[n..], s', uq).value;
      assert src[..n] + (r.pre + Text(r.tables)) == src[..n] + r.pre + Text(r.tables);
      assert src == src[..n] + src[n..];
      var l := Sections(src, s, uq).value;
      if l.tables != r.tables {
        assert l.tables[1..] == r.tables && "" + Text(l.tables) == Text(l.tables);
      }
    }
  }

  /** The first line, and the quiet text after it, scan as the first line of the whole did. */
  lemma {:induction false} FirstLineAgain(src: string, s: LineState, q: string, uq: Unquote)
    requires src != "" && Sections(src, s, uq).Ok?
    requires q != "" ==> LineLen(src) < |src|
    requires Quiet(q, ScanLine(Chomp(src[..LineLen(src)]), s), uq)
    ensures var line := src[..LineLen(src)];
      if s == Top && LooksLikeHeader(Chomp(line))
      then Sections(line + q, s, uq) == Ok(Layout("", [Table(ParseHeader(TrimPad(Chomp(line)), uq).value, line + q)]))
      else Quiet(line + q, s, uq)
  {
    hide ScanLine, ParseHeader, TrimPad, LooksLikeHeader, LineLen, Chomp;
    var n := LineLen(src);
    var line := src[..n];
    LineLenOfLine(src);
    LineLenPrefix(line, q);
    assert (line + q)[..n] == line && (line + q)[n..] == q;
    StepOk(src, s, uq);
    if s == Top && LooksLikeHeader(Chomp(line)) {
      var t := Table(ParseHeader(TrimPad(Chomp(line)), uq).value, line + q);
      assert [t] + [] == [t];
    }
  }

  lemma {:induction false} DecomposeLine(src: string, s: LineState, r: Layout, uq: Unquote)
    requires src != "" && Sections(src, s, uq).Ok?
    requires var n := LineLen(src); var s' := ScanLine(Chomp(src[..n]), s);
      Sections(src[n..], s', uq) == Ok(r) && WellCut(r, s', uq)
    ensures WellCut(Sections(src, s, uq).value, s, uq)
  {
    hide ScanLine, ParseHeader, TrimPad, LooksLikeHeader, LineLen, Chomp, Sections;
    var n := LineLen(src);
    var s' := ScanLine(Chomp(src[..n]), s);
    SectionsText(src[n..], s', uq);
    StepOk(src, s, uq);
    LineLenOfLine(src);
    assert r.pre != "" || r.tables != [] ==> n < |src|;
    FirstLineAgain(src, s, r.pre, uq);
    assert Complete(r.pre) && n < |src| ==> Complete(src[..n] + r.pre);
    if s == Top && LooksLikeHeader(Chomp(src[..n])) {
      EmptyQuiet(uq);
      var l := Sections(src, s, uq).value;
      assert l.tables[1..] == r.tables;
      assert forall i | 1 <= i < |l.tables| :: l.tables[i] == r.tables[i - 1];
    }
  }

  lemma EmptyQuiet(uq: Unquote)
    ensures Quiet("", Top, uq)
  {
  }

  lemma {:induction false} LineLenOfLine(src: string)
    requires src != ""
    ensures LineLen(src[..LineLen(src)]) == LineLen(src)
    ensures LineLen(src) < |src| ==> Complete(src[..LineLen(src)])
    decreases |src|
  {
    var n := LineLen(src);
    if n > 1 {
      assert src[..n][1..] == src[1..][..n - 1];
      LineLenOfLine(src[1..]);
    }
  }

  // ---- Blank and comment-only lines are neutral ---------------------------

  /** Only blank and comment-only lines. */
  ghost predicate AttachedRun(s: string)
    decreases |s|
  {
    s == "" || var n := LineLen(s); Attached(s[..n]) && AttachedRun(s[n..])
  }

  lemma {:induction false} AttachedNeutral(text: string, s: LineState)
    requires Attached(text) && s.multi.None?
    ensures ScanLine(text, s) == s && !LooksLikeHeader(text)
  {
    if text != "" && IsSpace(text[0]) {
      AttachedNeutral(text[1..], s);
    }
  }

  lemma {:induction false} AttachedChomp(line: string)
    requires Attached(line)
    ensures Attached(Chomp(line))
  {
    if line != "" && line[|line| - 1] == '\n' {
      AttachedInit(line);
    }
  }

  lemma {:induction false} AttachedInit(line: string)
    requires line != "" && Attached(line)
    ensures Attached(line[..|line| - 1])
  {
    if |line| > 1 && IsSpace(line[0]) {
      assert line[1..][..|line| - 2] == line[..|line| - 1][1..];
      AttachedInit(line[1..]);
    }
  }

  /** Rescanned at top level, a run of attached lines is quiet, whatever it closed before. */
  lemma {:induction false} AttachedQuiet(s: string, uq: Unquote)
    requires AttachedRun(s)
    ensures Quiet(s, Top, uq)
    decreases |s|
  {
    if s != "" {
      hide LineLen, Chomp, Attached, ScanLine, LooksLikeHeader;
      var n := LineLen(s);
      AttachedChomp(s[..n]);
      AttachedNeutral(Chomp(s[..n]), Top);
      AttachedQuiet(s[n..], uq);
      assert s == s[..n] + s[n..];
      assert Sections(s, Top, uq) == WithLine(s[..n], Sections(s[n..], Top, uq));
    }
  }

  lemma {:induction false} LineStartClear(src: string, i: nat)
    requires i <= |src|
    ensures forall j | LineStart(src, i) <= j < i :: src[j] != '\n'
  {
    if i > 0 && src[i - 1] != '\n' {
      LineStartClear(src, i - 1);
    }
  }

  lemma {:induction false} LineLenIs(s: string, n: nat)
    requires 0 < n <= |s| && (forall j | 0 <= j < n - 1 :: s[j] != '\n')
    requires n == |s| || s[n - 1] == '\n'
    ensures LineLen(s) == n
    decreases |s|
  {
    if n > 1 {
      assert s[0] != '\n';
      forall j | 0 <= j < n - 2
        ensures s[1..][j] != '\n'
      {
        assert s[1..][j] == s[j + 1];
      }
      LineLenIs(s[1..], n - 1);
    }
  }

  lemma {:induction false} RunGrows(src: string, k: nat, end: nat)
    requires k < end <= |src| && (end < |src| ==> src[end - 1] == '\n')
    requires forall j | k <= j < end - 1 :: src[j] != '\n'
    requires AttachedAt(src, k, end) && AttachedRun(src[end..])
    ensures AttachedRun(src[k..])
  {
    hide Attached, LineLen;
    var t, n := src[k..], end - k;
    assert forall j | 0 <= j < |t| :: t[j] == src[k + j];
    LineLenIs(t, n);
    assert src[k..|src|] == t;
    SliceSlice(src, k, |src|, 0, n);
    SliceSlice(src, k, |src|, n, |src| - k);
  }

  /** What trimAttached leaves outside the span is a run of attached lines. */
  lemma {:induction false} TrimmedRun(src: string, start: nat, end: nat)
    requires start <= end <= |src| && (end < |src| && end > 0 ==> src[end - 1] == '\n')
    requires AttachedRun(src[end..])
    ensures AttachedRun(src[TrimAttached(src, start, end)..])
    decreases end
  {
    hide AttachedAt, LineStart, AttachedRun;
    if start < end {
      var k := LineStart(src, end - 1);
      if k > start && AttachedAt(src, k, end) {
        LineStartClear(src, end - 1);
        RunGrows(src, k, end);
        TrimmedRun(src, start, k);
      }
    }
  }

  /** A comment-looking line can close a multi-line string, so an attached line is neutral at
      top level only: this one is attached, and closes a basic multi-line string. */
  lemma AttachedMayClose()
    ensures var line := "# text " + Quotes(Basic);
      Attached(line) && ScanLine(line, LineState(Some(Basic), 0)) == Top
  {
    var line := "# text " + Quotes(Basic);
    ClosesAfter("# text ", 0);
    assert line[7..] == Quotes(Basic) && line[0..] == line && Quotes(Basic)[3..] == "";
  }

  lemma {:induction false} ClosesAfter(t: string, i: nat)
    requires i <= |t| && forall j | 0 <= j < |t| :: t[j] != '"' && t[j] != '\\'
    ensures ScanLine((t + Quotes(Basic))[i..], LineState(Some(Basic), 0)) == ScanLine(Quotes(Basic), LineState(Some(Basic), 0))
    decreases |t| - i
  {
    var b := (t + Quotes(Basic))[i..];
    if i == |t| {
      assert b == Quotes(Basic);
    } else {
      assert b[0] == t[i] && b[1..] == (t + Quotes(Basic))[i + 1..];
      ClosesAfter(t, i + 1);
    }
  }

  lemma TailQuiet(t: Table, uq: Unquote)
    ensures Quiet(Tail(t), Top, uq)
  {
    assert AttachedRun(t.text[|t.text|..]);
    TrimmedRun(t.text, 0, |t.text|);
    AttachedQuiet(Tail(t), uq);
  }

  // ---- The cut ------------------------------------------------------------

  type Match = seq<string> -> bool

  /** What table i leaves behind: all of itself, or only the lines attached to whatever
      follows, or nothing when those are a blank separator between two managed tables. */
  function Piece(ts: seq<Table>, m: Match, i: nat): string
    requires i < |ts|
  {
    if !m(ts[i].header.key) then ts[i].text
    else if i + 1 < |ts| && m(ts[i + 1].header.key) && Blank(Tail(ts[i])) then ""
    else Tail(ts[i])
  }

  /** What the first k tables leave behind. */
  function CutTo(ts: seq<Table>, m: Match, k: nat): string
    requires k <= |ts|
  {
    if k == 0 then "" else CutTo(ts, m, k - 1) + Piece(ts, m, k - 1)
  }

  function Cut(l: Layout, m: Match): string {
    l.pre + CutTo(l.tables, m, |l.tables|)
  }

  function Unmanaged(ts: seq<Table>, m: Match): seq<Header> {
    if ts == [] then []
    else
      var n := |ts| - 1;
      Unmanaged(ts[..n], m) + if m(ts[n].header.key) then [] else [ts[n].header]
  }

  function Headers(ts: seq<Table>): seq<Header> {
    seq(|ts|, i requires 0 <= i < |ts| => ts[i].header)
  }

  /** One more piece keeps the output scanning, its headers those not managed. */
  lemma {:induction false} CutStep(a: string, ts: seq<Table>, m: Match, k: nat, uq: Unquote)
    requires k < |ts| && Alone(ts[k], uq) && Complete(a) && Sections(a, Top, uq).Ok?
    requires Headers(Sections(a, Top, uq).value.tables) == Unmanaged(ts[..k], m)
    ensures var out := a + Piece(ts, m, k);
      && Sections(out, Top, uq).Ok?
      && Headers(Sections(out, Top, uq).value.tables) == Unmanaged(ts[..k + 1], m)
      && (Complete(ts[k].text) ==> Complete(out))
  {
    hide Sections, Piece, Then, Headers;
    var piece := Piece(ts, m, k);
    PieceScans(ts, m, k, uq);
    Compose(a, piece, Top, uq);
    HeadersThen(Sections(a, Top, uq).value, Sections(piece, Top, uq).value);
    assert ts[..k + 1][..k] == ts[..k];
  }

  /** For every document that scans: what is left after the first k tables have been
      considered scans again from top level to top level, and its headers are exactly the
      unmanaged ones, in their old order. With k the number of tables this is the whole
      output; with k a managed table it says that every seam is at top level. */
  lemma {:induction false} CutRescans(src: string, m: Match, k: nat, uq: Unquote)
    requires Sections(src, Top, uq).Ok? && k <= |Sections(src, Top, uq).value.tables|
    ensures var l := Sections(src, Top, uq).value;
      var out := l.pre + CutTo(l.tables, m, k);
      && Sections(out, Top, uq).Ok?
      && Headers(Sections(out, Top, uq).value.tables) == Unmanaged(l.tables[..k], m)
      && (k < |l.tables| ==> Complete(out))
  {
    hide Sections, Piece, Headers;
    Decompose(src, Top, uq);
    var l := Sections(src, Top, uq).value;
    if k == 0 {
      assert l.pre + "" == l.pre;
      NoHeaders(m);
    } else {
      CutRescans(src, m, k - 1, uq);
      var a := l.pre + CutTo(l.tables, m, k - 1);
      CutStep(a, l.tables, m, k - 1, uq);
      assert l.pre + CutTo(l.tables, m, k) == a + Piece(l.tables, m, k - 1);
    }
  }

  lemma NoHeaders(m: Match)
    ensures Headers([]) == [] && Unmanaged([], m) == []
  {
  }

  lemma PieceScans(ts: seq<Table>, m: Match, i: nat, uq: Unquote)
    requires i < |ts| && Alone(ts[i], uq)
    ensures var piece := Piece(ts, m, i);
      && Sections(piece, Top, uq).Ok?
      && Headers(Sections(piece, Top, uq).value.tables) == (if m(ts[i].header.key) then [] else [ts[i].header])
      && (Complete(ts[i].text) ==> Complete(piece))
  {
    hide Sections, CoreLen;
    TailQuiet(ts[i], uq);
    EmptyQuiet(uq);
    assert Tail(ts[i]) != "" ==> Tail(ts[i])[|Tail(ts[i])| - 1] == ts[i].text[|ts[i].text| - 1];
  }

  lemma HeadersThen(a: Layout, b: Layout)
    ensures Headers(Then(a, b).tables) == Headers(a.tables) + Headers(b.tables)
  {
  }
}
