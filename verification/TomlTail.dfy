/** Trailing white space of a document does not matter to the scanner: replacing it by one
    blank line changes neither whether the document scans nor its headers. */
module TomlTail {
  import opened Prelude
  import opened TomlScan
  import opened TomlCut
  import opened TomlRender

  predicate AllTail(w: string) {
    forall i | 0 <= i < |w| :: IsTail(w[i])
  }

  /** A text that does not end in trailing white space. */
  predicate Trimmed(a: string) {
    a != "" && !IsTail(a[|a| - 1])
  }

  // ---- scanLine -----------------------------------------------------------

  lemma {:induction false} TailClosesNothing(w: string)
    requires AllTail(w)
    ensures !ClosesBasic(w) && AfterBasic(w) == "" && AfterLiteral(w) == "" && '\'' !in w
  {
    if w != "" {
      TailClosesNothing(w[1..]);
      assert w == [w[0]] + w[1..];
    }
  }

  lemma {:induction false} AfterBasicTail(a: string, w: string) returns (w': string)
    requires AllTail(w)
    ensures AfterBasic(a + w) == AfterBasic(a) + w' && AllTail(w')
    ensures ClosesBasic(a + w) == ClosesBasic(a) && (ClosesBasic(a) ==> w' == w)
    decreases |a|
  {
    if a == "" {
      assert a + w == w;
      TailClosesNothing(w);
      w' := "";
    } else if a[0] == '\\' {
      if |a| == 1 {
        assert Drop(a + w, 2) == Drop(w, 1);
        TailClosesNothing(Drop(w, 1));
        w' := "";
      } else {
        assert Drop(a + w, 2) == Drop(a, 2) + w;
        w' := AfterBasicTail(Drop(a, 2), w);
      }
    } else {
      assert (a + w)[1..] == a[1..] + w;
      if a[0] == '"' {
        w' := w;
      } else {
        w' := AfterBasicTail(a[1..], w);
      }
    }
  }

  lemma {:induction false} AfterLiteralTail(a: string, w: string) returns (w': string)
    requires AllTail(w)
    ensures AfterLiteral(a + w) == AfterLiteral(a) + w' && AllTail(w')
    ensures '\'' in a + w <==> '\'' in a
    ensures '\'' in a ==> w' == w
  {
    TailClosesNothing(w);
    if a == "" {
      assert a + w == w;
      w' := "";
    } else {
      assert (a + w)[1..] == a[1..] + w;
      if a[0] == '\'' {
        w' := w;
      } else {
        w' := AfterLiteralTail(a[1..], w);
      }
    }
  }

  lemma PrefixTail(q: Delim, a: string, w: string)
    requires AllTail(w) && a != ""
    ensures Quotes(q) <= a + w <==> Quotes(q) <= a
    ensures Quotes(q) <= a ==> (a + w)[3..] == a[3..] + w
  {
    if |a| < 3 <= |a + w| {
      assert (a + w)[|a|] == w[0];
    }
  }

  lemma TokenTail(a: string, w: string, s: LineState) returns (w': string)
    requires AllTail(w) && a != ""
    ensures Token(a + w, s) == (Token(a, s).0 + w', Token(a, s).1) && AllTail(w')
  {
    hide AfterBasic, AfterLiteral;
    PrefixTail(Basic, a, w);
    PrefixTail(Literal, a, w);
    assert (a + w)[0] == a[0] && (a + w)[1..] == a[1..] + w;
    w' := w;
    match s.multi
    case Some(d) =>
      PrefixTail(d, a, w);
      if !(Quotes(d) <= a) && d.Basic? && a[0] == '\\' {
        if |a| == 1 {
          w' := Drop(w, 1);
        }
        assert Drop(a + w, 2) == Drop(a, 2) + w';
      }
    case None =>
      if a[0] == '#' {
        w' := "";
        assert "" + w' == "";
      } else if a[0] == '"' && !(Quotes(Basic) <= a) {
        w' := AfterBasicTail(a[1..], w);
      } else if a[0] == '\'' && !(Quotes(Literal) <= a) {
        w' := AfterLiteralTail(a[1..], w);
      }
  }

  lemma {:induction false} ScanTail(a: string, w: string, s: LineState)
    requires AllTail(w)
    ensures ScanLine(a + w, s) == ScanLine(a, s)
    decreases |a|
  {
    if a == "" {
      assert a + w == w;
      ScanOnlyTail(w, s);
    } else {
      var w' := TokenTail(a, w, s);
      ScanTail(Token(a, s).0, w', Token(a, s).1);
    }
  }

  lemma {:induction false} ScanOnlyTail(w: string, s: LineState)
    requires AllTail(w)
    ensures ScanLine(w, s) == s
  {
    if w != "" {
      ScanOnlyTail(w[1..], s);
    }
  }

  // ---- Headers ------------------------------------------------------------

  lemma {:induction false} TrimPadTail(b: string, w: string)
    requires TrimPad(b) != ""
    ensures TrimPad(b + w) == TrimPad(b) + w
  {
    if IsPad(b[0]) {
      assert (b + w)[1..] == b[1..] + w;
      TrimPadTail(b[1..], w);
    }
  }

  lemma {:induction false} TrimPadAllTail(b: string, w: string)
    requires TrimPad(b) == "" && AllTail(w)
    ensures var t := TrimPad(b + w); t == "" || t[0] == '\r' || t[0] == '\n'
  {
    if b == "" {
      assert b + w == w;
      if w != "" && IsPad(w[0]) {
        assert "" + w[1..] == w[1..];
        TrimPadAllTail("", w[1..]);
      }
    } else {
      assert (b + w)[1..] == b[1..] + w;
      TrimPadAllTail(b[1..], w);
    }
  }

  lemma {:induction false} BareLenTail(t: string, w: string)
    requires AllTail(w)
    ensures BareLen(t + w) == BareLen(t)
  {
    if t == "" {
      assert t + w == w;
    } else {
      assert (t + w)[1..] == t[1..] + w;
      BareLenTail(t[1..], w);
    }
  }

  lemma SegmentTail(t: string, w: string, uq: Unquote)
    requires t != "" && AllTail(w)
    ensures match ParseSegment(t, uq)
      case None => ParseSegment(t + w, uq).None?
      case Some((seg, rest)) => ParseSegment(t + w, uq) == Some((seg, rest + w))
  {
    hide AfterBasic, AfterLiteral, BareLen, ClosesBasic;
    assert (t + w)[1..] == t[1..] + w;
    if t[0] == '"' {
      var w' := AfterBasicTail(t[1..], w);
      if ClosesBasic(t[1..]) {
        var n := |t| - |AfterBasic(t[1..])|;
        assert (t + w)[..n] == t[..n];
      }
    } else if t[0] == '\'' {
      var w' := AfterLiteralTail(t[1..], w);
      if '\'' in t[1..] {
        var n := |t| - |AfterLiteral(t[1..])| - 1;
        LiteralCloses(t[1..]);
        assert (t + w)[1..n] == t[1..n];
      }
    } else {
      BareLenTail(t, w);
      var n := BareLen(t);
      assert (t + w)[..n] == t[..n] && (t + w)[n..] == t[n..] + w;
    }
  }

  lemma {:induction false} LiteralCloses(b: string)
    requires '\'' in b
    ensures |AfterLiteral(b)| < |b|
  {
    if b[0] != '\'' {
      LiteralCloses(b[1..]);
    }
  }

  lemma {:induction false} PathTail(b: string, w: string, e: bool, key: seq<string>, uq: Unquote)
    requires AllTail(w)
    ensures match ParsePath(b, e, key, uq)
      case None => ParsePath(b + w, e, key, uq).None?
      case Some((k, rest)) => ParsePath(b + w, e, key, uq) == Some((k, rest + w))
    decreases |b|
  {
    hide TrimPad, ParseSegment;
    var t := TrimPad(b);
    if t == "" {
      TrimPadAllTail(b, w);
      NoSegment(TrimPad(b + w), uq);
    } else {
      TrimPadTail(b, w);
      assert (t + w)[1..] == t[1..] + w;
      if t[0] == ']' {
      } else if !e {
        if t[0] == '.' {
          PathTail(t[1..], w, true, key, uq);
        }
      } else {
        SegmentTail(t, w, uq);
        match ParseSegment(t, uq)
        case None =>
        case Some((seg, rest)) => PathTail(rest, w, false, key + [seg], uq);
      }
    }
  }

  lemma NoSegment(t: string, uq: Unquote)
    requires t != "" ==> t[0] == '\r' || t[0] == '\n'
    ensures t != "" ==> ParseSegment(t, uq).None?
  {
  }

  /** A header that reads with trailing white space after it reads the same without. */
  lemma HeaderTail(a: string, w: string, uq: Unquote)
    requires Trimmed(a) && AllTail(w) && ParseHeader(a + w, uq).Some?
    ensures ParseHeader(a, uq) == ParseHeader(a + w, uq)
  {
    hide ParsePath;
    assert |a| == 1 && w != "" ==> (a + w)[1] == w[0];
    var aot := |a| > 1 && a[1] == '[';
    var n := if aot then 2 else 1;
    assert Drop(a + w, n) == Drop(a, n) + w;
    PathTail(Drop(a, n), w, true, [], uq);
    var (key, rest) := ParsePath(Drop(a, n), true, [], uq).value;
    if aot {
      assert rest == "" ==> rest + w == w;
      assert rest != "" && rest[0] == ']';
      assert (rest + w)[1..] == rest[1..] + w;
    }
    var end := if aot then rest[1..] else rest;
    if TrimPad(end) != "" {
      TrimPadTail(end, w);
    }
  }

  // ---- Whole documents ----------------------------------------------------

  lemma {:induction false} OnlyTailScans(w: string, s: LineState, uq: Unquote)
    requires AllTail(w) && Sections(w, s, uq).Ok?
    ensures s == Top && Sections(w, s, uq).value.tables == []
    decreases |w|
  {
    if w != "" {
      hide LineLen, ScanLine, LooksLikeHeader, Sections;
      var n := LineLen(w);
      StepOk(w, s, uq);
      ScanOnlyTail(Chomp(w[..n]), s);
      NoHeader(Chomp(w[..n]));
      OnlyTailScans(w[n..], s, uq);
    }
  }

  lemma {:induction false} NoHeader(w: string)
    requires AllTail(w)
    ensures !LooksLikeHeader(w)
  {
    assert "" + w == w;
    TrimPadAllTail("", w);
  }

  lemma BlankLineScans(uq: Unquote)
    ensures Quiet("\n", Top, uq)
  {
    assert "\n"[1..] == "" && "\n"[..1] == "\n" && LineLen("\n") == 1;
    AttachedQuiet("\n", uq);
  }

  /** The first line of a trimmed text, seen with and without what trails it. */
  lemma {:induction false} FirstLineTail(a: string, w: string)
    requires Trimmed(a) && NoBreak(a) && AllTail(w) && w != ""
    ensures var n := LineLen(a + w);
      && |a| <= n
      && AllTail((a + w)[n..])
      && exists v | AllTail(v) :: Chomp((a + w)[..n]) == a + v
  {
    var d := a + w;
    LineReaches(d, |a|);
    var n := LineLen(d);
    assert forall i | 0 <= i < |w| :: d[|a| + i] == w[i];
    assert forall i | 0 <= i < |d| - n :: d[n..][i] == d[n + i];
    var v := w[..n - |a|];
    assert d[..n] == a + v;
    if v != "" && v[|v| - 1] == '\n' {
      assert Chomp(a + v) == a + v[..|v| - 1];
    } else {
      assert Chomp(a + v) == a + v;
    }
  }

  lemma {:induction false} LineReaches(d: string, k: nat)
    requires 0 < k <= |d| && forall i | 0 <= i < k :: d[i] != '\n'
    ensures LineLen(d) >= k
    decreases |d|
  {
    if k > 1 {
      assert forall i | 0 <= i < k - 1 :: d[1..][i] == d[i + 1];
      assert d[0] != '\n';
      LineReaches(d[1..], k - 1);
    }
  }

  lemma {:induction false} LastLineTail(a: string, w: string, s: LineState, uq: Unquote)
    requires Trimmed(a) && NoBreak(a) && AllTail(w) && w != "" && Sections(a + w, s, uq).Ok?
    ensures Sections(a + "\n\n", s, uq).Ok?
    ensures Headers(Sections(a + "\n\n", s, uq).value.tables) == Headers(Sections(a + w, s, uq).value.tables)
  {
    hide LineLen, ScanLine, LooksLikeHeader, ParseHeader, Sections, Chomp;
    FirstLineTail(a, w);
    var n := LineLen(a + w);
    var v :| AllTail(v) && Chomp((a + w)[..n]) == a + v;
    StepOk(a + w, s, uq);
    ScanTail(a, v, s);
    LooksTail(a, v);
    var s' := ScanLine(a, s);
    OnlyTailScans((a + w)[n..], s', uq);
    var d := a + "\n\n";
    LineLenIs(d, |a| + 1);
    assert d[..|a| + 1] == a + "\n" && d[|a| + 1..] == "\n";
    assert Chomp(a + "\n") == a by { ChompLine(a); }
    BlankLineScans(uq);
    Unfold(d, s, uq);
    if s == Top && LooksLikeHeader(a) {
      TrimPadKeeps(a);
      TrimPadTail(a, v);
      HeaderTail(TrimPad(a), v, uq);
      Unfold(a + w, s, uq);
    } else {
      Unfold(a + w, s, uq);
    }
  }

  lemma ChompLine(a: string)
    ensures Chomp(a + "\n") == a
  {
  }

  lemma {:induction false} TrimPadKeeps(a: string)
    requires Trimmed(a)
    ensures Trimmed(TrimPad(a))
  {
    if IsPad(a[0]) {
      TrimPadKeeps(a[1..]);
    }
  }

  lemma LooksTail(a: string, v: string)
    requires Trimmed(a) && AllTail(v)
    ensures LooksLikeHeader(a + v) == LooksLikeHeader(a)
  {
    TrimPadKeeps(a);
    TrimPadTail(a, v);
  }

  /** The same line in front of two scans with the same headers keeps their headers the same. */
  lemma SameHeaders(line: string, line': string, h: Header, x: Scan, y: Scan)
    requires x.Ok? && y.Ok? && Headers(x.value.tables) == Headers(y.value.tables)
    ensures var a, b := WithLine(line, x), WithLine(line', y);
      a.Ok? && b.Ok? && Headers(a.value.tables) == Headers(b.value.tables)
    ensures var a, b := WithHeader(line, h, x), WithHeader(line', h, y);
      a.Ok? && b.Ok? && Headers(a.value.tables) == Headers(b.value.tables)
  {
    var a, b := WithHeader(line, h, x).value.tables, WithHeader(line', h, y).value.tables;
    assert Headers(a) == [h] + Headers(x.value.tables);
    assert Headers(b) == [h] + Headers(y.value.tables);
  }

  function HeaderOr(text: string, uq: Unquote): Header {
    match ParseHeader(TrimPad(text), uq)
    case None => Header([], false)
    case Some(h) => h
  }

  lemma {:induction false} TailRepad(a: string, w: string, s: LineState, uq: Unquote)
    requires Trimmed(a) && AllTail(w) && w != "" && Sections(a + w, s, uq).Ok?
    ensures Sections(a + "\n\n", s, uq).Ok?
    ensures Headers(Sections(a + "\n\n", s, uq).value.tables) == Headers(Sections(a + w, s, uq).value.tables)
    decreases |a|
  {
    if NoBreak(a) {
      LastLineTail(a, w, s, uq);
    } else {
      hide LineLen, ScanLine, LooksLikeHeader, ParseHeader, Sections, Chomp, WithLine, WithHeader, Headers, TrimPad;
      BreakInside(a);
      var n := LineLen(a);
      FirstInside(a, w);
      FirstInside(a, "\n\n");
      StepOk(a + w, s, uq);
      var s' := ScanLine(Chomp(a[..n]), s);
      TailRepad(a[n..], w, s', uq);
      SameHeaders(a[..n], a[..n], HeaderOr(Chomp(a[..n]), uq), Sections(a[n..] + "\n\n", s', uq), Sections(a[n..] + w, s', uq));
      Unfold(a + w, s, uq);
      Unfold(a + "\n\n", s, uq);
    }
  }

  lemma {:induction false} BreakInside(a: string)
    requires Trimmed(a) && !NoBreak(a)
    ensures LineLen(a) < |a| && Trimmed(a[LineLen(a)..])
  {
    if a[0] != '\n' {
      var i :| 0 <= i < |a| && a[i] == '\n';
      assert a[1..][i - 1] == '\n';
      BreakInside(a[1..]);
      assert a[1..][LineLen(a[1..])..] == a[LineLen(a)..];
    }
  }

  lemma {:induction false} FirstInside(a: string, b: string)
    requires a != "" && LineLen(a) < |a|
    ensures var n := LineLen(a);
      LineLen(a + b) == n && (a + b)[..n] == a[..n] && (a + b)[n..] == a[n..] + b
  {
    var n := LineLen(a);
    LineLenOfLine(a);
    LineLenPrefix(a[..n], a[n..] + b);
    assert a + b == a[..n] + (a[n..] + b);
  }

  lemma {:induction false} NoTrailing(a: string, s: LineState, uq: Unquote)
    requires Trimmed(a) && Sections(a, s, uq).Ok?
    ensures Sections(a + "\n", s, uq).Ok?
    ensures Headers(Sections(a + "\n", s, uq).value.tables) == Headers(Sections(a, s, uq).value.tables)
    decreases |a|
  {
    hide LineLen, ScanLine, LooksLikeHeader, ParseHeader, Sections, Chomp, WithLine, WithHeader, Headers, TrimPad;
    var n := LineLen(a);
    StepOk(a, s, uq);
    Unfold(a, s, uq);
    var later := a[n..];
    var later' := later;
    if NoBreak(a) {
      LineReaches(a, |a|);
      LineLenIs(a + "\n", |a| + 1);
      assert a[..|a|] == a && (a + "\n")[..|a| + 1] == a + "\n" && later == "" && (a + "\n")[|a| + 1..] == "";
      ChompLine(a);
      ChompTrimmed(a);
    } else {
      BreakInside(a);
      FirstInside(a, "\n");
      NoTrailing(a[n..], ScanLine(Chomp(a[..n]), s), uq);
      later' := later + "\n";
    }
    Unfold(a + "\n", s, uq);
    var s' := ScanLine(Chomp(a[..n]), s);
    SameHeaders((a + "\n")[..LineLen(a + "\n")], a[..n], HeaderOr(Chomp(a[..n]), uq),
                Sections(later', s', uq), Sections(later, s', uq));
  }

  lemma ChompTrimmed(a: string)
    requires Trimmed(a)
    ensures Chomp(a) == a
  {
  }

  /** For every document u that scans: its trimmed text followed by one blank line scans,
      with the same headers. */
  lemma RepadScans(u: string, uq: Unquote)
    requires Sections(u, Top, uq).Ok? && TrimTail(u) != ""
    ensures var v := TrimTail(u) + "\n\n";
      && Complete(v) && Sections(v, Top, uq).Ok?
      && Headers(Sections(v, Top, uq).value.tables) == Headers(Sections(u, Top, uq).value.tables)
  {
    hide Sections;
    var a := TrimTail(u);
    var w := u[|a|..];
    assert u == a + w;
    if w == "" {
      assert u == a;
      NoTrailing(a, Top, uq);
      TailRepad(a, "\n", Top, uq);
    } else {
      TailRepad(a, w, Top, uq);
    }
  }
}
