/** Rendering managed entries as TOML tables, appending them, and the whole Codex rewrite.
    Model of renderTOMLEntry and appendTOMLBlock in internal/agent/harness/tomledit.go and
    of rewriteCodex in internal/agent/harness/writer.go. */
module CodexRewrite {
  import opened Prelude
  import opened TomlScan
  import opened TomlCut
  import opened TomlRemove
  import opened TomlRender

  // ---- Blocks -------------------------------------------------------------

  /** One rendered table: its path and its key/value lines. */
  datatype Block = Block(path: seq<string>, lines: seq<string>)

  function Lines(ts: seq<string>): string {
    if ts == [] then "" else ts[0] + "\n" + Lines(ts[1..])
  }

  function Show(b: Block): string {
    Lines([HeaderLine(b.path)] + b.lines)
  }

  function Shows(bs: seq<Block>): seq<string> {
    if bs == [] then [] else [Show(bs[0])] + Shows(bs[1..])
  }

  function PairLines(pairs: Pairs): (r: seq<string>)
    ensures |r| == |pairs|
  {
    if pairs == [] then [] else [PairLine(pairs[0].0, pairs[0].1)] + PairLines(pairs[1..])
  }

  function MainLines(e: Entry): seq<string> {
    if e.transport == "http" then [PairLine("url", e.url)]
    else [PairLine("command", e.command)] + if e.args == [] then [] else [ArgsLine(e.args)]
  }

  function SubBlock(path: seq<string>, name: string, pairs: Pairs): seq<Block> {
    if pairs == [] then [] else [Block(path + [name], PairLines(pairs))]
  }

  /** The tables an entry is rendered as. */
  function Blocks(prefix: seq<string>, e: Entry): (bs: seq<Block>)
    ensures bs != []
  {
    var path := prefix + [e.name];
    [Block(path, MainLines(e))] + SubBlock(path, "http_headers", e.headers) + SubBlock(path, "env", e.env)
  }

  /** An invalid entry is refused; a valid one becomes its tables, a blank line between them. */
  function RenderEntry(prefix: seq<string>, e: Entry): Option<string> {
    if ValidEntry(e) then Some(Join(Shows(Blocks(prefix, e)), "\n")) else None
  }

  lemma {:induction false} LinesAppend(a: seq<string>, b: seq<string>)
    ensures Lines(a + b) == Lines(a) + Lines(b)
  {
    if a == [] {
      assert a + b == b;
    } else {
      assert (a + b)[1..] == a[1..] + b;
      LinesAppend(a[1..], b);
    }
  }

  lemma LinesOne(t: string)
    ensures Lines([t]) == t + "\n"
  {
    assert Lines([t]) == t + "\n" + Lines([]);
  }

  lemma {:induction false} JoinAppend(a: seq<string>, b: seq<string>, sep: string)
    requires a != [] && b != []
    ensures Join(a + b, sep) == Join(a, sep) + sep + Join(b, sep)
  {
    assert (a + b)[1..] == a[1..] + b;
    if |a| > 1 {
      JoinAppend(a[1..], b, sep);
    } else {
      assert a[1..] + b == b;
    }
  }

  lemma {:induction false} ShowsAppend(a: seq<Block>, b: seq<Block>)
    ensures Shows(a + b) == Shows(a) + Shows(b)
  {
    if a == [] {
      assert a + b == b;
    } else {
      assert (a + b)[1..] == a[1..] + b;
      ShowsAppend(a[1..], b);
    }
  }

  lemma ShowBlock(b: Block)
    ensures Show(b) == HeaderLine(b.path) + "\n" + Lines(b.lines)
  {
    LinesAppend([HeaderLine(b.path)], b.lines);
    LinesOne(HeaderLine(b.path));
  }

  // ---- renderTOMLEntry ----------------------------------------------------

  /** writeTOMLPairs: one line a pair, in the order given. */
  method WritePairs(pairs: Pairs) returns (b: string)
    ensures b == Lines(PairLines(pairs))
  {
    hide PairLine, PairLines, Lines;
    b := "";
    for i := 0 to |pairs|
      invariant b + Lines(PairLines(pairs[i..])) == Lines(PairLines(pairs))
    {
      PairsStep(b, pairs, i);
      var key := pairs[i].0;
      if !IsBareKey(key) {
        key := QuoteLoop(key);
      }
      var value := QuoteLoop(pairs[i].1);
      var line := key + " = " + value;
      assert line == PairLine(pairs[i].0, pairs[i].1) by { PairLineIs(pairs[i].0, pairs[i].1); }
      b := b + (line + "\n");
    }
    NoPairs(pairs);
  }

  lemma PairsStep(b: string, pairs: Pairs, i: nat)
    requires i < |pairs|
    ensures b + Lines(PairLines(pairs[i..]))
         == b + (PairLine(pairs[i].0, pairs[i].1) + "\n") + Lines(PairLines(pairs[i + 1..]))
  {
    hide PairLine;
    assert pairs[i..][1..] == pairs[i + 1..];
  }

  lemma NoPairs(pairs: Pairs)
    ensures Lines(PairLines(pairs[|pairs|..])) == ""
  {
  }

  lemma PairLineIs(k: string, v: string)
    ensures PairLine(k, v) == (if IsBareKey(k) then k else Quote(k)) + " = " + Quote(v)
  {
  }

  method WriteArgs(args: seq<string>) returns (b: string)
    ensures b == ArgsLine(args)
  {
    hide Quote;
    var quoted := [];
    for i := 0 to |args|
      invariant quoted == Quoted(args[..i])
    {
      var q := QuoteLoop(args[i]);
      assert Quoted(args[..i + 1]) == Quoted(args[..i]) + [q];
      quoted := quoted + [q];
    }
    assert args[..|args|] == args;
    b := "args = [" + Join(quoted, ", ") + "]";
  }

  method RenderEntryLoop(prefix: seq<string>, e: Entry) returns (r: Option<string>)
    requires prefix != []
    ensures r == RenderEntry(prefix, e)
  {
    hide ValidEntry, PairLine, ArgsLine, HeaderLine, Quote, PairLines;
    if !ValidEntry(e) {
      return None;
    }
    var path := prefix + [e.name];
    var b := HeaderLine(path) + "\n";
    ghost var main := Block(path, MainLines(e));
    if e.transport == "http" {
      var url := QuoteLoop(e.url);
      b := b + "url = " + url + "\n";
      assert PairLine("url", e.url) == "url = " + url by { PairLineIs("url", e.url); }
      LinesOne("url = " + url);
    } else {
      var command := QuoteLoop(e.command);
      b := b + "command = " + command + "\n";
      assert PairLine("command", e.command) == "command = " + command by { PairLineIs("command", e.command); }
      LinesOne("command = " + command);
      if e.args != [] {
        var args := WriteArgs(e.args);
        b := b + args + "\n";
        LinesOne(args);
        LinesAppend(["command = " + command], [args]);
      }
    }
    ShowBlock(main);
    assert b == Show(main);
    ghost var bs := [main];
    assert Join(Shows(bs), "\n") == b by { assert Shows(bs) == [Show(main)] + Shows([]); }
    if e.headers != [] {
      var pairs := WritePairs(e.headers);
      OneMore(bs, Block(path + ["http_headers"], PairLines(e.headers)));
      bs := bs + [Block(path + ["http_headers"], PairLines(e.headers))];
      b := b + "\n" + (HeaderLine(path + ["http_headers"]) + "\n" + pairs);
    }
    assert bs == [main] + SubBlock(path, "http_headers", e.headers);
    if e.env != [] {
      var pairs := WritePairs(e.env);
      OneMore(bs, Block(path + ["env"], PairLines(e.env)));
      bs := bs + [Block(path + ["env"], PairLines(e.env))];
      b := b + "\n" + (HeaderLine(path + ["env"]) + "\n" + pairs);
    }
    assert bs == Blocks(prefix, e);
    r := Some(b);
  }

  lemma OneMore(bs: seq<Block>, b: Block)
    requires bs != []
    ensures Join(Shows(bs + [b]), "\n")
         == Join(Shows(bs), "\n") + "\n" + (HeaderLine(b.path) + "\n" + Lines(b.lines))
  {
    hide HeaderLine, Show, Lines;
    ShowsAppend(bs, [b]);
    assert Shows([b]) == [Show(b)] + Shows([]) == [Show(b)];
    JoinAppend(Shows(bs), [Show(b)], "\n");
    assert Join([Show(b)], "\n") == Show(b);
    ShowBlock(b);
  }

  // ---- A rendered block, scanned ------------------------------------------

  /** What every rendered block is: a bare path and at least one neutral line. */
  ghost predicate GoodBlock(b: Block) {
    BarePath(b.path) && b.lines != [] && forall i | 0 <= i < |b.lines| :: Neutral(b.lines[i])
  }

  ghost predicate GoodBlocks(bs: seq<Block>) {
    forall i | 0 <= i < |bs| :: GoodBlock(bs[i])
  }

  lemma {:induction false} PairLinesGood(pairs: Pairs)
    ensures forall i | 0 <= i < |pairs| :: Neutral(PairLines(pairs)[i])
  {
    hide Neutral;
    if pairs != [] {
      PairNeutral(pairs[0].0, pairs[0].1);
      PairLinesGood(pairs[1..]);
    }
  }

  lemma SubBlockGood(path: seq<string>, name: string, pairs: Pairs)
    requires BarePath(path) && IsBareKey(name)
    ensures GoodBlocks(SubBlock(path, name, pairs))
    ensures forall i | 0 <= i < |SubBlock(path, name, pairs)| :: path <= SubBlock(path, name, pairs)[i].path
  {
    hide Neutral, IsBareKey;
    PairLinesGood(pairs);
  }

  lemma MainBlockGood(path: seq<string>, e: Entry)
    requires BarePath(path)
    ensures GoodBlock(Block(path, MainLines(e)))
  {
    hide Neutral, PairLine, ArgsLine;
    PairNeutral("url", e.url);
    PairNeutral("command", e.command);
    ArgsNeutral(e.args);
  }

  lemma BlocksGood(prefix: seq<string>, e: Entry)
    requires BarePath(prefix) && ValidEntry(e)
    ensures GoodBlocks(Blocks(prefix, e))
    ensures forall i | 0 <= i < |Blocks(prefix, e)| :: prefix + [e.name] <= Blocks(prefix, e)[i].path
  {
    hide GoodBlock, SubBlock, MainLines;
    var path := prefix + [e.name];
    assert BarePath(path);
    MainBlockGood(path, e);
    SubBlockGood(path, "http_headers", e.headers);
    SubBlockGood(path, "env", e.env);
  }

  lemma LinesOfText(text: string, rest: string)
    requires NoBreak(text)
    ensures var d := text + "\n" + rest;
      LineLen(d) == |text| + 1 && Chomp(d[..|text| + 1]) == text && d[|text| + 1..] == rest
  {
    var d := text + "\n" + rest;
    assert forall j | 0 <= j < |text| :: d[j] == text[j];
    LineLenIs(d, |text| + 1);
    assert d[..|text| + 1] == text + "\n";
  }

  lemma OneLine(text: string, uq: Unquote)
    requires Neutral(text)
    ensures Quiet(text + "\n", Top, uq)
  {
    var line := text + "\n";
    hide ScanLine, LooksLikeHeader, LineLen;
    LineLenIs(line, |line|);
    assert line[..|line|] == line && Chomp(line) == text && line[|line|..] == "";
    Unfold(line, Top, uq);
    assert line + "" == line;
  }

  lemma {:induction false} LinesQuiet(ts: seq<string>, uq: Unquote)
    requires forall i | 0 <= i < |ts| :: Neutral(ts[i])
    ensures Quiet(Lines(ts), Top, uq) && Complete(Lines(ts))
  {
    hide Neutral;
    if ts == [] {
      EmptyQuiet(uq);
    } else {
      hide Sections;
      OneLine(ts[0], uq);
      LinesQuiet(ts[1..], uq);
      Compose(ts[0] + "\n", Lines(ts[1..]), Top, uq);
    }
  }

  /** A rendered block scans as exactly one table, with the path it was rendered from. */
  lemma {:induction false} BlockScans(b: Block, uq: Unquote)
    requires GoodBlock(b)
    ensures Sections(Show(b), Top, uq) == Ok(Layout("", [Table(Header(b.path, false), Show(b))]))
    ensures Complete(Show(b))
  {
    hide Neutral, ScanLine, LooksLikeHeader, LineLen, ParseHeader, HeaderLine;
    var h := HeaderLine(b.path);
    var line := h + "\n";
    HeaderLineNeutral(b.path);
    HeaderReadsBack(b.path, uq);
    ShowBlock(b);
    LinesQuiet(b.lines, uq);
    LineLenIs(line, |line|);
    LineLenPrefix(line, Lines(b.lines));
    assert Show(b)[..|line|] == line && Show(b)[|line|..] == Lines(b.lines) && Chomp(line) == h;
    assert h != "" && TrimPad(h) == h by { assert h[0] == '[' by { HeaderStarts(b.path); } }
    Unfold(Show(b), Top, uq);
    var t := Table(Header(b.path, false), Show(b));
    assert [t] + [] == [t];
  }

  lemma HeaderStarts(path: seq<string>)
    ensures HeaderLine(path) != "" && HeaderLine(path)[0] == '['
  {
  }

  /** A rendered block's span is the whole block: its last line is neither blank nor a comment. */
  lemma {:induction false} BlockCore(b: Block)
    requires GoodBlock(b)
    ensures var s := Show(b);
      && |s| > 1 && s[|s| - 1] == '\n' && !IsTail(s[|s| - 2])
      && CoreLen(s) == |s| && CoreLen(s + "\n") == |s|
  {
    hide ScanLine, LooksLikeHeader, Attached, HeaderLine;
    var s, n := Show(b), |b.lines| - 1;
    var last := b.lines[n];
    assert Neutral(last);
    var front := Lines([HeaderLine(b.path)] + b.lines[..n]);
    LinesOne(last);
    LinesAppend([HeaderLine(b.path)] + b.lines[..n], [last]);
    assert [HeaderLine(b.path)] + b.lines == [HeaderLine(b.path)] + b.lines[..n] + [last];
    assert s == front + (last + "\n");
    FrontComplete([HeaderLine(b.path)] + b.lines[..n]);
    LastLine(front, last);
    LastLineBlank(s);
  }

  lemma {:induction false} FrontComplete(ts: seq<string>)
    requires ts != []
    ensures Lines(ts) != "" && Complete(Lines(ts))
  {
    if |ts| > 1 {
      FrontComplete(ts[1..]);
    } else {
      LinesOne(ts[0]);
      assert ts == [ts[0]];
    }
  }

  lemma LineStartIs(src: string, k: nat, i: nat)
    requires k <= i <= |src| && (k == 0 || src[k - 1] == '\n') && forall j | k <= j < i :: src[j] != '\n'
    ensures LineStart(src, i) == k
  {
    if k < i {
      LineStartIs(src, k, i - 1);
    }
  }

  lemma LastLine(front: string, last: string)
    requires front != "" && Complete(front) && last != "" && NoBreak(last) && !Attached(last)
    ensures CoreLen(front + (last + "\n")) == |front + (last + "\n")|
  {
    hide Attached;
    var s := front + (last + "\n");
    assert forall j | |front| <= j < |s| - 1 :: s[j] == last[j - |front|];
    LineStartIs(s, |front|, |s| - 1);
    assert s[|front|..|s|] == last + "\n";
    NotAttachedLine(last);
  }

  lemma {:induction false} NotAttachedLine(t: string)
    requires !Attached(t)
    ensures !Attached(t + "\n")
  {
    if IsSpace(t[0]) {
      assert (t + "\n")[1..] == t[1..] + "\n";
      NotAttachedLine(t[1..]);
    }
  }

  /** A last line that is attached is no part of the span. */
  lemma LastAttached(front: string, last: string)
    requires front != "" && Complete(front) && NoBreak(last) && Attached(last + "\n")
    ensures CoreLen(front + (last + "\n")) == CoreLen(front)
  {
    hide Attached, LineStart;
    var line := last + "\n";
    var s, k := front + line, |front|;
    assert forall j | k <= j < |s| - 1 :: s[j] == last[j - k];
    LineStartIs(s, k, |s| - 1);
    assert s[k..|s|] == line;
    assert s[0..k] == front;
    TrimAttachedShift(s, 0, k, k);
  }

  lemma LastLineBlank(s: string)
    requires s != "" && s[|s| - 1] == '\n' && CoreLen(s) == |s|
    ensures CoreLen(s + "\n") == |s|
  {
    assert "" + "\n" == "\n" && Attached("\n");
    LastAttached(s, "");
  }
}
