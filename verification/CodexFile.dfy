/** The Codex rewrite of a whole document, and that doing it twice is doing it once.
    Model of rewriteCodex and managedNames in internal/agent/harness/writer.go. */
module CodexFile {
  import opened Prelude
  import opened TomlScan
  import opened TomlCut
  import opened TomlRemove
  import opened TomlRender
  import opened TomlTail
  import opened CodexRewrite

  const CONTAINER := "mcp_servers"

  datatype RewriteError = Malformed(why: ScanError) | BadEntry

  function TrimBreaks(s: string): string {
    if s != "" && s[|s| - 1] == '\n' then TrimBreaks(s[..|s| - 1]) else s
  }

  /** The document before a block: trimmed, with exactly one blank line after it. */
  function Separated(src: string): string {
    var body := TrimTail(src);
    if body == "" then "" else body + "\n\n"
  }

  function AppendBlock(src: string, block: string): string {
    Separated(src) + TrimBreaks(block) + "\n"
  }

  function AppendAll(src: string, entries: seq<Entry>): Option<string>
    decreases |entries|
  {
    if entries == [] then Some(src)
    else
      match RenderEntry([CONTAINER], entries[0])
      case None => None
      case Some(block) => AppendAll(AppendBlock(src, block), entries[1..])
  }

  function IsManaged(managed: seq<string>): Match {
    (key: seq<string>) => |key| >= 2 && key[0] == CONTAINER && key[1] in managed
  }

  function Rewrite(before: string, entries: seq<Entry>, managed: seq<string>, uq: Unquote): Result<string, RewriteError> {
    match Sections(before, Top, uq)
    case Err(e) => Err(Malformed(e))
    case Ok(l) =>
      match AppendAll(Cut(l, IsManaged(managed)), entries)
      case None => Err(BadEntry)
      case Some(out) => Ok(if Blank(out) then "" else out)
  }

  /** rewriteCodex: scan, cut, then render and append entry by entry. */
  method RewriteCodex(before: string, entries: seq<Entry>, managed: seq<string>, uq: Unquote)
    returns (r: Result<string, RewriteError>)
    ensures r == Rewrite(before, entries, managed, uq)
  {
    hide Sections, Cut, RenderEntry, AppendBlock, Blank;
    var spans := ScanTables(before, uq);
    if spans.Err? {
      return Err(Malformed(spans.error));
    }
    ghost var l := Sections(before, Top, uq).value;
    ScanIsScanned(before, uq);
    var out, _ := RemoveTables(before, spans.value, IsManaged(managed), l);
    ghost var all := AppendAll(out, entries);
    assert entries[0..] == entries;
    for i := 0 to |entries|
      invariant AppendAll(out, entries[i..]) == all
    {
      assert entries[i..][1..] == entries[i + 1..];
      var block := RenderEntryLoop([CONTAINER], entries[i]);
      if block.None? {
        return Err(BadEntry);
      }
      out := AppendBlock(out, block.value);
    }
    r := Ok(if Blank(out) then "" else out);
  }

  // ---- The appended blocks ------------------------------------------------

  function AllBlocks(entries: seq<Entry>): seq<Block> {
    if entries == [] then [] else Blocks([CONTAINER], entries[0]) + AllBlocks(entries[1..])
  }

  function Rendered(bs: seq<Block>): string {
    Join(Shows(bs), "\n")
  }

  /** Rendered text ends in exactly one line break, after a character no trimming takes. */
  ghost predicate EndsCleanly(s: string) {
    |s| > 1 && s[|s| - 1] == '\n' && !IsTail(s[|s| - 2])
  }

  lemma RenderedOne(b: Block)
    ensures Rendered([b]) == Show(b)
  {
    hide Show;
    assert Shows([b]) == [Show(b)] + Shows([]) == [Show(b)];
  }

  lemma {:induction false} RenderedEnds(bs: seq<Block>)
    requires bs != [] && GoodBlocks(bs)
    ensures EndsCleanly(Rendered(bs))
  {
    hide Show, GoodBlock;
    BlockCore(bs[0]);
    if |bs| > 1 {
      assert GoodBlocks(bs[1..]);
      RenderedEnds(bs[1..]);
      assert Rendered(bs) == Show(bs[0]) + "\n" + Rendered(bs[1..]);
    } else {
      RenderedOne(bs[0]);
      assert bs == [bs[0]];
    }
  }

  lemma TrimsClean(s: string)
    requires EndsCleanly(s)
    ensures TrimBreaks(s) + "\n" == s
  {
    var t := s[..|s| - 1];
    assert TrimBreaks(t) == t;
  }

  lemma TrimTailClean(front: string, s: string)
    requires EndsCleanly(s)
    ensures TrimTail(front + s) != "" && Separated(front + s) == front + s + "\n"
  {
    var a := front + s[..|s| - 1];
    TrimTailUnique(a, "\n");
    assert a + "\n" == front + s;
    assert a + "\n\n" == front + s + "\n";
  }

  /** Appending one more rendered group after others joins them with a blank line. */
  lemma AppendOne(front: string, done: seq<Block>, bs: seq<Block>)
    requires done != [] && GoodBlocks(done) && bs != [] && GoodBlocks(bs)
    ensures AppendBlock(front + Rendered(done), Rendered(bs)) == front + Rendered(done + bs)
  {
    hide GoodBlock, Separated, Show, TrimBreaks;
    RenderedEnds(done);
    RenderedEnds(bs);
    TrimsClean(Rendered(bs));
    TrimTailClean(front, Rendered(done));
    hide EndsCleanly;
    ShowsAppend(done, bs);
    JoinAppend(Shows(done), Shows(bs), "\n");
    Regroup(front, Rendered(done), TrimBreaks(Rendered(bs)));
  }

  lemma Regroup(a: string, b: string, c: string)
    ensures a + b + "\n" + c + "\n" == a + (b + "\n" + (c + "\n"))
  {
  }

  lemma {:induction false} AppendAfter(front: string, done: seq<Block>, entries: seq<Entry>)
    requires done != [] && GoodBlocks(done)
    requires forall i | 0 <= i < |entries| :: ValidEntry(entries[i])
    ensures AppendAll(front + Rendered(done), entries) == Some(front + Rendered(done + AllBlocks(entries)))
    decreases |entries|
  {
    hide ValidEntry, GoodBlock, Blocks, AppendBlock, Rendered, RenderEntry;
    if entries == [] {
      assert done + [] == done;
    } else {
      var bs := Blocks([CONTAINER], entries[0]);
      BlocksGood([CONTAINER], entries[0]);
      AppendOne(front, done, bs);
      AppendAfter(front, done + bs, entries[1..]);
      RenderedIs(entries[0]);
      assert done + bs + AllBlocks(entries[1..]) == done + AllBlocks(entries);
    }
  }

  lemma RenderedIs(e: Entry)
    requires ValidEntry(e)
    ensures RenderEntry([CONTAINER], e) == Some(Rendered(Blocks([CONTAINER], e)))
  {
    hide ValidEntry, Blocks;
  }

  lemma {:induction false} AllValid(src: string, entries: seq<Entry>)
    requires AppendAll(src, entries).Some?
    ensures forall i | 0 <= i < |entries| :: ValidEntry(entries[i])
    decreases |entries|
  {
    hide ValidEntry;
    if entries != [] {
      AllValid(AppendBlock(src, RenderEntry([CONTAINER], entries[0]).value), entries[1..]);
      assert forall i | 1 <= i < |entries| :: entries[i] == entries[1..][i - 1];
    }
  }

  /** Appending entry by entry gives the trimmed document, one blank line, and all rendered
      tables separated by blank lines. */
  lemma AppendAllIs(src: string, entries: seq<Entry>)
    requires entries != [] && AppendAll(src, entries).Some?
    ensures AllBlocks(entries) != []
    ensures AppendAll(src, entries) == Some(Separated(src) + Rendered(AllBlocks(entries)))
  {
    hide ValidEntry, GoodBlock, Blocks;
    AllValid(src, entries);
    var bs := Blocks([CONTAINER], entries[0]);
    BlocksGood([CONTAINER], entries[0]);
    RenderedEnds(bs);
    TrimsClean(Rendered(bs));
    assert AppendBlock(src, Rendered(bs)) == Separated(src) + (TrimBreaks(Rendered(bs)) + "\n");
    AppendAfter(Separated(src), bs, entries[1..]);
  }

  ghost predicate OwnBlocks(bs: seq<Block>, managed: seq<string>) {
    && GoodBlocks(bs)
    && forall i | 0 <= i < |bs| :: IsManaged(managed)(bs[i].path)
  }

  lemma {:induction false} BlocksOwned(entries: seq<Entry>, managed: seq<string>)
    requires forall i | 0 <= i < |entries| :: ValidEntry(entries[i]) && entries[i].name in managed
    ensures OwnBlocks(AllBlocks(entries), managed)
  {
    hide ValidEntry, GoodBlock, Blocks;
    if entries != [] {
      var bs := Blocks([CONTAINER], entries[0]);
      var path := [CONTAINER] + [entries[0].name];
      BlocksGood([CONTAINER], entries[0]);
      BlocksOwned(entries[1..], managed);
      forall i | 0 <= i < |bs|
        ensures IsManaged(managed)(bs[i].path)
      {
        assert path <= bs[i].path && bs[i].path[1] == path[1];
      }
    }
  }

  // ---- The rewritten document, scanned ------------------------------------

  function BlockTables(bs: seq<Block>): seq<Table> {
    if bs == [] then []
    else [Table(Header(bs[0].path, false), Show(bs[0]) + if |bs| == 1 then "" else "\n")] + BlockTables(bs[1..])
  }

  /** Rendered blocks scan as exactly their tables. */
  lemma {:induction false} RenderedScans(bs: seq<Block>, uq: Unquote)
    requires bs != [] && GoodBlocks(bs)
    ensures Sections(Rendered(bs), Top, uq) == Ok(Layout("", BlockTables(bs)))
  {
    hide Sections, Show, GoodBlock;
    var s := Show(bs[0]);
    var t := Table(Header(bs[0].path, false), s);
    BlockScans(bs[0], uq);
    assert s + "" == s;
    if |bs| == 1 {
      RenderedOne(bs[0]);
      assert bs == [bs[0]];
      assert BlockTables(bs) == [t] + [] == [t];
    } else {
      BlankLineScans(uq);
      Compose(s, "\n", Top, uq);
      var t' := Table(t.header, s + "\n");
      assert [t][..0] + [t'] + [] == [t'];
      assert GoodBlocks(bs[1..]);
      RenderedScans(bs[1..], uq);
      Compose(s + "\n", Rendered(bs[1..]), Top, uq);
      assert Rendered(bs) == s + "\n" + Rendered(bs[1..]);
      assert t'.text + "" == t'.text;
      assert [t'][..0] + [t'] + BlockTables(bs[1..]) == BlockTables(bs);
    }
  }

  lemma {:induction false} TablesOfBlocks(bs: seq<Block>, i: nat)
    requires GoodBlocks(bs) && i < |bs|
    ensures |BlockTables(bs)| == |bs|
    ensures BlockTables(bs)[i].header == Header(bs[i].path, false)
    ensures Tail(BlockTables(bs)[i]) == (if i == |bs| - 1 then "" else "\n")
    decreases |bs|
  {
    hide Show, GoodBlock, CoreLen;
    BlockCore(bs[0]);
    assert GoodBlocks(bs[1..]);
    if i > 0 {
      TablesOfBlocks(bs[1..], i - 1);
    } else {
      assert Show(bs[0]) + "" == Show(bs[0]);
      if |bs| > 1 {
        TablesOfBlocks(bs[1..], 0);
      }
    }
  }

  lemma {:induction false} KeepAll(ts: seq<Table>, us: seq<Table>, m: Match, k: nat)
    requires k <= |ts| && forall i | 0 <= i < |ts| :: !m(ts[i].header.key)
    ensures CutTo(ts + us, m, k) == Text(ts[..k])
  {
    if k > 0 {
      KeepAll(ts, us, m, k - 1);
      assert ts[..k] == ts[..k - 1] + [ts[k - 1]];
      TextAppend(ts[..k - 1], [ts[k - 1]]);
      assert Text([ts[k - 1]]) == ts[k - 1].text + Text([]);
    }
  }

  lemma DropOne(ts: seq<Table>, us: seq<Table>, m: Match, i: nat)
    requires i < |us| && forall j | 0 <= j < |us| :: m(us[j].header.key)
    requires Tail(us[i]) == if i == |us| - 1 then "" else "\n"
    ensures Piece(ts + us, m, |ts| + i) == ""
  {
    hide Tail;
    var all, k := ts + us, |ts| + i;
    assert all[k] == us[i] && (i + 1 < |us| ==> all[k + 1] == us[i + 1]);
  }

  lemma {:induction false} DropAll(ts: seq<Table>, us: seq<Table>, m: Match, k: nat)
    requires k <= |us| && forall i | 0 <= i < |us| :: m(us[i].header.key)
    requires forall i | 0 <= i < |us| :: Tail(us[i]) == if i == |us| - 1 then "" else "\n"
    ensures CutTo(ts + us, m, |ts| + k) == CutTo(ts + us, m, |ts|)
  {
    hide Tail, Piece;
    if k > 0 {
      DropAll(ts, us, m, k - 1);
      DropOne(ts, us, m, k - 1);
    }
  }

  lemma {:induction false} UnmanagedOnly(ts: seq<Table>, m: Match)
    ensures forall i | 0 <= i < |Unmanaged(ts, m)| :: !m(Unmanaged(ts, m)[i].key)
  {
    if ts != [] {
      UnmanagedOnly(ts[..|ts| - 1], m);
    }
  }

  /** A document without managed tables, with rendered blocks after it: the layouts join, and
      cutting takes off exactly the blocks. */
  lemma CutTakesBlocks(v: string, bs: seq<Block>, managed: seq<string>, uq: Unquote)
    requires bs != [] && OwnBlocks(bs, managed)
    requires Complete(v) && Sections(v, Top, uq).Ok?
    requires var ts := Sections(v, Top, uq).value.tables;
      forall i | 0 <= i < |ts| :: !IsManaged(managed)(ts[i].header.key)
    ensures Sections(v + Rendered(bs), Top, uq)
         == Ok(Layout(Sections(v, Top, uq).value.pre, Sections(v, Top, uq).value.tables + BlockTables(bs)))
    ensures Cut(Sections(v + Rendered(bs), Top, uq).value, IsManaged(managed)) == v
  {
    hide Sections, IsManaged, GoodBlock, CutTo, Then, BlockTables, Text, Rendered;
    var l, m, us := Sections(v, Top, uq).value, IsManaged(managed), BlockTables(bs);
    RenderedScans(bs, uq);
    Compose(v, Rendered(bs), Top, uq);
    ThenBlocks(l, us);
    BlocksManaged(bs, managed);
    KeepAll(l.tables, us, m, |l.tables|);
    DropAll(l.tables, us, m, |us|);
    assert l.tables[..|l.tables|] == l.tables;
    SectionsText(v, Top, uq);
  }

  lemma BlocksManaged(bs: seq<Block>, managed: seq<string>)
    requires OwnBlocks(bs, managed)
    ensures var us := BlockTables(bs);
      forall i | 0 <= i < |us| ::
        IsManaged(managed)(us[i].header.key) && Tail(us[i]) == if i == |us| - 1 then "" else "\n"
  {
    hide IsManaged, GoodBlock, Tail, Show;
    var us := BlockTables(bs);
    assert |us| == |bs| by { if bs != [] { TablesOfBlocks(bs, 0); } }
    forall i | 0 <= i < |us|
      ensures IsManaged(managed)(us[i].header.key) && Tail(us[i]) == if i == |us| - 1 then "" else "\n"
    {
      TablesOfBlocks(bs, i);
      assert IsManaged(managed)(bs[i].path);
    }
  }

  lemma ThenBlocks(l: Layout, us: seq<Table>)
    ensures Then(l, Layout("", us)) == Layout(l.pre, l.tables + us)
  {
    if l.tables == [] {
      assert l.pre + "" == l.pre && l.tables + us == us;
    } else {
      var n := |l.tables| - 1;
      assert l.tables[n].text + "" == l.tables[n].text;
      assert l.tables[..n] + [l.tables[n]] + us == l.tables + us;
    }
  }

  function RenderedHeaders(bs: seq<Block>): seq<Header> {
    seq(|bs|, i requires 0 <= i < |bs| => Header(bs[i].path, false))
  }

  /** Separated(u) scans like u, and separating again changes nothing. */
  lemma SeparatedScans(u: string, uq: Unquote)
    requires Sections(u, Top, uq).Ok?
    ensures var v := Separated(u);
      && Complete(v) && Sections(v, Top, uq).Ok?
      && Headers(Sections(v, Top, uq).value.tables) == Headers(Sections(u, Top, uq).value.tables)
      && Separated(v) == v
  {
    var body := TrimTail(u);
    if body == "" {
      OnlyTailScans(u, Top, uq);
      EmptyQuiet(uq);
    } else {
      hide Sections;
      RepadScans(u, uq);
      TrimTailUnique(body, "\n\n");
    }
  }

  lemma HeadersMatch(ts: seq<Table>, ts0: seq<Table>, m: Match)
    requires Headers(ts) == Unmanaged(ts0, m)
    ensures forall i | 0 <= i < |ts| :: !m(ts[i].header.key)
  {
    UnmanagedOnly(ts0, m);
    forall i | 0 <= i < |ts|
      ensures !m(ts[i].header.key)
    {
      assert ts[i].header == Headers(ts)[i];
    }
  }

  /** What a successful rewrite leaves behind: its headers are the unmanaged ones of the
      original in their old order, then exactly the rendered ones. */
  lemma RewriteHeaders(before: string, entries: seq<Entry>, managed: seq<string>, uq: Unquote)
    requires forall i | 0 <= i < |entries| :: entries[i].name in managed
    requires Rewrite(before, entries, managed, uq).Ok?
    ensures var out := Rewrite(before, entries, managed, uq).value;
      var m := IsManaged(managed);
      && Sections(before, Top, uq).Ok? && Sections(out, Top, uq).Ok?
      && Headers(Sections(out, Top, uq).value.tables)
         == Unmanaged(Sections(before, Top, uq).value.tables, m) + RenderedHeaders(AllBlocks(entries))
  {
    hide Sections, IsManaged, ValidEntry, OwnBlocks, Headers, Unmanaged, Cut, Show;
    var out, l, m := Rewrite(before, entries, managed, uq).value, Sections(before, Top, uq).value, IsManaged(managed);
    var u := Cut(l, m);
    CutAll(before, m, uq);
    if entries == [] {
      NoBlocks(Unmanaged(l.tables, m));
      BlankScans(u, uq);
    } else {
      AppendAllIs(u, entries);
      AllValid(u, entries);
      BlocksOwned(entries, managed);
      var bs := AllBlocks(entries);
      SeparatedScans(u, uq);
      var v := Separated(u);
      HeadersMatch(Sections(v, Top, uq).value.tables, l.tables, m);
      CutTakesBlocks(v, bs, managed, uq) by { assert OwnBlocks(bs, managed); }
      NotBlankRendered(v, bs, managed);
      HeadersOfBlocks(Sections(v, Top, uq).value.tables, bs, managed);
    }
  }

  lemma CutAll(before: string, m: Match, uq: Unquote)
    requires Sections(before, Top, uq).Ok?
    ensures var l := Sections(before, Top, uq).value;
      && Sections(Cut(l, m), Top, uq).Ok?
      && Headers(Sections(Cut(l, m), Top, uq).value.tables) == Unmanaged(l.tables, m)
  {
    hide Sections, Headers, Unmanaged;
    var l := Sections(before, Top, uq).value;
    CutRescans(before, m, |l.tables|, uq);
    assert l.tables[..|l.tables|] == l.tables;
  }

  lemma NoBlocks(hs: seq<Header>)
    ensures hs + RenderedHeaders(AllBlocks([])) == hs
  {
  }

  /** A blank document scans to no headers, as does the empty one. */
  lemma BlankScans(u: string, uq: Unquote)
    requires Sections(u, Top, uq).Ok?
    ensures Sections("", Top, uq) == Ok(Layout("", []))
    ensures Blank(u) ==> Headers(Sections(u, Top, uq).value.tables) == Headers(Sections("", Top, uq).value.tables)
  {
    EmptyQuiet(uq);
    if Blank(u) {
      hide Sections;
      var l := Sections(u, Top, uq).value;
      ScanIsScanned(u, uq);
      if l.tables != [] {
        assert Text(l.tables) == l.tables[0].text + Text(l.tables[1..]);
        assert u == l.pre + l.tables[0].text + Text(l.tables[1..]);
        PartBlank(l.pre, l.tables[0].text, Text(l.tables[1..]));
        assert false;
      }
    }
  }

  lemma PartBlank(a: string, b: string, c: string)
    requires Blank(a + b + c)
    ensures Blank(b)
  {
    assert forall i | 0 <= i < |b| :: b[i] == (a + b + c)[|a| + i];
  }

  lemma NotBlankRendered(v: string, bs: seq<Block>, managed: seq<string>)
    requires bs != [] && OwnBlocks(bs, managed)
    ensures !Blank(v + Rendered(bs))
  {
    RenderedStarts(bs);
    var s := Rendered(bs);
    assert (v + s)[|v|] == s[0];
  }

  lemma RenderedStarts(bs: seq<Block>)
    requires bs != []
    ensures Rendered(bs) != "" && Rendered(bs)[0] == '['
  {
    ShowBlock(bs[0]);
    HeaderStarts(bs[0].path);
    assert Show(bs[0])[0] == '[';
    assert Shows(bs)[0] == Show(bs[0]);
  }

  lemma HeadersOfBlocks(ts: seq<Table>, bs: seq<Block>, managed: seq<string>)
    requires bs != [] && OwnBlocks(bs, managed)
    ensures Headers(ts + BlockTables(bs)) == Headers(ts) + RenderedHeaders(bs)
  {
    hide Tail, GoodBlock;
    forall i | 0 <= i < |bs|
      ensures |BlockTables(bs)| == |bs| && BlockTables(bs)[i].header == Header(bs[i].path, false)
    {
      TablesOfBlocks(bs, i);
    }
    TablesOfBlocks(bs, 0);
  }

  /** Rewriting the output again, with the same entries and managed names, returns the same
      bytes. */
  lemma RewriteIdempotent(before: string, entries: seq<Entry>, managed: seq<string>, uq: Unquote)
    requires forall i | 0 <= i < |entries| :: entries[i].name in managed
    requires Rewrite(before, entries, managed, uq).Ok?
    ensures var out := Rewrite(before, entries, managed, uq).value;
      Rewrite(out, entries, managed, uq) == Ok(out)
  {
    hide Sections, IsManaged, ValidEntry, OwnBlocks, Headers, Unmanaged, Cut, Show, Blank, CutTo;
    var out, l, m := Rewrite(before, entries, managed, uq).value, Sections(before, Top, uq).value, IsManaged(managed);
    var u := Cut(l, m);
    CutAll(before, m, uq);
    if entries == [] {
      BlankScans(u, uq);
      var o := Sections(out, Top, uq).value;
      HeadersMatch(o.tables, l.tables, m);
      NothingToCut(out, m, uq);
      assert Blank("") by { NothingBlank(); }
    } else {
      AppendAllIs(u, entries);
      AllValid(u, entries);
      BlocksOwned(entries, managed);
      var bs := AllBlocks(entries);
      SeparatedScans(u, uq);
      var v := Separated(u);
      HeadersMatch(Sections(v, Top, uq).value.tables, l.tables, m);
      CutTakesBlocks(v, bs, managed, uq) by { assert OwnBlocks(bs, managed); }
      NotBlankRendered(v, bs, managed);
      AppendAgain(u, entries);
    }
  }

  lemma NothingBlank()
    ensures Blank("")
  {
  }

  lemma NothingToCut(doc: string, m: Match, uq: Unquote)
    requires Sections(doc, Top, uq).Ok?
    requires var ts := Sections(doc, Top, uq).value.tables; forall i | 0 <= i < |ts| :: !m(ts[i].header.key)
    ensures Cut(Sections(doc, Top, uq).value, m) == doc
  {
    hide Sections;
    var l := Sections(doc, Top, uq).value;
    KeepAll(l.tables, [], m, |l.tables|);
    assert l.tables + [] == l.tables && l.tables[..|l.tables|] == l.tables;
    SectionsText(doc, Top, uq);
  }

  lemma AppendAgain(u: string, entries: seq<Entry>)
    requires entries != [] && AppendAll(u, entries).Some? && Separated(Separated(u)) == Separated(u)
    ensures AppendAll(Separated(u), entries) == AppendAll(u, entries)
  {
    hide Separated;
    var block := RenderEntry([CONTAINER], entries[0]).value;
    assert AppendBlock(Separated(u), block) == AppendBlock(u, block);
  }
}
