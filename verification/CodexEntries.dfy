/** What the Codex rewrite leaves in the file, told without the renderer: the tables it appends
    read back as the entries, the others are those it found. Model of rewriteCodex in
    internal/agent/harness/writer.go and renderTOMLEntry in internal/agent/harness/tomledit.go. */
module CodexEntries {
  import opened Prelude
  import opened TomlScan
  import opened TomlCut
  import opened TomlRemove
  import opened TomlRender
  import opened TomlRead
  import opened CodexRewrite
  import opened CodexFile

  /** A table as it reads: its dotted key and its body. */
  datatype Said = Said(key: seq<string>, body: Body)

  /** The tables of a document, read; None when one of them cannot be. */
  function ReadTables(ts: seq<Table>): Option<seq<Said>> {
    if ts == [] then Some([])
    else
      match (ReadTable(ts[0]), ReadTables(ts[1..]))
      case (Some(body), Some(more)) => Some([Said(ts[0].header.key, body)] + more)
      case _ => None
  }

  /** A sub-table for a map that is not empty. */
  function SubTable(key: seq<string>, pairs: Pairs): seq<Said> {
    if pairs == [] then [] else [Said(key, Texts(pairs))]
  }

  /** What an entry means: the URL, or the command with its arguments if it has any; then the
      headers and the environment. */
  function Meaning(e: Entry): seq<Said> {
    var key := [CONTAINER, e.name];
    var main := if e.transport == "http" then [("url", OneString(e.url))]
                else [("command", OneString(e.command))] + if e.args == [] then [] else [("args", Strings(e.args))];
    [Said(key, main)] + SubTable(key + ["http_headers"], e.headers) + SubTable(key + ["env"], e.env)
  }

  function Meanings(entries: seq<Entry>): seq<Said> {
    if entries == [] then [] else Meaning(entries[0]) + Meanings(entries[1..])
  }

  // ---- Rendered blocks read back ------------------------------------------

  /** Each of these lines reads as the pair beside it. */
  ghost predicate LinesSay(lines: seq<string>, body: Body) {
    && |lines| == |body|
    && forall i | 0 <= i < |lines| :: NoBreak(lines[i]) && ReadLine(lines[i]) == Some(Says(body[i].0, body[i].1))
  }

  lemma {:induction false} LinesRead(lines: seq<string>, body: Body, end: string)
    requires LinesSay(lines, body) && (end == "" || end == "\n")
    ensures ReadLines(Lines(lines) + end) == Some(body)
  {
    hide ReadLine, LineLen, Chomp;
    if lines == [] {
      assert Lines(lines) + end == end;
      BlankReads();
    } else {
      var rest := Lines(lines[1..]) + end;
      assert Lines(lines) + end == lines[0] + "\n" + rest;
      LinesOfText(lines[0], rest);
      LinesRead(lines[1..], body[1..], end);
      assert [body[0]] + body[1..] == body;
    }
  }

  lemma BlankReads()
    ensures ReadLines("") == Some([]) && ReadLines("\n") == Some([])
  {
    hide ReadLine;
    LinesOfText("", "");
    assert "" + "\n" + "" == "\n";
    assert ReadLine("") == Some(Nothing) by { EmptyLine(); }
  }

  lemma EmptyLine()
    ensures ReadLine("") == Some(Nothing)
  {
  }

  lemma {:induction false} PairsSay(pairs: Pairs)
    ensures LinesSay(PairLines(pairs), Texts(pairs))
  {
    hide ReadLine, PairLine, Neutral;
    if pairs != [] {
      PairReads(pairs[0].0, pairs[0].1);
      PairNeutral(pairs[0].0, pairs[0].1);
      PairsSay(pairs[1..]);
      NeutralNoBreak(PairLine(pairs[0].0, pairs[0].1));
    }
  }

  lemma NeutralNoBreak(text: string)
    requires Neutral(text)
    ensures NoBreak(text)
  {
  }

  lemma MainSays(e: Entry)
    ensures LinesSay(MainLines(e), Meaning(e)[0].body)
  {
    hide ReadLine, PairLine, ArgsLine, Neutral;
    PairReads("url", e.url);
    PairNeutral("url", e.url);
    NeutralNoBreak(PairLine("url", e.url));
    PairReads("command", e.command);
    PairNeutral("command", e.command);
    NeutralNoBreak(PairLine("command", e.command));
    ArgsRead(e.args);
    ArgsNeutral(e.args);
    NeutralNoBreak(ArgsLine(e.args));
  }

  /** The blocks have these keys, and their lines say these bodies. */
  ghost predicate BlocksSay(bs: seq<Block>, said: seq<Said>) {
    && |bs| == |said|
    && forall i | 0 <= i < |bs| :: bs[i].path == said[i].key && LinesSay(bs[i].lines, said[i].body)
  }

  lemma SubSays(path: seq<string>, name: string, pairs: Pairs)
    ensures BlocksSay(SubBlock(path, name, pairs), SubTable(path + [name], pairs))
  {
    hide LinesSay, PairLines, Texts;
    PairsSay(pairs);
  }

  lemma SayThen(a: seq<Block>, s: seq<Said>, b: seq<Block>, t: seq<Said>)
    requires BlocksSay(a, s) && BlocksSay(b, t)
    ensures BlocksSay(a + b, s + t)
  {
    hide LinesSay;
  }

  lemma EntrySays(e: Entry)
    ensures BlocksSay(Blocks([CONTAINER], e), Meaning(e))
  {
    var path := [CONTAINER] + [e.name];
    assert path == [CONTAINER, e.name];
    MainSays(e);
    hide LinesSay, MainLines, SubBlock, SubTable;
    var main, said := [Block(path, MainLines(e))], [Meaning(e)[0]];
    SubSays(path, "http_headers", e.headers);
    SubSays(path, "env", e.env);
    SayThen(main, said, SubBlock(path, "http_headers", e.headers), SubTable(path + ["http_headers"], e.headers));
    SayThen(main + SubBlock(path, "http_headers", e.headers), said + SubTable(path + ["http_headers"], e.headers),
            SubBlock(path, "env", e.env), SubTable(path + ["env"], e.env));
  }

  lemma {:induction false} EntriesSay(entries: seq<Entry>)
    ensures BlocksSay(AllBlocks(entries), Meanings(entries))
  {
    hide Meaning, Blocks, BlocksSay;
    if entries != [] {
      EntrySays(entries[0]);
      EntriesSay(entries[1..]);
      SayThen(Blocks([CONTAINER], entries[0]), Meaning(entries[0]), AllBlocks(entries[1..]), Meanings(entries[1..]));
    } else {
      NobodySays();
    }
  }

  lemma NobodySays()
    ensures BlocksSay([], [])
  {
  }

  lemma BlockReads(b: Block, said: Said, end: string)
    requires b.path == said.key && GoodBlock(b) && LinesSay(b.lines, said.body) && (end == "" || end == "\n")
    ensures ReadTable(Table(Header(b.path, false), Show(b) + end)) == Some(said.body)
  {
    hide LinesSay, ReadLines, HeaderLine, LineLen, Neutral;
    var h, rest := HeaderLine(b.path), Lines(b.lines) + end;
    ShowBlock(b);
    assert Show(b) + end == h + "\n" + rest;
    HeaderLineNeutral(b.path);
    LinesOfText(h, rest);
    LinesRead(b.lines, said.body, end);
  }

  lemma {:induction false} BlocksRead(bs: seq<Block>, said: seq<Said>)
    requires BlocksSay(bs, said) && GoodBlocks(bs)
    ensures ReadTables(BlockTables(bs)) == Some(said)
  {
    hide LinesSay, ReadTable, Show, GoodBlock;
    if bs != [] {
      BlockReads(bs[0], said[0], if |bs| == 1 then "" else "\n");
      BlocksRead(bs[1..], said[1..]);
      assert BlockTables(bs)[1..] == BlockTables(bs[1..]);
      assert [said[0]] + said[1..] == said;
    }
  }

  // ---- The rewritten document ---------------------------------------------

  /** The tables of the result: those kept, and then the appended ones. */
  lemma AppendedTables(before: string, entries: seq<Entry>, managed: seq<string>, uq: Unquote) returns (vs: seq<Table>)
    requires entries != [] && forall i | 0 <= i < |entries| :: entries[i].name in managed
    requires Rewrite(before, entries, managed, uq).Ok?
    ensures Sections(before, Top, uq).Ok? && Sections(Rewrite(before, entries, managed, uq).value, Top, uq).Ok?
    ensures Headers(vs) == Unmanaged(Sections(before, Top, uq).value.tables, IsManaged(managed))
    ensures Sections(Rewrite(before, entries, managed, uq).value, Top, uq).value.tables == vs + BlockTables(AllBlocks(entries))
    ensures GoodBlocks(AllBlocks(entries))
  {
    hide Sections, IsManaged, ValidEntry, OwnBlocks, Headers, Unmanaged, Cut, Show, BlockTables, GoodBlocks;
    var l, m := Sections(before, Top, uq).value, IsManaged(managed);
    var u := Cut(l, m);
    CutAll(before, m, uq);
    AppendAllIs(u, entries);
    AllValid(u, entries);
    BlocksOwned(entries, managed);
    var bs := AllBlocks(entries);
    SeparatedScans(u, uq);
    var v := Separated(u);
    vs := Sections(v, Top, uq).value.tables;
    HeadersMatch(vs, l.tables, m);
    CutTakesBlocks(v, bs, managed, uq);
    NotBlankRendered(v, bs, managed);
    OwnAreGood(bs, managed);
  }

  lemma OwnAreGood(bs: seq<Block>, managed: seq<string>)
    requires OwnBlocks(bs, managed)
    ensures GoodBlocks(bs)
  {
  }

  /** For every document, entries and managed names: the tables of the result are those of the
      document the rewrite does not manage, in their old order, and then tables that read back as
      exactly what the entries mean. */
  lemma EntriesReadBack(before: string, entries: seq<Entry>, managed: seq<string>, uq: Unquote)
    requires forall i | 0 <= i < |entries| :: entries[i].name in managed
    requires Rewrite(before, entries, managed, uq).Ok?
    ensures Sections(before, Top, uq).Ok? && Sections(Rewrite(before, entries, managed, uq).value, Top, uq).Ok?
    ensures var ts := Sections(Rewrite(before, entries, managed, uq).value, Top, uq).value.tables;
      var kept := Unmanaged(Sections(before, Top, uq).value.tables, IsManaged(managed));
      && |kept| <= |ts| && Headers(ts[..|kept|]) == kept
      && ReadTables(ts[|kept|..]) == Some(Meanings(entries))
  {
    hide Sections, IsManaged, Rewrite, Headers, Unmanaged, BlockTables, AllBlocks, GoodBlocks, BlocksSay, Meaning;
    RewriteHeaders(before, entries, managed, uq);
    var ts := Sections(Rewrite(before, entries, managed, uq).value, Top, uq).value.tables;
    var kept := Unmanaged(Sections(before, Top, uq).value.tables, IsManaged(managed));
    if entries == [] {
      NoBlocks(kept);
      HeadersLength(ts);
      assert ts[..|kept|] == ts && ts[|kept|..] == [];
    } else {
      var vs := AppendedTables(before, entries, managed, uq);
      HeadersLength(vs);
      assert ts[..|kept|] == vs && ts[|kept|..] == BlockTables(AllBlocks(entries));
      EntriesSay(entries);
      BlocksRead(AllBlocks(entries), Meanings(entries));
    }
  }

  lemma {:induction false} AllRender(src: string, entries: seq<Entry>)
    requires forall i | 0 <= i < |entries| :: ValidEntry(entries[i])
    ensures AppendAll(src, entries).Some?
    decreases |entries|
  {
    hide ValidEntry, AppendBlock, Blocks;
    if entries != [] {
      AllRender(AppendBlock(src, RenderEntry([CONTAINER], entries[0]).value), entries[1..]);
    }
  }

  /** A rewrite is refused exactly when the document does not scan or an entry is invalid. */
  lemma RefusedIff(before: string, entries: seq<Entry>, managed: seq<string>, uq: Unquote)
    ensures Rewrite(before, entries, managed, uq).Ok? <==>
            Sections(before, Top, uq).Ok? && forall i | 0 <= i < |entries| :: ValidEntry(entries[i])
  {
    hide Sections, ValidEntry, AppendAll, Cut, Blank;
    if Sections(before, Top, uq).Ok? {
      var u := Cut(Sections(before, Top, uq).value, IsManaged(managed));
      if AppendAll(u, entries).Some? {
        AllValid(u, entries);
      }
      if forall i | 0 <= i < |entries| :: ValidEntry(entries[i]) {
        AllRender(u, entries);
      }
    }
  }

  /** The first k characters of cut begin out, and the others are white space. */
  ghost predicate StaysTo(cut: string, out: string, k: nat) {
    k <= |cut| && cut[..k] <= out && forall i | k <= i < |cut| :: IsSpace(cut[i])
  }

  /** The text before the appended tables is what the cut left, but for white space at its end. */
  lemma TextStays(before: string, entries: seq<Entry>, managed: seq<string>, uq: Unquote) returns (k: nat)
    requires Rewrite(before, entries, managed, uq).Ok?
    ensures Sections(before, Top, uq).Ok?
    ensures StaysTo(Cut(Sections(before, Top, uq).value, IsManaged(managed)), Rewrite(before, entries, managed, uq).value, k)
  {
    hide Sections, IsManaged, Rendered, AllBlocks, Cut, StaysTo, Blank, Separated;
    var cut := Cut(Sections(before, Top, uq).value, IsManaged(managed));
    if entries == [] {
      k := PrefixOf(cut, cut, "");
    } else {
      AppendAllIs(cut, entries);
      SeparatedStarts(cut);
      k := PrefixOf(cut, Separated(cut), Rendered(AllBlocks(entries)));
    }
  }

  lemma SeparatedStarts(cut: string)
    ensures TrimTail(cut) <= Separated(cut)
  {
  }

  lemma PrefixOf(cut: string, front: string, tail: string) returns (k: nat)
    requires TrimTail(cut) <= front
    ensures StaysTo(cut, if Blank(front + tail) then "" else front + tail, k)
    ensures front == cut && tail == "" ==> StaysTo(cut, if Blank(front) then "" else front, k)
  {
    var body, out := TrimTail(cut), front + tail;
    assert cut[..|body|] == body && body <= out;
    if front == cut && tail == "" {
      assert out == front;
    }
    if Blank(out) {
      k := 0;
      forall i | 0 <= i < |cut|
        ensures IsSpace(cut[i])
      {
        assert i < |body| ==> cut[i] == out[i];
      }
    } else {
      k := |body|;
    }
  }

  lemma HeadersLength(ts: seq<Table>)
    ensures |Headers(ts)| == |ts|
  {
  }
}
