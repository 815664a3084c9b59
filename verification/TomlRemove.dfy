/** The removal loop, and which bytes of a document it loses. */
module TomlRemove {
  import opened Prelude
  import opened TomlScan
  import opened TomlCut

  /** Where table k starts; the document's length when k is the number of tables. */
  function Off(l: Layout, k: nat): nat
    requires k <= |l.tables|
  {
    |l.pre| + |Text(l.tables[..k])|
  }

  /** A document, its layout and its spans, as one scan delivers them. */
  ghost predicate Scanned(src: string, l: Layout, spans: seq<Span>) {
    && src == l.pre + Text(l.tables)
    && spans == SpansFrom(|l.pre|, l.tables)
    && forall i | 0 <= i < |l.tables| :: !Blank(l.tables[i].text)
  }

  lemma ScanIsScanned(src: string, uq: Unquote)
    requires Sections(src, Top, uq).Ok?
    ensures var l := Sections(src, Top, uq).value; Scanned(src, l, SpansFrom(|l.pre|, l.tables))
  {
    hide Sections;
    SectionsText(src, Top, uq);
    Decompose(src, Top, uq);
    var l := Sections(src, Top, uq).value;
    forall i | 0 <= i < |l.tables|
      ensures !Blank(l.tables[i].text)
    {
      AloneNotBlank(l.tables[i], uq);
    }
  }

  lemma AloneNotBlank(t: Table, uq: Unquote)
    requires Alone(t, uq)
    ensures !Blank(t.text)
  {
    hide ScanLine, ParseHeader;
    var n := LineLen(t.text);
    var text := Chomp(t.text[..n]);
    StepOk(t.text, Top, uq);
    assert LooksLikeHeader(text);
    BracketIn(text);
    var i :| 0 <= i < |text| && text[i] == '[';
    assert t.text[i] == '[';
  }

  lemma {:induction false} BracketIn(text: string)
    requires LooksLikeHeader(text)
    ensures '[' in text
  {
    if IsPad(text[0]) {
      BracketIn(text[1..]);
    }
  }

  lemma {:induction false} OffNext(l: Layout, k: nat)
    requires k < |l.tables|
    ensures Off(l, k + 1) == Off(l, k) + |l.tables[k].text|
  {
    assert l.tables[..k + 1] == l.tables[..k] + [l.tables[k]];
    TextAppend(l.tables[..k], [l.tables[k]]);
    assert Text([l.tables[k]]) == l.tables[k].text + Text([]);
  }

  lemma {:induction false} OffMonotone(l: Layout, j: nat, k: nat)
    requires j <= k <= |l.tables|
    ensures Off(l, j) <= Off(l, k)
    decreases k - j
  {
    if j < k {
      OffNext(l, j);
      OffMonotone(l, j + 1, k);
    }
  }

  /** The text of table k lies between its two offsets. */
  lemma TextAt(src: string, l: Layout, k: nat)
    requires src == l.pre + Text(l.tables) && k < |l.tables|
    ensures Off(l, k + 1) == Off(l, k) + |l.tables[k].text| <= |src|
    ensures src[Off(l, k)..Off(l, k + 1)] == l.tables[k].text
  {
    var a, b := l.tables[..k], l.tables[k..];
    assert l.tables == a + b && b[0] == l.tables[k];
    TextAppend(a, b);
    OffNext(l, k);
    var front := l.pre + Text(a);
    assert src == front + l.tables[k].text + Text(b[1..]);
  }

  /** Span k and the text it covers. */
  lemma {:induction false} SpanAt(src: string, l: Layout, spans: seq<Span>, k: nat)
    requires Scanned(src, l, spans) && k < |l.tables|
    ensures |spans| == |l.tables| && Off(l, k + 1) == Off(l, k) + |l.tables[k].text| <= |src|
    ensures spans[k] == Span(l.tables[k].header, Off(l, k), Off(l, k) + CoreLen(l.tables[k].text))
    ensures src[Off(l, k)..Off(l, k + 1)] == l.tables[k].text
    ensures src[spans[k].end..Off(l, k + 1)] == Tail(l.tables[k])
  {
    hide CoreLen, Text;
    TextAt(src, l, k);
    var a, b := l.tables[..k], l.tables[k..];
    assert l.tables == a + b && b[0] == l.tables[k];
    SpansAppend(|l.pre|, a, b);
    SliceSlice(src, Off(l, k), Off(l, k + 1), CoreLen(l.tables[k].text), |l.tables[k].text|);
  }

  lemma {:induction false} OffEnds(src: string, l: Layout, spans: seq<Span>)
    requires Scanned(src, l, spans)
    ensures Off(l, 0) == |l.pre| && Off(l, |l.tables|) == |src| && src[..|l.pre|] == l.pre
  {
    assert l.tables[..|l.tables|] == l.tables && l.tables[..0] == [];
  }

  // ---- removeTOMLTables ---------------------------------------------------

  /** What the loop still owes the output for the text between the last cut and table k. */
  function Pending(src: string, l: Layout, m: Match, prev: nat, cut: bool, k: nat): string
    requires k <= |l.tables| && prev <= Off(l, k) <= |src|
  {
    var gap := src[prev..Off(l, k)];
    if cut && k < |l.tables| && m(l.tables[k].header.key) && Blank(gap) then "" else gap
  }

  /** The output so far and what is still owed make up the cut of the first k tables. */
  ghost predicate Owes(src: string, l: Layout, m: Match, out: string, prev: nat, cut: bool, k: nat) {
    && k <= |l.tables| && prev <= Off(l, k) <= |src|
    && out + Pending(src, l, m, prev, cut, k) == l.pre + CutTo(l.tables, m, k)
  }

  lemma OwesStart(src: string, l: Layout, spans: seq<Span>, m: Match)
    requires Scanned(src, l, spans)
    ensures Owes(src, l, m, "", 0, false, 0)
  {
    OffEnds(src, l, spans);
    assert "" + src[0..|l.pre|] == l.pre + "";
  }

  lemma Assoc(a: string, b: string, c: string)
    ensures a + (b + c) == a + b + c
  {
  }

  lemma TextNotBlank(src: string, l: Layout, spans: seq<Span>, k: nat)
    requires Scanned(src, l, spans) && k < |l.tables|
    ensures !Blank(l.tables[k].text)
  {
  }

  lemma NotBlank(a: string, b: string)
    requires !Blank(b)
    ensures !Blank(a + b)
  {
    var i :| 0 <= i < |b| && !IsSpace(b[i]);
    assert (a + b)[|a| + i] == b[i];
  }

  lemma {:induction false} OwesKeep(src: string, l: Layout, spans: seq<Span>, m: Match, out: string, prev: nat, cut: bool, k: nat)
    requires Scanned(src, l, spans) && k < |l.tables| && !m(l.tables[k].header.key)
    requires Owes(src, l, m, out, prev, cut, k)
    ensures Owes(src, l, m, out, prev, cut, k + 1)
  {
    hide CoreLen, Text, SpansFrom, Off, Blank, Scanned;
    var gap, text := src[prev..Off(l, k)], l.tables[k].text;
    assert src[Off(l, k)..Off(l, k + 1)] == text && Off(l, k) <= Off(l, k + 1) <= |src| && !Blank(text) by {
      SpanAt(src, l, spans, k);
      TextNotBlank(src, l, spans, k);
    }
    assert src[prev..Off(l, k + 1)] == gap + text;
    NotBlank(gap, text);
    Assoc(out, gap, text);
    Assoc(l.pre, CutTo(l.tables, m, k), text);
  }

  lemma {:induction false} OwesCut(src: string, l: Layout, spans: seq<Span>, m: Match, out: string, prev: nat, cut: bool, k: nat)
    requires Scanned(src, l, spans) && k < |l.tables| && m(l.tables[k].header.key)
    requires Owes(src, l, m, out, prev, cut, k)
    ensures k < |spans| && spans[k].header == l.tables[k].header && prev <= spans[k].start <= spans[k].end <= |src|
    ensures var gap := src[prev..spans[k].start];
      Owes(src, l, m, out + (if cut && Blank(gap) then "" else gap), spans[k].end, true, k + 1)
  {
    hide CoreLen, Text, SpansFrom, Tail, Off, Blank, Scanned;
    SpanAt(src, l, spans, k);
    var gap := src[prev..spans[k].start];
    var out' := out + if cut && Blank(gap) then "" else gap;
    assert out' == l.pre + CutTo(l.tables, m, k);
    assert Pending(src, l, m, spans[k].end, true, k + 1) == Piece(l.tables, m, k);
    hide Pending, Piece;
    Assoc(l.pre, CutTo(l.tables, m, k), Piece(l.tables, m, k));
  }

  lemma OwesEnd(src: string, l: Layout, spans: seq<Span>, m: Match, out: string, prev: nat, cut: bool)
    requires Scanned(src, l, spans) && Owes(src, l, m, out, prev, cut, |l.tables|)
    ensures prev <= |src| && out + src[prev..] == Cut(l, m)
  {
    hide CoreLen, Text, SpansFrom, Tail, Off;
    OffEnds(src, l, spans);
    assert src[prev..|src|] == src[prev..];
  }

  /** The keys of the managed tables, in file order. */
  function Managed(spans: seq<Span>, m: Match): seq<seq<string>> {
    if spans == [] then []
    else
      var n := |spans| - 1;
      Managed(spans[..n], m) + if m(spans[n].header.key) then [spans[n].header.key] else []
  }

  /** removeTOMLTables: one pass over the spans, writing the text between cuts and
      coalescing adjacent ones. */
  method RemoveTables(src: string, spans: seq<Span>, m: Match, ghost l: Layout)
    returns (out: string, removed: seq<seq<string>>)
    requires Scanned(src, l, spans)
    ensures out == Cut(l, m)
    ensures removed == Managed(spans, m)
  {
    hide Owes, Cut, SpansFrom, Blank, CoreLen;
    out, removed := "", [];
    var prev: nat, cut := 0, false;
    OwesStart(src, l, spans, m);
    for k := 0 to |spans|
      invariant Owes(src, l, m, out, prev, cut, k)
      invariant removed == Managed(spans[..k], m)
    {
      SpanAt(src, l, spans, k);
      assert spans[..k + 1][..k] == spans[..k];
      if m(spans[k].header.key) {
        OwesCut(src, l, spans, m, out, prev, cut, k);
        var start := spans[k].start;
        if cut && Blank(src[prev..start]) {
          start := prev;
          assert src[prev..start] == "";
        }
        out := out + src[prev..start];
        removed := removed + [spans[k].header.key];
        prev, cut := spans[k].end, true;
      } else {
        OwesKeep(src, l, spans, m, out, prev, cut, k);
      }
    }
    assert spans[..|spans|] == spans;
    OwesEnd(src, l, spans, m, out, prev, cut);
    out := out + src[prev..];
  }

  // ---- What is lost -------------------------------------------------------

  /** Position p is lost: inside a managed span, or in a blank gap between a managed span
      and the managed span right after it. */
  ghost predicate Lost(src: string, spans: seq<Span>, m: Match, p: nat) {
    || (exists k | 0 <= k < |spans| :: m(spans[k].header.key) && spans[k].start <= p < spans[k].end)
    || (exists k | 0 <= k < |spans| - 1 ::
          && m(spans[k].header.key) && m(spans[k + 1].header.key)
          && spans[k].end <= p < spans[k + 1].start <= |src|
          && Blank(src[spans[k].end..spans[k + 1].start]))
  }

  /** The positions below hi that are not lost, in order. */
  ghost function Kept(src: string, spans: seq<Span>, m: Match, hi: nat): string
    requires hi <= |src|
  {
    if hi == 0 then ""
    else Kept(src, spans, m, hi - 1) + if Lost(src, spans, m, hi - 1) then "" else [src[hi - 1]]
  }

  lemma {:induction false} KeptRun(src: string, spans: seq<Span>, m: Match, lo: nat, hi: nat, lost: bool)
    requires lo <= hi <= |src| && forall p | lo <= p < hi :: Lost(src, spans, m, p) == lost
    ensures Kept(src, spans, m, hi) == Kept(src, spans, m, lo) + if lost then "" else src[lo..hi]
    decreases hi
  {
    if lo < hi {
      KeptRun(src, spans, m, lo, hi - 1, lost);
      assert src[lo..hi] == src[lo..hi - 1] + [src[hi - 1]];
    }
  }

  lemma {:induction false} LostInTable(src: string, l: Layout, spans: seq<Span>, m: Match, k: nat, p: nat)
    requires Scanned(src, l, spans) && k < |l.tables| && Off(l, k) <= p < Off(l, k + 1)
    ensures |spans| == |l.tables|
    ensures Lost(src, spans, m, p) <==>
      && m(l.tables[k].header.key)
      && (p < spans[k].end
          || (k + 1 < |l.tables| && m(l.tables[k + 1].header.key) && Blank(Tail(l.tables[k]))))
  {
    hide CoreLen, Text, SpansFrom, Tail, Off;
    SpanAt(src, l, spans, k);
    forall j | 0 <= j < |l.tables|
      ensures spans[j].start <= spans[j].end
      ensures j < k ==> spans[j].end <= spans[k].start
      ensures j > k ==> Off(l, k + 1) <= spans[j].start
    {
      SpanAt(src, l, spans, j);
      if j < k { OffMonotone(l, j + 1, k); }
      if j > k { OffMonotone(l, k + 1, j); }
    }
    forall j | 1 <= j <= k
      ensures spans[j].start <= spans[k].start
    {
      SpanAt(src, l, spans, j);
      OffMonotone(l, j, k);
    }
    if k + 1 < |l.tables| {
      SpanAt(src, l, spans, k + 1);
      assert src[spans[k].end..spans[k + 1].start] == Tail(l.tables[k]);
    }
  }

  lemma {:induction false} KeptTable(src: string, l: Layout, spans: seq<Span>, m: Match, k: nat)
    requires Scanned(src, l, spans) && k < |l.tables|
    ensures Off(l, k) <= Off(l, k + 1) <= |src|
    ensures Kept(src, spans, m, Off(l, k + 1)) == Kept(src, spans, m, Off(l, k)) + Piece(l.tables, m, k)
  {
    hide CoreLen, Text, SpansFrom, Tail, Off, Lost, Kept, Blank;
    SpanAt(src, l, spans, k);
    var lo, mid, hi := Off(l, k), spans[k].end, Off(l, k + 1);
    var managed := m(l.tables[k].header.key);
    var gapLost := managed && k + 1 < |l.tables| && m(l.tables[k + 1].header.key) && Blank(Tail(l.tables[k]));
    forall p | lo <= p < hi
      ensures Lost(src, spans, m, p) == if p < mid then managed else gapLost
    {
      LostInTable(src, l, spans, m, k, p);
    }
    KeptRun(src, spans, m, lo, mid, managed);
    KeptRun(src, spans, m, mid, hi, gapLost);
    if !managed {
      assert src[lo..mid] + src[mid..hi] == src[lo..hi];
    }
  }

  lemma {:induction false} KeptThrough(src: string, l: Layout, spans: seq<Span>, m: Match, k: nat)
    requires Scanned(src, l, spans) && k <= |l.tables|
    ensures Off(l, k) <= |src|
    ensures Kept(src, spans, m, Off(l, k)) == l.pre + CutTo(l.tables, m, k)
  {
    hide CoreLen, Text, SpansFrom, Tail, Off, Lost, Piece;
    OffEnds(src, l, spans);
    if k == 0 {
      forall p | 0 <= p < |l.pre|
        ensures !Lost(src, spans, m, p)
      {
        LostBefore(src, l, spans, m, p);
      }
      KeptRun(src, spans, m, 0, |l.pre|, false);
    } else {
      KeptThrough(src, l, spans, m, k - 1);
      KeptTable(src, l, spans, m, k - 1);
      assert l.pre + (CutTo(l.tables, m, k - 1) + Piece(l.tables, m, k - 1))
          == l.pre + CutTo(l.tables, m, k - 1) + Piece(l.tables, m, k - 1);
    }
  }

  lemma LostBefore(src: string, l: Layout, spans: seq<Span>, m: Match, p: nat)
    requires Scanned(src, l, spans) && p < |l.pre|
    ensures !Lost(src, spans, m, p)
  {
    hide CoreLen, Text, SpansFrom, Tail, Off;
    forall j | 0 <= j < |l.tables|
      ensures |spans| == |l.tables| && |l.pre| <= spans[j].start <= spans[j].end
    {
      SpanAt(src, l, spans, j);
      OffEnds(src, l, spans);
      OffMonotone(l, 0, j);
    }
    OffEnds(src, l, spans);
    assert |spans| == |l.tables|;
  }

  /** The only positions lost are those in managed spans and in blank gaps between adjacent
      managed spans; every other position survives, in order. */
  lemma CutLosesOnlyManaged(src: string, m: Match, uq: Unquote)
    requires Sections(src, Top, uq).Ok?
    ensures var l := Sections(src, Top, uq).value;
      Cut(l, m) == Kept(src, SpansFrom(|l.pre|, l.tables), m, |src|)
  {
    hide Sections;
    ScanIsScanned(src, uq);
    var l := Sections(src, Top, uq).value;
    var spans := SpansFrom(|l.pre|, l.tables);
    KeptThrough(src, l, spans, m, |l.tables|);
    OffEnds(src, l, spans);
  }
}
