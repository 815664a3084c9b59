/** The span scanner: lexical state carried from line to line, header parsing, and
    the byte span of every table. Model of internal/agent/harness/tomledit.go. */
module TomlScan {
  import opened Prelude

  // ---- Lexical state ------------------------------------------------------

  datatype Delim = Basic | Literal

  /** Whether a multi-line string is open, and how deep arrays and inline tables nest. */
  datatype LineState = LineState(multi: Option<Delim>, depth: int)

  const Top := LineState(None, 0)

  function Quotes(d: Delim): (q: string)
    ensures |q| == 3
  {
    if d.Basic? then "\"\"\"" else "'''"
  }

  /** What follows the closing quote of a basic string on this line. */
  function AfterBasic(b: string): (r: string)
    ensures |r| <= |b|
    decreases |b|
  {
    if b == "" then ""
    else if b[0] == '\\' then AfterBasic(Drop(b, 2))
    else if b[0] == '"' then b[1..]
    else AfterBasic(b[1..])
  }

  function AfterLiteral(b: string): (r: string)
    ensures |r| <= |b|
  {
    if b == "" then "" else if b[0] == '\'' then b[1..] else AfterLiteral(b[1..])
  }

  /** One lexical step: the rest of the line and the state after the step. A comment
      swallows the rest of the line. */
  function Token(b: string, s: LineState): (r: (string, LineState))
    requires b != ""
    ensures |r.0| < |b|
  {
    match s.multi
    case Some(d) =>
      if Quotes(d) <= b then (b[3..], s.(multi := None))
      else if d.Basic? && b[0] == '\\' then (Drop(b, 2), s)
      else (b[1..], s)
    case None =>
      if b[0] == '#' then ("", s)
      else if Quotes(Basic) <= b then (b[3..], s.(multi := Some(Basic)))
      else if Quotes(Literal) <= b then (b[3..], s.(multi := Some(Literal)))
      else if b[0] == '"' then (AfterBasic(b[1..]), s)
      else if b[0] == '\'' then (AfterLiteral(b[1..]), s)
      else if b[0] == '[' || b[0] == '{' then (b[1..], s.(depth := s.depth + 1))
      else if b[0] == ']' || b[0] == '}' then (b[1..], s.(depth := s.depth - 1))
      else (b[1..], s)
  }

  function ScanLine(b: string, s: LineState): LineState
    decreases |b|
  {
    if b == "" then s else var (rest, s') := Token(b, s); ScanLine(rest, s')
  }

  // ---- Headers ------------------------------------------------------------

  /** Decoding of a double-quoted key, left open: any function of the quoted text. */
  type Unquote = string -> Option<string>

  predicate IsBareKeyChar(c: char) {
    c == '-' || c == '_' || '0' <= c <= '9' || 'a' <= c <= 'z' || 'A' <= c <= 'Z'
  }

  function BareLen(b: string): (n: nat)
    ensures n <= |b|
    ensures forall i | 0 <= i < n :: IsBareKeyChar(b[i])
    ensures n < |b| ==> !IsBareKeyChar(b[n])
  {
    if b != "" && IsBareKeyChar(b[0]) then 1 + BareLen(b[1..]) else 0
  }

  /** One key segment and what follows it. */
  function ParseSegment(b: string, uq: Unquote): (r: Option<(string, string)>)
    requires b != ""
    ensures r.Some? ==> |r.value.1| < |b|
  {
    if b[0] == '"' then
      var rest := AfterBasic(b[1..]);
      if !ClosesBasic(b[1..]) then None
      else
        match uq(b[..|b| - |rest|])
        case None => None
        case Some(seg) => Some((seg, rest))
    else if b[0] == '\'' then
      if '\'' !in b[1..] then None
      else
        var rest := AfterLiteral(b[1..]);
        Some((b[1..|b| - |rest| - 1], rest))
    else
      var n := BareLen(b);
      if n == 0 then None else Some((b[..n], b[n..]))
  }

  /** Whether a basic string opened before b is closed within b. */
  predicate ClosesBasic(b: string)
    decreases |b|
  {
    b != "" &&
    if b[0] == '\\' then ClosesBasic(Drop(b, 2)) else b[0] == '"' || ClosesBasic(b[1..])
  }

  /** The dotted path up to the first closing bracket, and what follows the bracket. */
  function ParsePath(b: string, expectSegment: bool, key: seq<string>, uq: Unquote)
    : (r: Option<(seq<string>, string)>)
    decreases |b|
  {
    var t := TrimPad(b);
    if t == "" then None
    else if t[0] == ']' then
      if expectSegment then None else Some((key, t[1..]))
    else if !expectSegment then
      if t[0] == '.' then ParsePath(t[1..], true, key, uq) else None
    else
      match ParseSegment(t, uq)
      case None => None
      case Some((seg, rest)) => ParsePath(rest, false, key + [seg], uq)
  }

  datatype Header = Header(key: seq<string>, arrayOfTables: bool)

  predicate PadOrComment(b: string) {
    var t := TrimPad(b);
    t == "" || t[0] == '#'
  }

  /** `[a.b]` or `[[a.b]]` with nothing but padding and a comment after it. */
  function ParseHeader(line: string, uq: Unquote): Option<Header> {
    var aot := |line| > 1 && line[1] == '[';
    match ParsePath(Drop(line, if aot then 2 else 1), true, [], uq)
    case None => None
    case Some((key, rest)) =>
      if aot && (rest == "" || rest[0] != ']') then None
      else if PadOrComment(if aot then rest[1..] else rest) then Some(Header(key, aot))
      else None
  }

  // ---- Lines and tables ---------------------------------------------------

  /** Length of the first line, its terminator included. */
  function LineLen(src: string): (n: nat)
    requires src != ""
    ensures 0 < n <= |src|
    ensures n < |src| ==> src[n - 1] == '\n'
  {
    if src[0] == '\n' || |src| == 1 then 1 else 1 + LineLen(src[1..])
  }

  /** A line without its terminator. */
  function Chomp(line: string): string {
    if line != "" && line[|line| - 1] == '\n' then line[..|line| - 1] else line
  }

  predicate LooksLikeHeader(text: string) {
    var t := TrimPad(text);
    t != "" && t[0] == '['
  }

  datatype ScanError = BadHeader | Unbalanced | OpenString | OpenBracket

  /** A table as written: its header line and everything up to the next header. */
  datatype Table = Table(header: Header, text: string)

  /** The text before the first header, and the tables in file order. */
  datatype Layout = Layout(pre: string, tables: seq<Table>)

  type Scan = Result<Layout, ScanError>

  function AtEnd(s: LineState): Scan {
    if s.multi.Some? then Err(OpenString) else if s.depth != 0 then Err(OpenBracket) else Ok(Layout("", []))
  }

  /** The layout of src when its first line starts in state s. */
  function Sections(src: string, s: LineState, uq: Unquote): Scan
    decreases |src|
  {
    if src == "" then AtEnd(s)
    else
      var n := LineLen(src);
      var text := Chomp(src[..n]);
      var s' := ScanLine(text, s);
      if s == Top && LooksLikeHeader(text) then
        match ParseHeader(TrimPad(text), uq)
        case None => Err(BadHeader)
        case Some(h) =>
          if s'.depth < 0 then Err(Unbalanced) else WithHeader(src[..n], h, Sections(src[n..], s', uq))
      else if s'.depth < 0 then Err(Unbalanced)
      else WithLine(src[..n], Sections(src[n..], s', uq))
  }

  /** One step of the scan, as an equation. */
  lemma Unfold(src: string, s: LineState, uq: Unquote)
    requires src != ""
    ensures var n := LineLen(src);
      var text := Chomp(src[..n]);
      var s' := ScanLine(text, s);
      var later := Sections(src[n..], s', uq);
      Sections(src, s, uq) ==
        if s == Top && LooksLikeHeader(text) then
          match ParseHeader(TrimPad(text), uq)
          case None => Err(BadHeader)
          case Some(h) => if s'.depth < 0 then Err(Unbalanced) else WithHeader(src[..n], h, later)
        else if s'.depth < 0 then Err(Unbalanced)
        else WithLine(src[..n], later)
  {
    hide LineLen, Chomp, ScanLine, ParseHeader, WithHeader, WithLine, TrimPad, LooksLikeHeader;
  }

  function WithLine(line: string, r: Scan): Scan {
    if r.Err? then r else Ok(r.value.(pre := line + r.value.pre))
  }

  function WithHeader(line: string, h: Header, r: Scan): Scan {
    if r.Err? then r else Ok(Layout("", [Table(h, line + r.value.pre)] + r.value.tables))
  }

  // ---- Spans --------------------------------------------------------------

  /** A blank or comment-only line belongs to whatever comes next. */
  predicate Attached(line: string) {
    line == "" || if IsSpace(line[0]) then Attached(line[1..]) else line[0] == '#'
  }

  /** Start of the line that holds position i - 1's successor: the largest k <= i
      that is 0 or follows a newline. */
  function LineStart(src: string, i: nat): (k: nat)
    requires i <= |src|
    ensures k <= i
    ensures k == 0 || src[k - 1] == '\n'
  {
    if i == 0 || src[i - 1] == '\n' then i else LineStart(src, i - 1)
  }

  /** Pull end back over the attached lines that precede it, never past the header. */
  function TrimAttached(src: string, start: nat, end: nat): (e: nat)
    requires start <= end <= |src|
    ensures start <= e <= end
    ensures start < end ==> start < e
    decreases end
  {
    if end == start then end
    else
      var k := LineStart(src, end - 1);
      if k <= start || !AttachedAt(src, k, end) then end else TrimAttached(src, start, k)
  }

  predicate AttachedAt(src: string, k: nat, end: nat)
    requires k <= end <= |src|
  {
    Attached(src[k..end])
  }

  function CoreLen(text: string): (n: nat)
    ensures n <= |text|
    ensures text != "" ==> 0 < n
  {
    TrimAttached(text, 0, |text|)
  }

  function Tail(t: Table): string { t.text[CoreLen(t.text)..] }

  datatype Span = Span(header: Header, start: nat, end: nat)

  /** The spans of tables laid out from offset on. */
  function SpansFrom(offset: nat, ts: seq<Table>): (r: seq<Span>)
    ensures |r| == |ts|
    decreases |ts|
  {
    if ts == [] then []
    else [Span(ts[0].header, offset, offset + CoreLen(ts[0].text))] + SpansFrom(offset + |ts[0].text|, ts[1..])
  }

  function SpansOf(r: Scan): Result<seq<Span>, ScanError> {
    match r
    case Err(e) => Err(e)
    case Ok(l) => Ok(SpansFrom(|l.pre|, l.tables))
  }

  function Text(ts: seq<Table>): string {
    if ts == [] then "" else ts[0].text + Text(ts[1..])
  }

  // ---- The loops of the source --------------------------------------------

  /** scanLine: an index loop over one line. A trailing escape may push j past the end. */
  method ScanLineLoop(line: string, s0: LineState) returns (s: LineState)
    ensures s == ScanLine(line, s0)
  {
    s := s0;
    var j := 0;
    while j < |line|
      invariant ScanLine(Drop(line, j), s) == ScanLine(line, s0)
      decreases |line| - j
    {
      var b := line[j..];
      if s.multi.Some? {
        if Quotes(s.multi.value) <= b {
          s, j := s.(multi := None), j + 3;
        } else if s.multi.value.Basic? && line[j] == '\\' {
          j := j + 2;
        } else {
          j := j + 1;
        }
      } else if line[j] == '#' {
        return;
      } else if Quotes(Basic) <= b {
        s, j := s.(multi := Some(Basic)), j + 3;
      } else if Quotes(Literal) <= b {
        s, j := s.(multi := Some(Literal)), j + 3;
      } else if line[j] == '"' {
        j := SkipBasic(line, j + 1);
      } else if line[j] == '\'' {
        j := SkipLiteral(line, j + 1);
      } else if line[j] == '[' || line[j] == '{' {
        s, j := s.(depth := s.depth + 1), j + 1;
      } else if line[j] == ']' || line[j] == '}' {
        s, j := s.(depth := s.depth - 1), j + 1;
      } else {
        j := j + 1;
      }
    }
  }

  lemma AfterBasicAt(line: string, j: nat)
    requires j < |line|
    ensures AfterBasic(line[j..]) ==
            if line[j] == '\\' then AfterBasic(Drop(line, j + 2))
            else if line[j] == '"' then Drop(line, j + 1)
            else AfterBasic(Drop(line, j + 1))
  {
    var b := line[j..];
    assert b[1..] == line[j + 1..] && Drop(b, 2) == Drop(line, j + 2);
  }

  method SkipBasic(line: string, start: nat) returns (j: nat)
    requires start <= |line|
    ensures start <= j && Drop(line, j) == AfterBasic(line[start..])
  {
    j := start;
    assert AfterBasic("") == "";
    hide AfterBasic;
    while j < |line|
      invariant start <= j && AfterBasic(Drop(line, j)) == AfterBasic(line[start..])
      decreases |line| - j
    {
      AfterBasicAt(line, j);
      if line[j] == '\\' {
        j := j + 2;
      } else if line[j] == '"' {
        return j + 1;
      } else {
        j := j + 1;
      }
    }
  }

  method SkipLiteral(line: string, start: nat) returns (j: nat)
    requires start <= |line|
    ensures start <= j && Drop(line, j) == AfterLiteral(line[start..])
  {
    j := start;
    while j < |line| && line[j] != '\''
      invariant start <= j <= |line| && AfterLiteral(line[j..]) == AfterLiteral(line[start..])
    {
      j := j + 1;
    }
    j := j + 1;
  }

  method TrimAttachedLoop(src: string, start: nat, end0: nat) returns (end: nat)
    requires start <= end0 <= |src|
    ensures end == TrimAttached(src, start, end0)
  {
    end := end0;
    while end > start
      invariant start <= end <= end0 && TrimAttached(src, start, end) == TrimAttached(src, start, end0)
    {
      var k := LineStart(src, end - 1);
      if k <= start || !AttachedAt(src, k, end) {
        break;
      }
      end := k;
    }
  }

  /** parseTableHeader: one pass over the header, collecting segments. */
  method ParseHeaderLoop(line: string, uq: Unquote) returns (r: Option<Header>)
    ensures r == ParseHeader(line, uq)
  {
    var b := Drop(line, 1);
    var aot := b != "" && b[0] == '[';
    if aot {
      b := b[1..];
    }
    ghost var all := ParsePath(b, true, [], uq);
    var key, expectSegment := [], true;
    while true
      invariant ParsePath(b, expectSegment, key, uq) == all
      decreases |b|
    {
      b := TrimPad(b);
      if b == "" {
        return None;
      }
      if b[0] == ']' {
        if expectSegment {
          return None;
        }
        break;
      }
      if !expectSegment {
        if b[0] != '.' {
          return None;
        }
        b, expectSegment := b[1..], true;
      } else {
        var seg := ParseSegment(b, uq);
        if seg.None? {
          return None;
        }
        key, b, expectSegment := key + [seg.value.0], seg.value.1, false;
      }
    }
    b := b[1..];
    if aot {
      if b == "" || b[0] != ']' {
        return None;
      }
      b := b[1..];
    }
    r := if PadOrComment(b) then Some(Header(key, aot)) else None;
  }

  // ---- scanTOMLTables -----------------------------------------------------

  /** What a scan of the rest r means once pre, done and a still open table precede it. */
  ghost function Resume(pre: string, done: seq<Table>, open: Option<Table>, r: Scan): Scan {
    if r.Err? then r
    else if open.None? then Ok(Layout(pre + r.value.pre, done + r.value.tables))
    else Ok(Layout(pre, done + [open.value.(text := open.value.text + r.value.pre)] + r.value.tables))
  }

  lemma {:induction false} LineStartShift(src: string, start: nat, i: nat, hi: nat)
    requires start <= i <= hi <= |src|
    ensures LineStart(src[start..hi], i - start) == (if LineStart(src, i) <= start then 0 else LineStart(src, i) - start)
    decreases i
  {
    if start < i {
      assert src[start..hi][i - start - 1] == src[i - 1];
      if src[i - 1] != '\n' {
        LineStartShift(src, start, i - 1, hi);
      }
    }
  }

  lemma AttachedSlice(src: string, start: nat, hi: nat, k: nat, end: nat)
    requires start <= k <= end <= hi <= |src|
    ensures AttachedAt(src[start..hi], k - start, end - start) == AttachedAt(src, k, end)
  {
    hide Attached;
    SliceSlice(src, start, hi, k - start, end - start);
  }

  lemma {:induction false} TrimAttachedShift(src: string, start: nat, end: nat, hi: nat)
    requires start <= end <= hi <= |src|
    ensures TrimAttached(src, start, end) == start + TrimAttached(src[start..hi], 0, end - start)
    decreases end
  {
    hide AttachedAt, LineStart;
    if start < end {
      var k := LineStart(src, end - 1);
      LineStartShift(src, start, end - 1, hi);
      if k > start {
        AttachedSlice(src, start, hi, k, end);
        TrimAttachedShift(src, start, k, hi);
      }
    }
  }

  lemma {:induction false} TextAppend(a: seq<Table>, b: seq<Table>)
    ensures Text(a + b) == Text(a) + Text(b)
  {
    if a == [] {
      assert a + b == b;
    } else {
      assert (a + b)[1..] == a[1..] + b;
      TextAppend(a[1..], b);
    }
  }

  lemma {:induction false} SpansAppend(offset: nat, a: seq<Table>, b: seq<Table>)
    ensures SpansFrom(offset, a + b) == SpansFrom(offset, a) + SpansFrom(offset + |Text(a)|, b)
    decreases |a|
  {
    hide CoreLen;
    if a == [] {
      assert a + b == b;
    } else {
      assert (a + b)[1..] == a[1..] + b;
      SpansAppend(offset + |a[0].text|, a[1..], b);
    }
  }

  lemma SpansOne(offset: nat, done: seq<Table>, t: Table)
    ensures SpansFrom(offset, done + [t])
         == SpansFrom(offset, done)
            + [Span(t.header, offset + |Text(done)|, offset + |Text(done)| + CoreLen(t.text))]
  {
    hide CoreLen;
    SpansAppend(offset, done, [t]);
    assert SpansFrom(offset + |Text(done)| + |t.text|, []) == [];
  }

  /** pre, done and open account for src[..pos], and spans is the scanner's list so far:
      the last span still ends at the end of the file. */
  ghost predicate Tracks(src: string, pos: nat, spans: seq<Span>, pre: string, done: seq<Table>, open: Option<Table>)
    requires pos <= |src|
  {
    if open.None? then spans == [] && done == [] && pre == src[..pos]
    else
      var start := |pre| + |Text(done)|;
      && start < pos && open.value.text == src[start..pos]
      && spans == SpansFrom(|pre|, done) + [Span(open.value.header, start, |src|)]
  }

  function WithEnd(spans: seq<Span>, end: nat): seq<Span>
    requires spans != []
  {
    spans[|spans| - 1 := spans[|spans| - 1].(end := end)]
  }

  /** Patching the last end closes the open table. */
  lemma {:induction false} CloseOpen(src: string, pos: nat, spans: seq<Span>, pre: string, done: seq<Table>, open: Option<Table>)
    requires pos <= |src| && Tracks(src, pos, spans, pre, done, open) && open.Some?
    ensures var start := |pre| + |Text(done)|; spans != [] && spans[|spans| - 1].start == start && start < pos
    ensures WithEnd(spans, TrimAttached(src, |pre| + |Text(done)|, pos)) == SpansFrom(|pre|, done + [open.value])
    ensures |pre| + |Text(done + [open.value])| == pos
  {
    hide TrimAttached;
    var start := |pre| + |Text(done)|;
    TrimAttachedShift(src, start, pos, pos);
    SpansOne(|pre|, done, open.value);
    TextAppend(done, [open.value]);
    assert Text([open.value]) == open.value.text + Text([]);
  }

  lemma ResumeHeader(pre: string, done: seq<Table>, open: Option<Table>, line: string, h: Header, r: Scan)
    requires open.None? ==> done == []
    ensures Resume(pre, done, open, WithHeader(line, h, r))
         == Resume(pre, Closed(done, open), Some(Table(h, line)), r)
  {
    if r.Ok? {
      var next := [Table(h, line + r.value.pre)] + r.value.tables;
      if open.Some? {
        assert open.value.text + "" == open.value.text;
        assert done + [open.value] + next == done + [open.value] + [next[0]] + r.value.tables;
      } else {
        assert pre + "" == pre && done + next == done + [next[0]] + r.value.tables;
      }
    }
  }

  lemma ResumeLine(pre: string, done: seq<Table>, open: Option<Table>, line: string, r: Scan)
    ensures Resume(pre, done, open, WithLine(line, r))
         == if open.Some? then Resume(pre, done, Some(open.value.(text := open.value.text + line)), r)
            else Resume(pre + line, done, None, r)
  {
    if r.Ok? {
      if open.Some? {
        assert open.value.text + (line + r.value.pre) == open.value.text + line + r.value.pre;
      } else {
        assert pre + (line + r.value.pre) == pre + line + r.value.pre;
      }
    }
  }

  lemma LineAt(src: string, pos: nat)
    requires pos < |src|
    ensures var n := LineLen(src[pos..]);
      && pos + n <= |src|
      && src[pos..][..n] == src[pos..pos + n] && src[pos..][n..] == src[pos + n..]
  {
    hide LineLen;
    SliceSlice(src, pos, |src|, 0, LineLen(src[pos..]));
    assert src[pos..|src|] == src[pos..];
  }

  lemma TracksHeader(src: string, pos: nat, next: nat, pre: string, done: seq<Table>, h: Header)
    requires pos < next <= |src| && |pre| + |Text(done)| == pos
    ensures Tracks(src, next, SpansFrom(|pre|, done) + [Span(h, pos, |src|)], pre, done, Some(Table(h, src[pos..next])))
  {
    hide SpansFrom, Text, CoreLen;
    var open := Some(Table(h, src[pos..next]));
    assert open.value.text == src[|pre| + |Text(done)|..next];
  }

  lemma TracksLine(src: string, pos: nat, next: nat, spans: seq<Span>, pre: string, done: seq<Table>, open: Option<Table>)
    requires pos < next <= |src| && Tracks(src, pos, spans, pre, done, open)
    ensures if open.Some?
      then Tracks(src, next, spans, pre, done, Some(open.value.(text := open.value.text + src[pos..next])))
      else Tracks(src, next, spans, pre + src[pos..next], done, None)
  {
    var start := if open.Some? then |pre| + |Text(done)| else 0;
    assert src[start..pos] + src[pos..next] == src[start..next];
  }

  lemma EmptyTracks(src: string, pos: nat, spans: seq<Span>, pre: string, done: seq<Table>, open: Option<Table>)
    requires pos <= |src| && Tracks(src, pos, spans, pre, done, open) && open.None?
    ensures done == [] && SpansFrom(|pre|, []) == [] && Text([]) == "" && |pre| == pos
  {
  }

  function Closed(done: seq<Table>, open: Option<Table>): seq<Table> {
    if open.Some? then done + [open.value] else done
  }

  lemma ResumeEnd(pre: string, done: seq<Table>, open: Option<Table>)
    ensures Resume(pre, done, open, Ok(Layout("", []))) == Ok(Layout(pre, Closed(done, open)))
  {
    assert pre + "" == pre && done + [] == done;
    if open.Some? {
      assert open.value.text + "" == open.value.text;
      assert done + [open.value] + [] == done + [open.value];
    }
  }

  lemma ScanEnd(src: string, s: LineState, uq: Unquote)
    ensures Sections(src[|src|..], s, uq) == AtEnd(s)
  {
  }

  lemma ResumeErr(pre: string, done: seq<Table>, open: Option<Table>, e: ScanError)
    ensures Resume(pre, done, open, Err(e)) == Err(e)
  {
  }

  /** The scanner has read src[..pos] and stands in the given state with the given spans. */
  ghost predicate Progress(src: string, pos: nat, state: LineState, spans: seq<Span>, uq: Unquote) {
    && pos <= |src|
    && exists pre: string, done: seq<Table>, open: Option<Table> ::
      && Tracks(src, pos, spans, pre, done, open)
      && Sections(src, Top, uq) == Resume(pre, done, open, Sections(src[pos..], state, uq))
  }

  lemma ScanStart(src: string, uq: Unquote)
    ensures Progress(src, 0, Top, [], uq)
  {
    hide Sections;
    var all := Sections(src, Top, uq);
    assert all.Ok? ==> "" + all.value.pre == all.value.pre && [] + all.value.tables == all.value.tables;
    assert src[0..] == src && Tracks(src, 0, [], "", [], None);
    assert all == Resume("", [], None, Sections(src[0..], Top, uq));
  }

  /** The end of the line that starts at pos, its terminator included. */
  function NextLine(src: string, pos: nat): (next: nat)
    requires pos < |src|
    ensures pos < next <= |src|
  {
    pos + LineLen(src[pos..])
  }

  /** The spans once the last of them has been closed at pos. */
  function ClosedAt(src: string, spans: seq<Span>, pos: nat): seq<Span>
    requires spans != [] ==> spans[|spans| - 1].start <= pos <= |src|
  {
    if spans == [] then [] else WithEnd(spans, TrimAttached(src, spans[|spans| - 1].start, pos))
  }

  lemma {:induction false} LastStart(src: string, pos: nat, state: LineState, spans: seq<Span>, uq: Unquote)
    requires Progress(src, pos, state, spans, uq)
    ensures spans != [] ==> spans[|spans| - 1].start < pos
  {
    hide Sections, Resume, SpansFrom;
    var pre, done, open :| Tracks(src, pos, spans, pre, done, open);
  }

  lemma {:induction false} ProgressHeader(src: string, pos: nat, state: LineState, spans: seq<Span>, uq: Unquote)
    requires Progress(src, pos, state, spans, uq) && pos < |src|
    requires spans != [] ==> spans[|spans| - 1].start < pos
    requires state == Top && LooksLikeHeader(Chomp(src[pos..NextLine(src, pos)]))
    ensures var next := NextLine(src, pos);
      var text := Chomp(src[pos..next]);
      var s' := ScanLine(text, state);
      match ParseHeader(TrimPad(text), uq)
      case None => Sections(src, Top, uq) == Err(BadHeader)
      case Some(h) =>
        if s'.depth < 0 then Sections(src, Top, uq) == Err(Unbalanced)
        else Progress(src, next, s', ClosedAt(src, spans, pos) + [Span(h, pos, |src|)], uq)
  {
    hide CoreLen, ScanLine, ParseHeader, TrimAttached, SpansFrom, TrimPad, LineLen, Text, Sections, Resume, Tracks,
      WithHeader, WithLine, Chomp, LooksLikeHeader;
    var pre, done, open :| Tracks(src, pos, spans, pre, done, open)
      && Sections(src, Top, uq) == Resume(pre, done, open, Sections(src[pos..], state, uq));
    LineAt(src, pos);
    Unfold(src[pos..], state, uq);
    var next := NextLine(src, pos);
    var text := Chomp(src[pos..next]);
    var s' := ScanLine(text, state);
    match ParseHeader(TrimPad(text), uq)
    case None => ResumeErr(pre, done, open, BadHeader);
    case Some(h) =>
      if s'.depth < 0 {
        ResumeErr(pre, done, open, Unbalanced);
      } else {
        CloseSpans(src, pos, spans, pre, done, open);
        ResumeHeader(pre, done, open, src[pos..next], h, Sections(src[next..], s', uq));
        TracksHeader(src, pos, next, pre, Closed(done, open), h);
      }
  }

  lemma {:induction false} CloseSpans(src: string, pos: nat, spans: seq<Span>, pre: string, done: seq<Table>, open: Option<Table>)
    requires pos <= |src| && Tracks(src, pos, spans, pre, done, open)
    requires spans != [] ==> spans[|spans| - 1].start < pos
    ensures ClosedAt(src, spans, pos) == SpansFrom(|pre|, Closed(done, open))
    ensures |pre| + |Text(Closed(done, open))| == pos
    ensures open.None? ==> done == []
  {
    hide TrimAttached, CoreLen;
    if open.Some? {
      CloseOpen(src, pos, spans, pre, done, open);
    } else {
      EmptyTracks(src, pos, spans, pre, done, open);
    }
  }

  lemma {:induction false} ProgressLine(src: string, pos: nat, state: LineState, spans: seq<Span>, uq: Unquote)
    requires Progress(src, pos, state, spans, uq) && pos < |src|
    requires !(state == Top && LooksLikeHeader(Chomp(src[pos..NextLine(src, pos)])))
    ensures var next := NextLine(src, pos);
      var s' := ScanLine(Chomp(src[pos..next]), state);
      if s'.depth < 0 then Sections(src, Top, uq) == Err(Unbalanced)
      else Progress(src, next, s', spans, uq)
  {
    hide CoreLen, ScanLine, ParseHeader, TrimAttached, SpansFrom, TrimPad, LineLen, Text, Sections, Resume, Tracks,
      WithHeader, WithLine, Chomp, LooksLikeHeader;
    var pre, done, open :| Tracks(src, pos, spans, pre, done, open)
      && Sections(src, Top, uq) == Resume(pre, done, open, Sections(src[pos..], state, uq));
    LineAt(src, pos);
    Unfold(src[pos..], state, uq);
    ResumeErr(pre, done, open, Unbalanced);
    var next := NextLine(src, pos);
    ResumeLine(pre, done, open, src[pos..next], Sections(src[next..], ScanLine(Chomp(src[pos..next]), state), uq));
    TracksLine(src, pos, next, spans, pre, done, open);
  }

  lemma {:induction false} ProgressEnd(src: string, state: LineState, spans: seq<Span>, uq: Unquote)
    requires Progress(src, |src|, state, spans, uq)
    requires spans != [] ==> spans[|spans| - 1].start < |src|
    ensures SpansOf(Sections(src, Top, uq))
         == match AtEnd(state) case Err(e) => Err(e) case Ok(_) => Ok(ClosedAt(src, spans, |src|))
  {
    hide CoreLen, TrimAttached, SpansFrom, Text, Sections, Resume, Tracks;
    var pre, done, open :| Tracks(src, |src|, spans, pre, done, open)
      && Sections(src, Top, uq) == Resume(pre, done, open, Sections(src[|src|..], state, uq));
    ScanEnd(src, state, uq);
    match AtEnd(state)
    case Err(e) => ResumeErr(pre, done, open, e);
    case Ok(_) =>
      ResumeEnd(pre, done, open);
      CloseSpans(src, |src|, spans, pre, done, open);
  }

  /** scanTOMLTables: one pass over the lines; a table's end is patched in place when the
      next header, or the end of the file, is reached. */
  method ScanTables(src: string, uq: Unquote) returns (r: Result<seq<Span>, ScanError>)
    ensures r == SpansOf(Sections(src, Top, uq))
  {
    hide ScanLine, ParseHeader, TrimAttached, TrimPad, Sections, Progress, NextLine, LooksLikeHeader, Chomp;
    var spans: seq<Span> := [];
    var state, pos := Top, 0;
    ScanStart(src, uq);
    while pos < |src|
      invariant 0 <= pos <= |src| && Progress(src, pos, state, spans, uq)
    {
      var next := NextLine(src, pos);
      var text := Chomp(src[pos..next]);
      LastStart(src, pos, state, spans, uq);
      if state == Top && LooksLikeHeader(text) {
        ProgressHeader(src, pos, state, spans, uq);
        var h := ParseHeaderLoop(TrimPad(text), uq);
        if h.None? {
          return Err(BadHeader);
        }
        if spans != [] {
          var end := TrimAttachedLoop(src, spans[|spans| - 1].start, pos);
          spans := WithEnd(spans, end);
        }
        spans := spans + [Span(h.value, pos, |src|)];
      } else {
        ProgressLine(src, pos, state, spans, uq);
      }
      state := ScanLineLoop(text, state);
      if state.depth < 0 {
        return Err(Unbalanced);
      }
      pos := next;
    }
    LastStart(src, pos, state, spans, uq);
    ProgressEnd(src, state, spans, uq);
    if state.multi.Some? {
      return Err(OpenString);
    }
    if state.depth != 0 {
      return Err(OpenBracket);
    }
    if spans != [] {
      var end := TrimAttachedLoop(src, spans[|spans| - 1].start, |src|);
      spans := WithEnd(spans, end);
    }
    r := Ok(spans);
  }
}
