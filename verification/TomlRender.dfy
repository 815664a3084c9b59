/** Managed entries, their TOML form, and why rendering and reading undo each other.
    Model of the rendering half of internal/agent/harness/tomledit.go and of Entry in
    internal/agent/harness/harness.go. Basic strings: TOML v1.0.0, section "String". */
module TomlRender {
  import opened Prelude
  import opened TomlScan
  import opened TomlCut

  // ---- Entries ------------------------------------------------------------

  /** A string map, listed in key order: the order the writer renders it in. */
  type Pairs = seq<(string, string)>

  datatype Entry = Entry(
    name: string, transport: string, url: string, headers: Pairs,
    command: string, args: seq<string>, env: Pairs)

  predicate IsBareKey(s: string) {
    s != "" && forall i | 0 <= i < |s| :: IsBareKeyChar(s[i])
  }

  predicate ValidServerName(name: string) {
    IsBareKey(name) && name[0] != '-' && name[0] != '_'
  }

  /** Upper case as far as it can produce an ASCII letter: two non-ASCII letters do. */
  function Upper(c: char): char {
    if 'a' <= c <= 'z' then 'A' + (c - 'a')
    else if c == '\U{0131}' then 'I' else if c == '\U{017F}' then 'S' else c
  }

  predicate Contains(s: string, sub: string) {
    exists i | 0 <= i <= |s| :: sub <= s[i..]
  }

  predicate LooksSecret(key: string) {
    var upper := seq(|key|, i requires 0 <= i < |key| => Upper(key[i]));
    || Contains(upper, "TOKEN") || Contains(upper, "SECRET") || Contains(upper, "PASSWORD")
    || Contains(upper, "CREDENTIAL") || Contains(upper, "BEARER")
  }

  predicate ValidEntry(e: Entry) {
    && ValidServerName(e.name)
    && if e.transport == "http" then !Blank(e.url) && e.command == "" && e.args == []
       else if e.transport == "stdio" then
         !Blank(e.command) && Blank(e.url) && forall i | 0 <= i < |e.env| :: !LooksSecret(e.env[i].0)
       else false
  }

  // ---- Quoting ------------------------------------------------------------

  function HexChar(d: nat): (c: char)
    requires d < 0x10
    ensures HexValue(c) == Some(d) && c != '\n' && c != '"' && c != '\\' && c != '\''
  {
    if d < 10 then '0' + d as char else 'A' + (d - 10) as char
  }

  /** The last width hexadecimal digits of n. */
  function Hex(n: nat, width: nat): (s: string)
    ensures |s| == width
    ensures forall i | 0 <= i < |s| :: HexValue(s[i]).Some?
  {
    if width == 0 then "" else Hex(n / 0x10, width - 1) + [HexChar(n % 0x10)]
  }

  function Escape(c: char): (s: string)
    ensures s != "" && s[0] != '"' && '\n' !in s
  {
    if c == '"' then "\\\""
    else if c == '\\' then "\\\\"
    else if c == '\U{0008}' then "\\b"
    else if c == '\t' then "\\t"
    else if c == '\n' then "\\n"
    else if c == '\U{000C}' then "\\f"
    else if c == '\r' then "\\r"
    else if c == '\U{FFFD}' || c < ' ' || c == '\U{007F}' then "\\u" + Hex(c as int, 4)
    else [c]
  }

  function QuoteBody(s: string): string {
    if s == "" then "" else Escape(s[0]) + QuoteBody(s[1..])
  }

  function Quote(s: string): string {
    "\"" + QuoteBody(s) + "\""
  }

  /** quoteTOML: one pass over the runes into a buffer. */
  method QuoteLoop(s: string) returns (b: string)
    ensures b == Quote(s)
  {
    hide Escape;
    b := "\"";
    for i := 0 to |s|
      invariant b + QuoteBody(s[i..]) == "\"" + QuoteBody(s)
    {
      assert s[i..][1..] == s[i + 1..];
      assert b + QuoteBody(s[i..]) == b + Escape(s[i]) + QuoteBody(s[i + 1..]);
      b := b + Escape(s[i]);
    }
    assert b + QuoteBody(s[|s|..]) == b;
    b := b + "\"";
  }

  // ---- Reading a basic string back ----------------------------------------

  function HexValue(c: char): Option<nat> {
    if '0' <= c <= '9' then Some((c - '0') as nat)
    else if 'A' <= c <= 'F' then Some((c - 'A') as nat + 10)
    else if 'a' <= c <= 'f' then Some((c - 'a') as nat + 10)
    else None
  }

  function HexNumber(s: string): Option<nat> {
    if s == "" then Some(0)
    else
      match (HexNumber(s[..|s| - 1]), HexValue(s[|s| - 1]))
      case (Some(hi), Some(lo)) => Some(hi * 0x10 + lo)
      case _ => None
  }

  predicate IsScalarValue(n: nat) {
    n < 0xD800 || 0xE000 <= n < 0x110000
  }

  /** The character an escape denotes and what follows it; b starts after the backslash. */
  function ReadEscape(b: string): (r: Option<(char, string)>)
    ensures r.Some? ==> |r.value.1| < |b|
  {
    if b == "" then None
    else if b[0] == 'b' then Some(('\U{0008}', b[1..]))
    else if b[0] == 't' then Some(('\t', b[1..]))
    else if b[0] == 'n' then Some(('\n', b[1..]))
    else if b[0] == 'f' then Some(('\U{000C}', b[1..]))
    else if b[0] == 'r' then Some(('\r', b[1..]))
    else if b[0] == '"' then Some(('"', b[1..]))
    else if b[0] == '\\' then Some(('\\', b[1..]))
    else
      var width := if b[0] == 'u' then 4 else 8;
      if (b[0] != 'u' && b[0] != 'U') || |b| < 1 + width then None
      else
        match HexNumber(b[1..1 + width])
        case None => None
        case Some(n) => if IsScalarValue(n) then Some((n as char, b[1 + width..])) else None
  }

  /** TOML v1.0.0, basic strings: the value and what follows the closing quote. A control
      character other than tab may not appear unescaped. */
  function ReadBasic(b: string): (r: Option<(string, string)>)
    ensures r.Some? ==> |r.value.1| < |b|
    decreases |b|
  {
    if b == "" then None
    else if b[0] == '"' then Some(("", b[1..]))
    else if b[0] == '\\' then
      match ReadEscape(b[1..])
      case None => None
      case Some((c, rest)) => Prepend(c, ReadBasic(rest))
    else if (b[0] < ' ' && b[0] != '\t') || b[0] == '\U{007F}' then None
    else Prepend(b[0], ReadBasic(b[1..]))
  }

  function Prepend(c: char, r: Option<(string, string)>): Option<(string, string)> {
    match r
    case None => None
    case Some((s, rest)) => Some(([c] + s, rest))
  }

  ghost predicate Fits(n: nat, width: nat) {
    if width == 0 then n == 0 else Fits(n / 0x10, width - 1)
  }

  lemma {:induction false} HexReadsBack(n: nat, width: nat)
    requires Fits(n, width)
    ensures HexNumber(Hex(n, width)) == Some(n)
  {
    if width > 0 {
      HexReadsBack(n / 0x10, width - 1);
      assert Hex(n, width)[..width - 1] == Hex(n / 0x10, width - 1);
    }
  }

  lemma FitsFour(n: nat)
    requires n < 0x10000
    ensures Fits(n, 4)
  {
    assert Fits(n / 0x1000 / 0x10, 0);
    assert Fits(n / 0x100, 2) by { assert n / 0x100 / 0x10 == n / 0x1000; }
    assert n / 0x10 / 0x10 == n / 0x100;
  }

  lemma ReadUnicode(n: nat, rest: string)
    requires n < 0x10000 && IsScalarValue(n)
    ensures ReadEscape("u" + Hex(n, 4) + rest) == Some((n as char, rest))
  {
    hide Hex, HexNumber;
    var b := "u" + Hex(n, 4) + rest;
    FitsFour(n);
    HexReadsBack(n, 4);
    assert b[1..5] == Hex(n, 4) && b[5..] == rest;
  }

  lemma ReadShort(c: char, e: char, rest: string)
    requires Escape(c) == "\\" + [e]
    ensures ReadEscape([e] + rest) == Some((c, rest))
  {
    hide Hex, HexNumber;
    var b := [e] + rest;
    assert Escape(c)[1] == e && b[0] == e && b[1..] == rest;
  }

  lemma BackslashStep(b: string)
    ensures ReadBasic("\\" + b) == match ReadEscape(b) case None => None case Some((c, rest)) => Prepend(c, ReadBasic(rest))
  {
    hide ReadEscape;
    assert ("\\" + b)[1..] == b;
  }

  lemma ReadOne(c: char, rest: string)
    ensures ReadBasic(Escape(c) + rest) == Prepend(c, ReadBasic(rest))
  {
    hide Hex, ReadEscape, HexNumber;
    var e := Escape(c);
    if |e| == 6 {
      hide ReadBasic;
      assert e + rest == "\\" + ("u" + Hex(c as int, 4) + rest);
      ReadUnicode(c as int, rest);
      BackslashStep("u" + Hex(c as int, 4) + rest);
    } else if |e| == 2 {
      hide ReadBasic;
      assert e == "\\" + [e[1]] && e + rest == "\\" + ([e[1]] + rest);
      ReadShort(c, e[1], rest);
      BackslashStep([e[1]] + rest);
    } else {
      assert (e + rest)[1..] == rest;
    }
  }

  /** Reading by the basic-string rules gives back every quoted string, and stops right
      after it. */
  lemma {:induction false} QuoteReadsBack(s: string, rest: string)
    ensures ReadBasic((Quote(s) + rest)[1..]) == Some((s, rest))
  {
    if s == "" {
      assert (Quote(s) + rest)[1..] == "\"" + rest;
    } else {
      var tail := Quote(s[1..]) + rest;
      assert (Quote(s) + rest)[1..] == Escape(s[0]) + tail[1..];
      QuoteReadsBack(s[1..], rest);
      ReadOne(s[0], tail[1..]);
      assert [s[0]] + s[1..] == s;
    }
  }

  // ---- Rendered text is invisible to the scanner --------------------------

  /** A character the scanner steps over in any state. */
  predicate Plain(c: char) {
    c !in ['#', '"', '\'', '\\', '[', ']', '{', '}']
  }

  predicate AllPlain(s: string) {
    forall i | 0 <= i < |s| :: Plain(s[i])
  }

  lemma {:induction false} PlainNeutral(p: string, rest: string, s: LineState)
    requires AllPlain(p) && s.multi.None?
    ensures ScanLine(p + rest, s) == ScanLine(rest, s)
  {
    if p == "" {
      assert p + rest == rest;
    } else {
      assert (p + rest)[1..] == p[1..] + rest;
      PlainNeutral(p[1..], rest, s);
    }
  }

  lemma {:induction false} HexSkipped(h: string, rest: string)
    requires forall i | 0 <= i < |h| :: HexValue(h[i]).Some?
    ensures AfterBasic(h + rest) == AfterBasic(rest)
  {
    if h == "" {
      assert h + rest == rest;
    } else {
      assert (h + rest)[1..] == h[1..] + rest;
      HexSkipped(h[1..], rest);
    }
  }

  lemma EscapeSkipped(c: char, rest: string)
    ensures AfterBasic(Escape(c) + rest) == AfterBasic(rest)
  {
    var b := Escape(c) + rest;
    if |Escape(c)| == 6 {
      assert Drop(b, 2) == Hex(c as int, 4) + rest;
      HexSkipped(Hex(c as int, 4), rest);
    } else if |Escape(c)| == 2 {
      assert Drop(b, 2) == rest;
    } else {
      assert b[1..] == rest;
    }
  }

  lemma {:induction false} BodySkipped(s: string, rest: string)
    ensures AfterBasic(QuoteBody(s) + "\"" + rest) == rest
  {
    hide Escape;
    if s == "" {
      assert (QuoteBody(s) + "\"" + rest)[1..] == rest;
    } else {
      var tail := QuoteBody(s[1..]) + "\"" + rest;
      assert QuoteBody(s) + "\"" + rest == Escape(s[0]) + tail;
      EscapeSkipped(s[0], tail);
      BodySkipped(s[1..], rest);
    }
  }

  /** A quoted string leaves the scanner where it was, at any bracket depth, unless an empty
      one is followed by a third quote. */
  lemma QuoteNeutral(s: string, rest: string, st: LineState)
    requires st.multi.None? && (s == "" ==> rest == "" || rest[0] != '"')
    ensures ScanLine(Quote(s) + rest, st) == ScanLine(rest, st)
  {
    hide Escape, AfterBasic;
    var b := Quote(s) + rest;
    assert b[1..] == QuoteBody(s) + "\"" + rest;
    BodySkipped(s, rest);
    assert b[0] == '"' && !(Quotes(Basic) <= b) by {
      if s == "" {
        assert b == "\"\"" + rest;
        assert rest != "" ==> b[2] == rest[0];
      } else {
        assert b[1] == Escape(s[0])[0];
      }
    }
    assert Token(b, st) == (rest, st);
  }

  lemma {:induction false} LiteralSkipped(s: string, rest: string)
    requires '\'' !in s
    ensures AfterLiteral(s + "'" + rest) == rest
  {
    if s == "" {
      assert s + "'" + rest == "'" + rest;
    } else {
      assert (s + "'" + rest)[1..] == s[1..] + "'" + rest;
      LiteralSkipped(s[1..], rest);
    }
  }

  /** A literal string hides whatever it holds, brackets, comment signs and backslashes included,
      unless an empty one is followed by a third quote. */
  lemma LiteralNeutral(s: string, rest: string, st: LineState)
    requires st.multi.None? && '\'' !in s && (s == "" ==> rest == "" || rest[0] != '\'')
    ensures ScanLine("'" + s + "'" + rest, st) == ScanLine(rest, st)
  {
    hide AfterLiteral;
    var b := "'" + s + "'" + rest;
    assert b[1..] == s + "'" + rest;
    LiteralSkipped(s, rest);
    assert b[0] == '\'' && !(Quotes(Literal) <= b) by {
      if s == "" {
        assert b == "''" + rest;
        assert rest != "" ==> b[2] == rest[0];
      } else {
        assert b[1] == s[0];
      }
    }
    assert !(Quotes(Basic) <= b) by { assert Quotes(Basic)[0] == '"'; }
    assert Token(b, st) == (rest, st);
  }

  predicate NoBreak(s: string) {
    forall i | 0 <= i < |s| :: s[i] != '\n'
  }

  lemma {:induction false} QuoteNoBreak(s: string)
    ensures NoBreak(Quote(s))
  {
    hide Escape;
    if s != "" {
      QuoteNoBreak(s[1..]);
      var b := Quote(s[1..]);
      assert forall i | 0 <= i < |QuoteBody(s[1..])| :: QuoteBody(s[1..])[i] == b[i + 1];
      assert forall i | 0 <= i < |Escape(s[0])| :: Escape(s[0])[i] in Escape(s[0]);
    }
  }

  /** A whole line the scanner reads at top level without noticing: not a header, not a
      comment, not blank, no line break in it, and not ending in white space. */
  ghost predicate Neutral(text: string) {
    && text != "" && NoBreak(text) && !IsTail(text[|text| - 1])
    && ScanLine(text, Top) == Top && !LooksLikeHeader(text) && !Attached(text)
  }

  /** A key is written bare when it can be. */
  function KeyText(k: string): string {
    if IsBareKey(k) then k else Quote(k)
  }

  function PairLine(k: string, v: string): string {
    KeyText(k) + " = " + Quote(v)
  }

  lemma BarePlain(k: string)
    requires IsBareKey(k)
    ensures AllPlain(k) && NoBreak(k)
  {
    assert forall i | 0 <= i < |k| :: IsBareKeyChar(k[i]);
  }

  lemma KeyNeutral(k: string, rest: string, st: LineState)
    requires st.multi.None? && (rest == "" || rest[0] != '"')
    ensures ScanLine(KeyText(k) + rest, st) == ScanLine(rest, st) && NoBreak(KeyText(k))
  {
    if IsBareKey(k) {
      BarePlain(k);
      PlainNeutral(k, rest, st);
    } else {
      QuoteNeutral(k, rest, st);
      QuoteNoBreak(k);
    }
  }

  /** A rendered key/value line leaves the scanner's state unchanged. */
  lemma PairNeutral(k: string, v: string)
    ensures Neutral(PairLine(k, v))
  {
    hide ScanLine, Escape, QuoteBody;
    var line := PairLine(k, v);
    var rest := " = " + Quote(v);
    assert line == KeyText(k) + rest;
    KeyNeutral(k, rest, Top);
    PlainNeutral(" = ", Quote(v), Top);
    assert Quote(v) + "" == Quote(v);
    QuoteNeutral(v, "", Top);
    ScanNothing(Top);
    QuoteNoBreak(v);
    assert line[0] == KeyText(k)[0];
    assert line[|line| - 1] == '"';
    FirstCharDecides(line);
  }

  lemma ScanNothing(s: LineState)
    ensures ScanLine("", s) == s
  {
  }

  lemma FirstCharDecides(line: string)
    requires line != "" && !IsSpace(line[0]) && line[0] != '[' && line[0] != '#'
    ensures !LooksLikeHeader(line) && !Attached(line)
  {
  }

  function Quoted(args: seq<string>): seq<string> {
    seq(|args|, i requires 0 <= i < |args| => Quote(args[i]))
  }

  function ArgsLine(args: seq<string>): string {
    "args = [" + Join(Quoted(args), ", ") + "]"
  }

  lemma {:induction false} QuotedListNeutral(args: seq<string>, st: LineState)
    requires st.multi.None?
    ensures ScanLine(Join(Quoted(args), ", ") + "]", st) == ScanLine("]", st)
    ensures NoBreak(Join(Quoted(args), ", "))
  {
    hide ScanLine, Escape, QuoteBody;
    if args == [] {
      assert Join([], ", ") + "]" == "]";
    } else {
      QuoteNoBreak(args[0]);
      assert Quoted(args)[1..] == Quoted(args[1..]) && Quoted(args)[0] == Quote(args[0]);
      var rest := if |args| == 1 then "]" else ", " + (Join(Quoted(args[1..]), ", ") + "]");
      assert Join(Quoted(args), ", ") + "]" == Quote(args[0]) + rest;
      QuoteNeutral(args[0], rest, st);
      if |args| > 1 {
        PlainNeutral(", ", Join(Quoted(args[1..]), ", ") + "]", st);
        QuotedListNeutral(args[1..], st);
      }
    }
  }

  /** A rendered args line leaves the scanner's state unchanged. */
  lemma ArgsNeutral(args: seq<string>)
    ensures Neutral(ArgsLine(args))
  {
    hide Escape, QuoteBody, Join, Quoted;
    var line := ArgsLine(args);
    var inside := Join(Quoted(args), ", ") + "]";
    assert line == "args = " + ("[" + inside);
    PlainNeutral("args = ", "[" + inside, Top);
    QuotedListNeutral(args, LineState(None, 1));
    OpenClose(inside);
    hide ScanLine;
    FirstCharDecides(line);
  }

  /** A bracket, text that is neutral inside it, and its closing. */
  lemma OpenClose(inside: string)
    requires ScanLine(inside, LineState(None, 1)) == ScanLine("]", LineState(None, 1))
    ensures ScanLine("[" + inside, Top) == Top
  {
    assert ("[" + inside)[1..] == inside;
  }

  // ---- Rendered headers ---------------------------------------------------

  function HeaderLine(path: seq<string>): string {
    "[" + Join(path, ".") + "]"
  }

  ghost predicate BarePath(path: seq<string>) {
    path != [] && forall i | 0 <= i < |path| :: IsBareKey(path[i])
  }

  lemma {:induction false} BareLenIs(k: string, rest: string)
    requires forall i | 0 <= i < |k| :: IsBareKeyChar(k[i])
    requires rest != "" ==> !IsBareKeyChar(rest[0])
    ensures BareLen(k + rest) == |k|
  {
    if k != "" {
      assert (k + rest)[1..] == k[1..] + rest;
      BareLenIs(k[1..], rest);
    } else {
      assert k + rest == rest;
    }
  }

  lemma SegmentReads(k: string, rest: string, uq: Unquote)
    requires IsBareKey(k) && (rest != "" ==> !IsBareKeyChar(rest[0]))
    ensures ParseSegment(k + rest, uq) == Some((k, rest)) && TrimPad(k + rest) == k + rest
  {
    var b := k + rest;
    BareLenIs(k, rest);
    assert b[0] == k[0] && b[..|k|] == k && b[|k|..] == rest;
  }

  lemma NoPad(b: string)
    requires b != "" && !IsPad(b[0])
    ensures TrimPad(b) == b
  {
  }

  /** One bare segment is read off the front. */
  lemma SegmentStep(k: string, rest: string, key: seq<string>, uq: Unquote)
    requires IsBareKey(k) && (rest != "" ==> !IsBareKeyChar(rest[0]))
    ensures ParsePath(k + rest, true, key, uq) == ParsePath(rest, false, key + [k], uq)
  {
    hide ParseSegment, TrimPad;
    SegmentReads(k, rest, uq);
    assert IsBareKeyChar(k[0]);
    assert (k + rest)[0] == k[0];
  }

  lemma CloseStep(key: seq<string>, uq: Unquote)
    ensures ParsePath("]", false, key, uq) == Some((key, ""))
  {
    NoPad("]");
    assert "]"[1..] == "";
  }

  lemma DotStep(b: string, key: seq<string>, uq: Unquote)
    ensures ParsePath("." + b, false, key, uq) == ParsePath(b, true, key, uq)
  {
    hide ParseSegment;
    NoPad("." + b);
    assert ("." + b)[1..] == b;
  }

  lemma {:induction false} PathReadsBack(path: seq<string>, key: seq<string>, uq: Unquote)
    requires BarePath(path)
    ensures ParsePath(Join(path, ".") + "]", true, key, uq) == Some((key + path, ""))
  {
    hide ParsePath;
    var k := path[0];
    assert IsBareKey(k);
    if |path| == 1 {
      SegmentStep(k, "]", key, uq);
      CloseStep(key + [k], uq);
      assert key + [k] == key + path;
    } else {
      var inner := Join(path[1..], ".") + "]";
      assert Join(path, ".") + "]" == k + ("." + inner);
      SegmentStep(k, "." + inner, key, uq);
      DotStep(inner, key + [k], uq);
      PathReadsBack(path[1..], key + [k], uq);
      assert key + [k] + path[1..] == key + path;
    }
  }

  /** Reading a rendered header gives back the path it was rendered from. */
  lemma HeaderReadsBack(path: seq<string>, uq: Unquote)
    requires BarePath(path)
    ensures ParseHeader(HeaderLine(path), uq) == Some(Header(path, false))
  {
    hide ParsePath;
    var line := HeaderLine(path);
    PathReadsBack(path, [], uq);
    assert Drop(line, 1) == Join(path, ".") + "]";
    JoinStarts(path);
    assert line[1] == Join(path, ".")[0];
    assert [] + path == path;
  }

  lemma JoinStarts(path: seq<string>)
    requires BarePath(path)
    ensures Join(path, ".") != "" && IsBareKeyChar(Join(path, ".")[0])
  {
  }

  lemma {:induction false} PathPlain(path: seq<string>)
    requires BarePath(path)
    ensures AllPlain(Join(path, ".")) && NoBreak(Join(path, "."))
  {
    BarePlain(path[0]);
    if |path| > 1 {
      PathPlain(path[1..]);
    }
  }

  lemma HeaderLineNeutral(path: seq<string>)
    requires BarePath(path)
    ensures ScanLine(HeaderLine(path), Top) == Top && NoBreak(HeaderLine(path)) && LooksLikeHeader(HeaderLine(path))
  {
    var inside := Join(path, ".");
    PathPlain(path);
    assert HeaderLine(path)[1..] == inside + "]";
    PlainNeutral(inside, "]", LineState(None, 1));
  }
}
