/** The layout a rewritten JSON file is given: compact or indented after the file it came from.
    Model of marshal, marshalLike and detectJSONIndent in internal/agent/harness/jsonedit.go and of
    the indentation they leave to Go's encoding/json. */
module JsonLayout {
  import opened Prelude

  /** A member as it stands in the file: its quoted key and its value's exact text. */
  datatype RawMember = RawMember(key: string, raw: string)

  function Pairs(ms: seq<RawMember>): seq<string> {
    seq(|ms|, i requires 0 <= i < |ms| => ms[i].key + ":" + ms[i].raw)
  }

  /** marshal */
  function Compact(ms: seq<RawMember>): string {
    "{" + Join(Pairs(ms), ",") + "}"
  }

  ghost predicate Keyed(ms: seq<RawMember>) {
    forall i | 0 <= i < |ms| :: ms[i].key != "" && ms[i].key[0] == '"'
  }

  // ---- The indent of a document -------------------------------------------

  function PadLen(s: string): (n: nat)
    ensures n <= |s| && (forall i | 0 <= i < n :: IsPad(s[i])) && (n < |s| ==> !IsPad(s[n]))
  {
    if s != "" && IsPad(s[0]) then 1 + PadLen(s[1..]) else 0
  }

  /** What follows the first line break. */
  function AfterBreak(s: string): Option<string> {
    if s == "" then None else if s[0] == '\n' then Some(s[1..]) else AfterBreak(s[1..])
  }

  /** What pads the second line; nothing for a document on one line, two blanks for a blank one. */
  function IndentUnit(original: string): (u: string)
    ensures forall i | 0 <= i < |u| :: IsPad(u[i])
  {
    var t := TrimSpace(original);
    if t == "" then "  "
    else
      match AfterBreak(t)
      case None => ""
      case Some(rest) => rest[..PadLen(rest)]
  }

  method DetectIndent(original: string) returns (u: string)
    ensures u == IndentUnit(original)
  {
    var t := TrimSpace(original);
    if t == "" {
      return "  ";
    }
    var nl := 0;
    while nl < |t| && t[nl] != '\n'
      invariant nl <= |t| && AfterBreak(t[nl..]) == AfterBreak(t)
    {
      nl := nl + 1;
    }
    if nl == |t| {
      return "";
    }
    var rest := t[nl + 1..];
    assert AfterBreak(t) == Some(rest);
    var unit := 0;
    while unit < |rest| && IsPad(rest[unit])
      invariant unit <= |rest| && PadLen(rest) == unit + PadLen(rest[unit..])
    {
      unit := unit + 1;
    }
    u := rest[..unit];
  }

  // ---- Indentation --------------------------------------------------------

  predicate JsonSpace(c: char) {
    c == ' ' || c == '\t' || c == '\r' || c == '\n'
  }

  /** Inside a string, and just after a backslash there. */
  datatype Lex = Lex(inString: bool, escaped: bool)

  const Plain := Lex(false, false)

  function NextLex(l: Lex, c: char): Lex {
    if !l.inString then Lex(c == '"', false)
    else if l.escaped then Lex(true, false)
    else if c == '\\' then Lex(true, true)
    else Lex(c != '"', false)
  }

  predicate Skipped(l: Lex, c: char) {
    !l.inString && JsonSpace(c)
  }

  /** The text without the white space between its tokens. */
  function Tokens(s: string, l: Lex): string {
    if s == "" then ""
    else if Skipped(l, s[0]) then Tokens(s[1..], l)
    else [s[0]] + Tokens(s[1..], NextLex(l, s[0]))
  }

  function Break(unit: string, depth: int): string
    decreases depth
  {
    if depth <= 0 then "\n" else Break(unit, depth - 1) + unit
  }

  predicate Opening(l: Lex, c: char) {
    !l.inString && (c == '{' || c == '[')
  }

  predicate Closing(l: Lex, c: char) {
    !l.inString && (c == '}' || c == ']')
  }

  /** How deep the text stands after c; need says that a bracket was opened right before it. */
  function DepthNext(l: Lex, c: char, need: bool, depth: int): int {
    if Closing(l, c) then (if need then depth else depth - 1) else if need then depth + 1 else depth
  }

  /** The line break put before c, and the white space put after it. */
  function Before(l: Lex, c: char, need: bool, depth: int, unit: string): string {
    if need == Closing(l, c) then "" else Break(unit, DepthNext(l, c, need, depth))
  }

  function After(l: Lex, c: char, need: bool, depth: int, unit: string): string {
    if l.inString then ""
    else if c == ',' then Break(unit, DepthNext(l, c, need, depth))
    else if c == ':' then " "
    else ""
  }

  /** json.Indent, from a point inside the text. */
  function Indented(s: string, l: Lex, need: bool, depth: int, unit: string): string {
    if s == "" then ""
    else if Skipped(l, s[0]) then Indented(s[1..], l, need, depth, unit)
    else
      var c := s[0];
      Before(l, c, need, depth, unit)
      + ([c] + (After(l, c, need, depth, unit)
                + Indented(s[1..], NextLex(l, c), Opening(l, c), DepthNext(l, c, need, depth), unit)))
  }

  ghost predicate AllSpace(s: string) {
    forall i | 0 <= i < |s| :: JsonSpace(s[i])
  }

  lemma {:induction false} BreakSpace(unit: string, depth: int)
    requires AllSpace(unit)
    ensures AllSpace(Break(unit, depth))
    decreases depth
  {
    if depth > 0 {
      BreakSpace(unit, depth - 1);
    }
  }

  lemma {:induction false} SpaceSkipped(pre: string, s: string, l: Lex)
    requires AllSpace(pre) && !l.inString
    ensures Tokens(pre + s, l) == Tokens(s, l)
  {
    if pre == "" {
      assert pre + s == s;
    } else {
      assert (pre + s)[1..] == pre[1..] + s;
      SpaceSkipped(pre[1..], s, l);
    }
  }

  lemma TokenStep(c: char, s: string, l: Lex)
    ensures Tokens([c] + s, l) == if Skipped(l, c) then Tokens(s, l) else [c] + Tokens(s, NextLex(l, c))
  {
    assert ([c] + s)[1..] == s;
  }

  lemma SpacesAround(l: Lex, c: char, need: bool, depth: int, unit: string)
    requires AllSpace(unit) && (need ==> !l.inString)
    ensures AllSpace(Before(l, c, need, depth, unit)) && AllSpace(After(l, c, need, depth, unit))
    ensures l.inString ==> Before(l, c, need, depth, unit) == ""
    ensures NextLex(l, c).inString ==> After(l, c, need, depth, unit) == ""
  {
    BreakSpace(unit, DepthNext(l, c, need, depth));
  }

  /** Indenting changes no token. */
  lemma {:induction false} IndentedTokens(s: string, l: Lex, need: bool, depth: int, unit: string)
    requires AllSpace(unit) && (need ==> !l.inString)
    ensures Tokens(Indented(s, l, need, depth, unit), l) == Tokens(s, l)
  {
    if s != "" {
      hide Before, After, DepthNext, Break, NextLex, AllSpace;
      if Skipped(l, s[0]) {
        IndentedTokens(s[1..], l, need, depth, unit);
      } else {
        var c, l' := s[0], NextLex(l, s[0]);
        OpeningOutside(l, c);
        IndentedTokens(s[1..], l', Opening(l, c), DepthNext(l, c, need, depth), unit);
        SpacesAround(l, c, need, depth, unit);
        var tail := Indented(s[1..], l', Opening(l, c), DepthNext(l, c, need, depth), unit);
        var after, before := After(l, c, need, depth, unit), Before(l, c, need, depth, unit);
        Surrounded(after, tail, l');
        TokenStep(c, after + tail, l);
        Surrounded(before, [c] + (after + tail), l);
      }
    }
  }

  lemma OpeningOutside(l: Lex, c: char)
    ensures Opening(l, c) ==> !NextLex(l, c).inString
  {
  }

  lemma Surrounded(pre: string, s: string, l: Lex)
    requires AllSpace(pre) && (l.inString ==> pre == "")
    ensures Tokens(pre + s, l) == Tokens(s, l)
  {
    if l.inString {
      assert pre + s == s;
    } else {
      SpaceSkipped(pre, s, l);
    }
  }

  /** And it looks at the tokens only. */
  lemma {:induction false} IndentedOfTokens(s: string, l: Lex, need: bool, depth: int, unit: string)
    ensures Indented(Tokens(s, l), l, need, depth, unit) == Indented(s, l, need, depth, unit)
  {
    if s != "" {
      hide Before, After, DepthNext, NextLex, Opening;
      var c := s[0];
      if Skipped(l, c) {
        IndentedOfTokens(s[1..], l, need, depth, unit);
      } else {
        IndentedOfTokens(s[1..], NextLex(l, c), Opening(l, c), DepthNext(l, c, need, depth), unit);
        assert Tokens(s, l)[1..] == Tokens(s[1..], NextLex(l, c));
      }
    }
  }

  lemma SameTokensSameIndent(a: string, b: string, unit: string)
    requires Tokens(a, Plain) == Tokens(b, Plain)
    ensures Indented(a, Plain, false, 0, unit) == Indented(b, Plain, false, 0, unit)
  {
    IndentedOfTokens(a, Plain, false, 0, unit);
    IndentedOfTokens(b, Plain, false, 0, unit);
  }

  // ---- marshalLike --------------------------------------------------------

  function Layout(ms: seq<RawMember>, unit: string): string {
    if unit == "" then Compact(ms) else Indented(Compact(ms), Plain, false, 0, unit)
  }

  function MarshalLike(ms: seq<RawMember>, original: string): string {
    Layout(ms, IndentUnit(original)) + "\n"
  }

  /** What reading an object this editor laid out gives: as many members, with quoted keys; no token
      lost or made; and from a compact text each value's exact text. */
  ghost predicate ReadsAs(ms: seq<RawMember>, text: string, again: seq<RawMember>) {
    && |again| == |ms| && Keyed(again) && Tokens(Compact(again), Plain) == Tokens(text, Plain)
    && (text == Compact(ms) ==> again == ms)
  }

  lemma {:induction false} AfterBreakAt(s: string, n: nat)
    requires n < |s| && s[n] == '\n' && forall i | 0 <= i < n :: s[i] != '\n'
    ensures AfterBreak(s) == Some(s[n + 1..])
  {
    if n > 0 {
      AfterBreakAt(s[1..], n - 1);
    }
  }

  lemma {:induction false} PadLenIs(u: string, rest: string)
    requires (forall i | 0 <= i < |u| :: IsPad(u[i])) && rest != "" && !IsPad(rest[0])
    ensures PadLen(u + rest) == |u|
  {
    if u == "" {
      assert u + rest == rest;
    } else {
      assert (u + rest)[1..] == u[1..] + rest;
      PadLenIs(u[1..], rest);
    }
  }

  /** Trimming keeps everything up to a character that is no white space. */
  lemma {:induction false} TrimKeeps(s: string, k: nat)
    requires k < |s| && !IsSpace(s[0]) && !IsSpace(s[k])
    ensures TrimSpace(s) <= s && k < |TrimSpace(s)|
    ensures !IsSpace(s[|s| - 1]) ==> TrimSpace(s) == s
  {
    TrimRightKeeps(s, k);
  }

  lemma {:induction false} TrimRightKeeps(s: string, k: nat)
    requires k < |s| && !IsSpace(s[k])
    ensures k < |TrimRight(s)|
  {
    if IsSpace(s[|s| - 1]) {
      TrimRightKeeps(s[..|s| - 1], k);
    }
  }

  lemma CompactShape(ms: seq<RawMember>)
    ensures Compact(ms)[0] == '{' && |Compact(ms)| > 1 && Compact(ms)[|Compact(ms)| - 1] == '}'
    ensures ms != [] && Keyed(ms) ==> Compact(ms)[1] == '"'
    ensures ms == [] ==> Compact(ms) == EMPTY_OBJECT
  {
    if ms != [] && Keyed(ms) {
      var ps := Pairs(ms);
      assert ps[0][0] == ms[0].key[0] == '"';
      assert Join(ps, ",")[0] == '"';
    }
  }

  const EMPTY_OBJECT := "{}"

  /** How an indented object with a member begins. */
  function Head(u: string): string {
    "{\n" + u + "\""
  }

  /** An indented object with a member has its unit on the second line. */
  lemma IndentedShape(ms: seq<RawMember>, u: string)
    requires ms != [] && Keyed(ms) && AllSpace(u)
    ensures Head(u) <= Indented(Compact(ms), Plain, false, 0, u)
  {
    CompactShape(ms);
    var c := Compact(ms);
    var inner := Indented(c[1..], Plain, true, 0, u);
    assert Indented(c, Plain, false, 0, u) == "" + ("{" + ("" + inner));
    assert Break(u, 1) == "\n" + u by { assert Break(u, 0) == "\n"; }
    assert c[1..][0] == '"';
    var tail := Indented(c[2..], Lex(true, false), false, 1, u);
    assert c[1..][1..] == c[2..];
    assert inner == Break(u, 1) + ("\"" + ("" + tail));
  }

  /** A text that starts like an indented object has that indent. */
  lemma HeadUnit(out: string, u: string)
    requires Head(u) <= out && forall i | 0 <= i < |u| :: IsPad(u[i])
    ensures IndentUnit(out) == u
  {
    hide TrimSpace, PadLen, AfterBreak;
    var head := Head(u);
    assert out[0] == head[0] && out[|u| + 2] == head[|u| + 2] == '"';
    TrimKeeps(out, |u| + 2);
    var t := TrimSpace(out);
    assert t[..|u| + 3] == head;
    assert t[0] == head[0] && t[1] == head[1];
    AfterBreakAt(t, 1);
    RestPads(t, u);
  }

  lemma RestPads(t: string, u: string)
    requires |u| + 3 <= |t| && t[..|u| + 3] == Head(u) && forall i | 0 <= i < |u| :: IsPad(u[i])
    ensures t[2..][..PadLen(t[2..])] == u
  {
    var head, rest := Head(u), t[2..];
    assert rest[..|u|] == head[2..|u| + 2] == u;
    assert rest[|u|] == head[|u| + 2] == '"';
    assert rest == u + rest[|u|..];
    PadLenIs(u, rest[|u|..]);
  }

  lemma IndentedUnit(ms: seq<RawMember>, u: string)
    requires ms != [] && Keyed(ms) && forall i | 0 <= i < |u| :: IsPad(u[i])
    ensures IndentUnit(Indented(Compact(ms), Plain, false, 0, u) + "\n") == u
  {
    IndentedShape(ms, u);
    hide Indented, Compact, IndentUnit;
    HeadUnit(Indented(Compact(ms), Plain, false, 0, u) + "\n", u);
  }

  lemma CompactUnit(ms: seq<RawMember>)
    ensures IndentUnit(Compact(ms) + "\n") == IndentUnit(Compact(ms))
  {
    CompactShape(ms);
    var c := Compact(ms);
    TrimKeeps(c, |c| - 1);
    TrimKeeps(c + "\n", |c| - 1);
    assert TrimSpace(c + "\n") == c by {
      assert (c + "\n")[..|c|] == c;
    }
  }

  /** Exactly when writing an object again over what was just written gives the same bytes: the
      first layout was indented, or the compact text does not itself look indented. */
  lemma LayoutSettlesIff(ms: seq<RawMember>, original: string, again: seq<RawMember>)
    requires Keyed(ms) && ReadsAs(ms, Layout(ms, IndentUnit(original)), again)
    ensures MarshalLike(again, MarshalLike(ms, original)) == MarshalLike(ms, original) <==>
            IndentUnit(original) != "" || IndentUnit(Compact(ms)) == ""
  {
    var u := IndentUnit(original);
    CompactShape(ms);
    CompactUnit(ms);
    hide TrimSpace, Tokens, Indented, Compact, IndentUnit;
    if u != "" {
      IndentedTokens(Compact(ms), Plain, false, 0, u);
      SameTokensSameIndent(Compact(again), Compact(ms), u);
      if ms != [] {
        IndentedUnit(ms, u);
      } else {
        EmptyLayout(u);
      }
    } else {
      var u' := IndentUnit(Compact(ms));
      if u' != "" {
        EmptyLayout(u');
        IndentedShape(ms, u');
        var c, t := Compact(ms), Indented(Compact(ms), Plain, false, 0, u');
        assert t[1] == Head(u')[1];
        assert (c + "\n")[1] != (t + "\n")[1];
      }
    }
  }

  /** One more write is enough: what the second write leaves stays. */
  lemma SettlesAfterTwo(ms: seq<RawMember>, original: string, again: seq<RawMember>, third: seq<RawMember>)
    requires Keyed(ms) && ReadsAs(ms, Layout(ms, IndentUnit(original)), again)
    requires ReadsAs(again, Layout(again, IndentUnit(MarshalLike(ms, original))), third)
    ensures var second := MarshalLike(again, MarshalLike(ms, original)); MarshalLike(third, second) == second
  {
    var u := IndentUnit(original);
    CompactUnit(ms);
    LayoutSettlesIff(again, MarshalLike(ms, original), third);
    CompactShape(ms);
    hide TrimSpace, Tokens, Indented, Compact, IndentUnit;
    if u != "" {
      if ms != [] {
        IndentedUnit(ms, u);
      } else {
        EmptyLayout(u);
        CompactShape(again);
      }
    }
  }

  /** The indent of a text with nothing to trim, its first line break at n. */
  lemma UnitOf(t: string, n: nat, u: string, rest: string)
    requires t != "" && !IsSpace(t[0]) && !IsSpace(t[|t| - 1])
    requires n < |t| && t[n] == '\n' && forall i | 0 <= i < n :: t[i] != '\n'
    requires t[n + 1..] == u + rest && rest != "" && !IsPad(rest[0]) && forall i | 0 <= i < |u| :: IsPad(u[i])
    ensures IndentUnit(t) == u
  {
    TrimKeeps(t, |t| - 1);
    AfterBreakAt(t, n);
    PadLenIs(u, rest);
    hide TrimSpace, AfterBreak, PadLen;
    assert (u + rest)[..|u|] == u;
  }

  /** A member whose value spans lines, and a document whose second line is blank. */
  const MEMBER := RawMember("\"a\"", "{\n  \"b\": 1\n}")

  const BLANK_LINE := "{\n\n\"a\": " + MEMBER.raw + "\n}"

  const COMPACT := "{\"a\":{\n  " + "\"b\": 1\n}}"

  /** It does happen: a blank second line makes the editor write compactly, and a value that spans
      lines makes what it wrote look indented. */
  lemma BlankLineUnsettled()
    ensures IndentUnit(BLANK_LINE) == ""
    ensures Keyed([MEMBER]) && IndentUnit(Compact([MEMBER])) == "  "
  {
    var t := BLANK_LINE;
    hide IndentUnit, Compact;
    assert t[2..] == "" + t[2..];
    UnitOf(t, 1, "", t[2..]);
    OneMember();
    var c := Compact([MEMBER]);
    var rest := "\"b\": 1\n}}";
    assert c[7..] == "  " + rest;
    assert forall i | 0 <= i < 6 :: c[i] != '\n';
    UnitOf(c, 6, "  ", rest);
  }

  lemma OneMember()
    ensures Compact([MEMBER]) == COMPACT
  {
    var ps := Pairs([MEMBER]);
    assert ps == [MEMBER.key + ":" + MEMBER.raw];
    assert Join(ps, ",") == MEMBER.key + ":" + MEMBER.raw;
  }

  lemma EmptyLayout(u: string)
    ensures Indented(EMPTY_OBJECT, Plain, false, 0, u) == EMPTY_OBJECT
    ensures IndentUnit(EMPTY_OBJECT) == "" && IndentUnit(EMPTY_OBJECT + "\n") == ""
  {
    hide Indented, IndentUnit, Compact;
    EmptyIndented(u);
    CompactUnit([]);
    CompactShape([]);
    EmptyUnit(EMPTY_OBJECT);
  }

  lemma EmptyIndented(u: string)
    ensures Indented(EMPTY_OBJECT, Plain, false, 0, u) == EMPTY_OBJECT
  {
    hide Break;
    var s := EMPTY_OBJECT;
    ClosingLast(u, s[1..]);
    assert Indented(s, Plain, false, 0, u) == "" + (['{'] + ("" + Indented(s[1..], Plain, true, 0, u)));
  }

  lemma ClosingLast(u: string, s: string)
    requires s == ['}']
    ensures Indented(s, Plain, true, 0, u) == s
  {
    hide Break;
    assert s[1..] == "";
    assert Indented(s, Plain, true, 0, u) == "" + (['}'] + ("" + Indented(s[1..], Plain, false, 0, u)));
  }

  lemma EmptyUnit(s: string)
    requires s == EMPTY_OBJECT
    ensures IndentUnit(s) == ""
  {
    TrimKeeps(s, 1);
    NoBreakAfter(s);
  }

  lemma {:induction false} NoBreakAfter(s: string)
    requires forall i | 0 <= i < |s| :: s[i] != '\n'
    ensures AfterBreak(s).None?
  {
    if s != "" {
      NoBreakAfter(s[1..]);
    }
  }
}
