/** Headers as people write them, quoted segments, padding and comments included: what
    parseTableHeader of internal/agent/harness/tomledit.go makes of them. TOML v1.0.0, sections
    "Keys", "Table" and "Array of Tables". */
module TomlHeaders {
  import opened Prelude
  import opened TomlScan
  import opened TomlRender

  /** A key segment written bare, as a literal string or as a basic string. */
  datatype Segment = Bare(key: string) | Single(key: string) | Double(key: string)
  {
    function Written(): string {
      match this
      case Bare(k) => k
      case Single(k) => "'" + k + "'"
      case Double(k) => Quote(k)
    }

    /** It can be written that way; a basic string is decoded to what it was written from. */
    ghost predicate Ok(uq: Unquote) {
      match this
      case Bare(k) => IsBareKey(k)
      case Single(k) => '\'' !in k
      case Double(k) => uq(Quote(k)) == Some(k)
    }
  }

  function Keys(segs: seq<Segment>): seq<string> {
    seq(|segs|, i requires 0 <= i < |segs| => segs[i].key)
  }

  /** The segments with dots between them and padding around them. */
  function Dotted(segs: seq<Segment>, pad: string): string
    requires segs != []
  {
    pad + segs[0].Written() + pad + if |segs| == 1 then "" else "." + Dotted(segs[1..], pad)
  }

  ghost predicate AllPad(pad: string) {
    forall i | 0 <= i < |pad| :: IsPad(pad[i])
  }

  lemma {:induction false} PadTrimmed(pad: string, b: string)
    requires AllPad(pad)
    ensures TrimPad(pad + b) == TrimPad(b)
  {
    if pad == "" {
      assert pad + b == b;
    } else {
      assert (pad + b)[1..] == pad[1..] + b;
      PadTrimmed(pad[1..], b);
    }
  }

  lemma {:induction false} BodyCloses(s: string, rest: string)
    ensures ClosesBasic(QuoteBody(s) + "\"" + rest)
  {
    if s == "" {
      assert QuoteBody(s) + "\"" + rest == "\"" + rest;
    } else {
      var tail := QuoteBody(s[1..]) + "\"" + rest;
      BodyCloses(s[1..], rest);
      assert QuoteBody(s) + "\"" + rest == Escape(s[0]) + tail;
      EscapeCloses(s[0], tail);
    }
  }

  lemma {:induction false} HexCloses(h: string, rest: string)
    requires forall i | 0 <= i < |h| :: HexValue(h[i]).Some?
    requires ClosesBasic(rest)
    ensures ClosesBasic(h + rest)
  {
    if h == "" {
      assert h + rest == rest;
    } else {
      assert (h + rest)[1..] == h[1..] + rest;
      HexCloses(h[1..], rest);
    }
  }

  lemma EscapeCloses(c: char, rest: string)
    requires ClosesBasic(rest)
    ensures ClosesBasic(Escape(c) + rest)
  {
    hide Hex;
    var b := Escape(c) + rest;
    if |Escape(c)| == 6 {
      assert Drop(b, 2) == Hex(c as int, 4) + rest;
      HexCloses(Hex(c as int, 4), rest);
    } else if |Escape(c)| == 2 {
      assert Drop(b, 2) == rest;
    } else {
      assert b[1..] == rest;
    }
  }

  lemma SingleReads(k: string, rest: string, uq: Unquote)
    requires '\'' !in k
    ensures ParseSegment("'" + k + "'" + rest, uq) == Some((k, rest))
  {
    hide AfterLiteral;
    var b := "'" + k + "'" + rest;
    assert b[1..] == k + "'" + rest;
    LiteralSkipped(k, rest);
    assert b[1..][|k|] == '\'';
    assert b[1..|b| - |rest| - 1] == k;
  }

  lemma DoubleReads(k: string, rest: string, uq: Unquote)
    requires uq(Quote(k)) == Some(k)
    ensures ParseSegment(Quote(k) + rest, uq) == Some((k, rest))
  {
    hide Escape, QuoteBody, AfterBasic, ClosesBasic;
    var b := Quote(k) + rest;
    assert b[1..] == QuoteBody(k) + "\"" + rest;
    BodySkipped(k, rest);
    BodyCloses(k, rest);
    assert b[..|b| - |rest|] == Quote(k);
  }

  /** A written segment is read off the front. */
  lemma SegmentReads(s: Segment, rest: string, uq: Unquote)
    requires s.Ok(uq) && (rest != "" ==> !IsBareKeyChar(rest[0]))
    ensures ParseSegment(s.Written() + rest, uq) == Some((s.key, rest))
    ensures s.Written() != "" && !IsPad(s.Written()[0]) && s.Written()[0] !in {'[', ']', '.'}
  {
    hide ParseSegment, QuoteBody;
    match s
    case Bare(k) => TomlRender.SegmentReads(k, rest, uq);
    case Single(k) => SingleReads(k, rest, uq);
    case Double(k) => DoubleReads(k, rest, uq);
  }

  /** A padded segment, as one step of the path. */
  lemma SegmentStep(s: Segment, pad: string, more: string, key: seq<string>, uq: Unquote)
    requires s.Ok(uq) && AllPad(pad) && more != "" && !IsBareKeyChar(more[0])
    ensures ParsePath(pad + (s.Written() + (pad + more)), true, key, uq) == ParsePath(pad + more, false, key + [s.key], uq)
  {
    hide ParseSegment, TrimPad;
    var rest := pad + more;
    assert rest[0] == if pad == "" then more[0] else pad[0];
    SegmentReads(s, rest, uq);
    var t := s.Written() + rest;
    assert t[0] == s.Written()[0];
    PadTrimmed(pad, t);
    NoPad(t);
  }

  lemma PaddedStep(pad: string, more: string, key: seq<string>, uq: Unquote)
    requires AllPad(pad) && more != "" && (more[0] == '.' || more[0] == ']')
    ensures ParsePath(pad + more, false, key, uq) ==
            if more[0] == ']' then Some((key, more[1..])) else ParsePath(more[1..], true, key, uq)
  {
    hide ParseSegment, TrimPad;
    PadTrimmed(pad, more);
    NoPad(more);
  }

  lemma DottedParts(segs: seq<Segment>, pad: string, rest: string)
    requires segs != []
    ensures var more := if |segs| == 1 then "]" + rest else "." + (Dotted(segs[1..], pad) + "]" + rest);
      Dotted(segs, pad) + "]" + rest == pad + (segs[0].Written() + (pad + more)) && more != ""
      && more[1..] == (if |segs| == 1 then rest else Dotted(segs[1..], pad) + "]" + rest)
  {
    hide Segment.Written;
  }

  lemma {:induction false} DottedReads(segs: seq<Segment>, pad: string, rest: string, key: seq<string>, uq: Unquote)
    requires segs != [] && AllPad(pad) && forall i | 0 <= i < |segs| :: segs[i].Ok(uq)
    ensures ParsePath(Dotted(segs, pad) + "]" + rest, true, key, uq) == Some((key + Keys(segs), rest))
  {
    hide ParsePath, Dotted, Segment.Written, Segment.Ok, AllPad;
    var more := if |segs| == 1 then "]" + rest else "." + (Dotted(segs[1..], pad) + "]" + rest);
    var key' := key + [segs[0].key];
    DottedParts(segs, pad, rest);
    SegmentStep(segs[0], pad, more, key, uq);
    PaddedStep(pad, more, key', uq);
    if |segs| == 1 {
      assert key' == key + Keys(segs);
    } else {
      DottedReads(segs[1..], pad, rest, key', uq);
      assert key' + Keys(segs[1..]) == key + Keys(segs);
    }
  }

  /** A header written with any segments and padding is read as its keys, a table in single and an
      array of tables in double brackets, exactly when only padding or a comment follows. */
  lemma WrittenHeaderReads(segs: seq<Segment>, pad: string, after: string, uq: Unquote)
    requires segs != [] && AllPad(pad) && forall i | 0 <= i < |segs| :: segs[i].Ok(uq)
    ensures ParseHeader("[" + (Dotted(segs, pad) + "]" + after), uq)
            == if PadOrComment(after) then Some(Header(Keys(segs), false)) else None
    ensures ParseHeader("[[" + (Dotted(segs, pad) + "]" + ("]" + after)), uq)
            == if PadOrComment(after) then Some(Header(Keys(segs), true)) else None
  {
    hide ParsePath, PadOrComment;
    var inside := Dotted(segs, pad);
    DottedStarts(segs, pad, uq);
    DottedReads(segs, pad, after, [], uq);
    DottedReads(segs, pad, "]" + after, [], uq);
    assert [] + Keys(segs) == Keys(segs);
    var one, two := "[" + (inside + "]" + after), "[[" + (inside + "]" + ("]" + after));
    assert Drop(one, 1) == inside + "]" + after && one[1] == inside[0];
    assert Drop(two, 2) == inside + "]" + ("]" + after);
    assert ("]" + after)[1..] == after;
  }

  lemma DottedStarts(segs: seq<Segment>, pad: string, uq: Unquote)
    requires segs != [] && AllPad(pad) && segs[0].Ok(uq)
    ensures Dotted(segs, pad) != "" && Dotted(segs, pad)[0] != '['
  {
    SegmentReads(segs[0], "", uq);
    assert Dotted(segs, pad)[0] == if pad == "" then segs[0].Written()[0] else pad[0];
  }
}
