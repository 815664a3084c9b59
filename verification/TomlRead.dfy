/** Reading key/value lines by the rules of TOML v1.0.0, sections "Key/Value Pair", "Keys", "String"
    and "Array": as far as a line holds one key and a basic string or a list of them. What the
    rendering half of internal/agent/harness/tomledit.go writes, told without it. */
module TomlRead {
  import opened Prelude
  import opened TomlScan
  import opened TomlCut
  import opened TomlRender

  datatype Value = OneString(text: string) | Strings(items: seq<string>)

  /** A line's key and value; nothing for a blank or comment line. */
  datatype Line = Nothing | Says(key: string, value: Value)

  /** A bare or a quoted key, and what follows it. */
  function ReadKey(b: string): Option<(string, string)> {
    if b == "" then None
    else if b[0] == '"' then ReadBasic(b[1..])
    else if BareLen(b) == 0 then None
    else Some((b[..BareLen(b)], b[BareLen(b)..]))
  }

  /** A one-line basic string, and what follows it. */
  function ReadString(b: string): (r: Option<(string, string)>)
    ensures r.Some? ==> |r.value.1| < |b|
  {
    if b == "" || b[0] != '"' || Quotes(Basic) <= b then None else ReadBasic(b[1..])
  }

  /** The items up to the closing bracket, and what follows it; a comma may stand before it. */
  function ReadItems(b: string): Option<(seq<string>, string)>
    decreases |b|
  {
    var t := TrimPad(b);
    if t == "" then None
    else if t[0] == ']' then Some(([], t[1..]))
    else
      match ReadString(t)
      case None => None
      case Some((item, rest)) =>
        var next := TrimPad(rest);
        if next == "" then None
        else if next[0] == ']' then Some(([item], next[1..]))
        else if next[0] != ',' then None
        else
          match ReadItems(next[1..])
          case None => None
          case Some((items, after)) => Some(([item] + items, after))
  }

  function ReadValue(b: string): Option<(Value, string)> {
    if b != "" && b[0] == '[' then
      match ReadItems(b[1..])
      case None => None
      case Some((items, rest)) => Some((Strings(items), rest))
    else
      match ReadString(b)
      case None => None
      case Some((text, rest)) => Some((OneString(text), rest))
  }

  function ReadLine(text: string): Option<Line> {
    if Attached(text) then Some(Nothing)
    else
      match ReadKey(TrimPad(text))
      case None => None
      case Some((key, rest)) =>
        var eq := TrimPad(rest);
        if eq == "" || eq[0] != '=' then None
        else
          match ReadValue(TrimPad(eq[1..]))
          case None => None
          case Some((value, after)) => if PadOrComment(after) then Some(Says(key, value)) else None
  }

  type Body = seq<(string, Value)>

  /** The keys and values of complete lines, in order. */
  function ReadLines(src: string): Option<Body>
    decreases |src|
  {
    if src == "" then Some([])
    else
      var n := LineLen(src);
      match (ReadLine(Chomp(src[..n])), ReadLines(src[n..]))
      case (Some(Nothing), Some(more)) => Some(more)
      case (Some(Says(key, value)), Some(more)) => Some([(key, value)] + more)
      case _ => None
  }

  /** What a table says: the lines after its header. */
  function ReadTable(t: Table): Option<Body> {
    if t.text == "" then None else ReadLines(t.text[LineLen(t.text)..])
  }

  function Texts(pairs: Pairs): Body {
    seq(|pairs|, i requires 0 <= i < |pairs| => (pairs[i].0, OneString(pairs[i].1)))
  }

  // ---- Rendered lines -----------------------------------------------------

  lemma KeyReads(k: string, rest: string)
    requires rest != "" && !IsBareKeyChar(rest[0])
    ensures ReadKey(KeyText(k) + rest) == Some((k, rest))
  {
    hide ReadBasic, QuoteBody;
    if IsBareKey(k) {
      BareLenIs(k, rest);
      assert (k + rest)[0] == k[0] && IsBareKeyChar(k[0]);
    } else {
      QuoteReadsBack(k, rest);
      assert (Quote(k) + rest)[0] == '"';
    }
  }

  lemma StringReads(v: string, rest: string)
    requires rest == "" || rest[0] != '"'
    ensures ReadString(Quote(v) + rest) == Some((v, rest))
  {
    hide ReadBasic, Escape;
    QuoteReadsBack(v, rest);
    var b := Quote(v) + rest;
    assert b[0] == '"';
    if v == "" {
      assert b == "\"\"" + rest;
      assert rest != "" ==> b[2] == rest[0];
    } else {
      assert b[1] == Escape(v[0])[0];
    }
  }

  lemma PadStep(b: string)
    ensures TrimPad(" " + b) == TrimPad(b)
  {
    assert (" " + b)[1..] == b;
  }

  /** A key that has been read, " = ", and a value with nothing after it. */
  lemma LineReads(text: string, key: string, b: string, value: Value)
    requires text != "" && !IsPad(text[0]) && !Attached(text) && ReadKey(text) == Some((key, " = " + b))
    requires b != "" && !IsPad(b[0]) && ReadValue(b) == Some((value, ""))
    ensures ReadLine(text) == Some(Says(key, value))
  {
    hide ReadKey, ReadValue, Attached;
    NoPad(text);
    NoPad(b);
    assert " = " + b == " " + ("=" + (" " + b));
    PadStep("=" + (" " + b));
    NoPad("=" + (" " + b));
    assert ("=" + (" " + b))[1..] == " " + b;
    PadStep(b);
  }

  /** A rendered pair reads back as its key and its value. */
  lemma PairReads(k: string, v: string)
    ensures ReadLine(PairLine(k, v)) == Some(Says(k, OneString(v)))
  {
    hide ReadBasic, QuoteBody, Attached, ReadString, TrimPad, ReadKey, ScanLine, ReadLine;
    var rest, line := " = " + Quote(v), PairLine(k, v);
    assert line == KeyText(k) + rest && line[0] == KeyText(k)[0];
    PairNeutral(k, v);
    KeyReads(k, rest);
    StringReads(v, "");
    assert Quote(v) + "" == Quote(v);
    LineReads(line, k, Quote(v), OneString(v));
  }

  lemma {:induction false} ItemsRead(args: seq<string>)
    ensures ReadItems(Join(Quoted(args), ", ") + "]") == Some((args, ""))
  {
    hide QuoteBody, ReadString, TrimPad;
    if args == [] {
      assert Join([], ", ") + "]" == "]";
      NoPad("]");
      assert "]"[1..] == "";
    } else {
      assert Quoted(args)[1..] == Quoted(args[1..]) && Quoted(args)[0] == Quote(args[0]);
      var rest := if |args| == 1 then "]" else ", " + (Join(Quoted(args[1..]), ", ") + "]");
      var b := Join(Quoted(args), ", ") + "]";
      assert b == Quote(args[0]) + rest && b[0] == '"' && rest[0] != '"';
      NoPad(b);
      StringReads(args[0], rest);
      NoPad(rest);
      assert [args[0]] + args[1..] == args;
      if |args| > 1 {
        ItemsRead(args[1..]);
        ItemsPad(Join(Quoted(args[1..]), ", ") + "]");
        assert rest[1..] == " " + (Join(Quoted(args[1..]), ", ") + "]");
      } else {
        assert rest[1..] == "" && args == [args[0]];
      }
    }
  }

  lemma ItemsPad(b: string)
    ensures ReadItems(" " + b) == ReadItems(b)
  {
    PadStep(b);
    hide TrimPad, ReadString;
  }

  /** A rendered args line reads back as the list. */
  lemma ArgsRead(args: seq<string>)
    ensures ReadLine(ArgsLine(args)) == Some(Says("args", Strings(args)))
  {
    hide ReadBasic, QuoteBody, Attached, ReadString, TrimPad, ScanLine, ReadLine, ReadItems, Join, Quoted;
    var inside := Join(Quoted(args), ", ") + "]";
    var line := ArgsLine(args);
    assert line == "args" + (" = " + ("[" + inside));
    ArgsNeutral(args);
    KeyReads("args", " = " + ("[" + inside));
    assert KeyText("args") == "args";
    ItemsRead(args);
    assert ("[" + inside)[1..] == inside;
    LineReads(line, "args", "[" + inside, Strings(args));
  }
}
