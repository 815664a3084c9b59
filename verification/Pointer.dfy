/** The pointer subset a connector manifest may use, and the walk it directs through a JSON
    document. Model of parsePointer, Extract and scalarString in
    internal/server/connectors/extract.go; the step pipeline is not part of this model. */
module Pointer {
  import opened Prelude
  import opened JsonEdit

  datatype Segment = Key(name: string) | Index(n: nat)

  const MAX_INT := 0x7FFF_FFFF_FFFF_FFFF

  // ---- Decimal numbers ----------------------------------------------------

  predicate IsDigit(c: char) { '0' <= c <= '9' }

  predicate Digits(s: string) {
    s != "" && forall i | 0 <= i < |s| :: IsDigit(s[i])
  }

  function DigitsValue(s: string): (n: nat)
    requires s == "" || Digits(s)
  {
    if s == "" then 0 else DigitsValue(s[..|s| - 1]) * 10 + (s[|s| - 1] as int - '0' as int)
  }

  /** strconv.Atoi: an optional sign, digits, and a 64-bit range. */
  function Atoi(s: string): Option<int> {
    var negative := s != "" && s[0] == '-';
    var body := if s != "" && (s[0] == '-' || s[0] == '+') then s[1..] else s;
    if !Digits(body) then None
    else
      var v: int := DigitsValue(body);
      if negative then (if v <= MAX_INT + 1 then Some(-v) else None)
      else if v <= MAX_INT then Some(v) else None
  }

  function Decimal(n: nat): string {
    (if n < 10 then "" else Decimal(n / 10)) + [('0' as int + n % 10) as char]
  }

  lemma AppendDigit(front: string, d: nat)
    requires d < 10 && (front == "" || Digits(front))
    ensures var s := front + [('0' as int + d) as char]; Digits(s) && DigitsValue(s) == DigitsValue(front) * 10 + d
  {
    var s := front + [('0' as int + d) as char];
    assert s[..|s| - 1] == front;
  }

  lemma {:induction false} DecimalReads(n: nat)
    ensures Digits(Decimal(n)) && DigitsValue(Decimal(n)) == n
  {
    hide Digits, DigitsValue;
    if n >= 10 {
      DecimalReads(n / 10);
      AppendDigit(Decimal(n / 10), n % 10);
    } else {
      AppendDigit("", n);
      NoDigits();
    }
  }

  lemma NoDigits()
    ensures DigitsValue("") == 0
  {
  }

  lemma AtoiDecimal(n: nat)
    requires n <= MAX_INT
    ensures Atoi(Decimal(n)) == Some(n)
  {
    DecimalReads(n);
    assert IsDigit(Decimal(n)[0]);
  }

  // ---- Parsing ------------------------------------------------------------

  /** Where c first occurs in s; |s| when it does not. */
  function Find(s: string, c: char): (i: nat)
    ensures i <= |s| && (i < |s| ==> s[i] == c) && forall k | 0 <= k < i :: s[k] != c
  {
    if s == "" || s[0] == c then 0 else 1 + Find(s[1..], c)
  }

  function Split(s: string, c: char): (parts: seq<string>)
    ensures parts != []
    decreases |s|
  {
    var i := Find(s, c);
    if i == |s| then [s] else [s[..i]] + Split(s[i + 1..], c)
  }

  /** The texts between the brackets of a run of groups. */
  function Groups(rem: string): Option<seq<string>>
    decreases |rem|
  {
    if rem == "" then Some([])
    else if rem[0] != '[' then None
    else
      var end := Find(rem, ']');
      if end == |rem| then None
      else
        var more := Groups(rem[end + 1..]);
        if more.None? then None else Some([rem[1..end]] + more.value)
  }

  function Indices(raws: seq<string>): Option<seq<Segment>> {
    if raws == [] then Some([])
    else
      var n := Atoi(raws[0]);
      if n.None? || n.value < 0 then None
      else
        var more := Indices(raws[1..]);
        if more.None? then None else Some([Index(n.value)] + more.value)
  }

  predicate IsNameChar(c: char) {
    c !in {'[', ']', '$', '*'}
  }

  predicate NameOk(name: string) {
    name != "" && forall i | 0 <= i < |name| :: IsNameChar(name[i])
  }

  function ParsePart(part: string): Option<seq<Segment>> {
    var i := Find(part, '[');
    var raws := Groups(part[i..]);
    if part == "" || raws.None? || !NameOk(part[..i]) then None
    else
      var ns := Indices(raws.value);
      if ns.None? then None else Some([Key(part[..i])] + ns.value)
  }

  function ParseParts(parts: seq<string>): Option<seq<Segment>> {
    if parts == [] then Some([])
    else
      var first := ParsePart(parts[0]);
      var more := ParseParts(parts[1..]);
      if first.None? || more.None? then None else Some(first.value + more.value)
  }

  function Parse(p: string): Option<seq<Segment>> {
    if |p| <= 2 || p[..2] != "$." then None else ParseParts(Split(p[2..], '.'))
  }

  // ---- The loops ----------------------------------------------------------

  method SplitLoop(s: string, c: char) returns (parts: seq<string>)
    ensures parts == Split(s, c)
  {
    parts := [];
    var rest := s;
    var i := Find(rest, c);
    while i < |rest|
      invariant i == Find(rest, c)
      invariant parts + Split(rest, c) == Split(s, c)
      decreases |rest|
    {
      parts := parts + [rest[..i]];
      rest := rest[i + 1..];
      i := Find(rest, c);
    }
    parts := parts + [rest];
  }

  method GroupsLoop(part: string) returns (r: Option<seq<string>>)
    ensures r == Groups(part)
  {
    var idxs: seq<string> := [];
    var rem := part;
    assert Groups(part).Some? ==> [] + Groups(part).value == Groups(part).value;
    while rem != ""
      invariant Groups(part) == (var more := Groups(rem); if more.None? then None else Some(idxs + more.value))
      decreases |rem|
    {
      if rem[0] != '[' {
        return None;
      }
      var end := Find(rem, ']');
      if end == |rem| {
        return None;
      }
      ghost var before := idxs;
      idxs := idxs + [rem[1..end]];
      ghost var more := Groups(rem[end + 1..]);
      if more.Some? {
        assert before + ([rem[1..end]] + more.value) == idxs + more.value;
      }
      rem := rem[end + 1..];
    }
    assert idxs + [] == idxs;
    r := Some(idxs);
  }

  method IndicesLoop(raws: seq<string>) returns (r: Option<seq<Segment>>)
    ensures r == Indices(raws)
  {
    var segs: seq<Segment> := [];
    assert raws[0..] == raws;
    assert Indices(raws).Some? ==> [] + Indices(raws).value == Indices(raws).value;
    for j := 0 to |raws|
      invariant Indices(raws) == (var more := Indices(raws[j..]); if more.None? then None else Some(segs + more.value))
    {
      assert raws[j..][1..] == raws[j + 1..];
      var n := Atoi(raws[j]);
      if n.None? || n.value < 0 {
        return None;
      }
      ghost var more := Indices(raws[j + 1..]);
      ghost var before := segs;
      segs := segs + [Index(n.value)];
      if more.Some? {
        assert before + ([Index(n.value)] + more.value) == segs + more.value;
      }
    }
    assert segs + [] == segs;
    r := Some(segs);
  }

  method PartLoop(part: string) returns (r: Option<seq<Segment>>)
    ensures r == ParsePart(part)
  {
    if part == "" {
      return None;
    }
    var i := Find(part, '[');
    var raws := GroupsLoop(part[i..]);
    if raws.None? || !NameOk(part[..i]) {
      return None;
    }
    var ns := IndicesLoop(raws.value);
    r := if ns.None? then None else Some([Key(part[..i])] + ns.value);
  }

  /** parsePointer */
  method ParsePointer(p: string) returns (r: Option<seq<Segment>>)
    ensures r == Parse(p)
  {
    hide ParsePart, Split;
    if |p| < 2 || p[..2] != "$." || p[2..] == "" {
      return None;
    }
    var parts := SplitLoop(p[2..], '.');
    var segs: seq<Segment> := [];
    assert parts[0..] == parts;
    assert ParseParts(parts).Some? ==> [] + ParseParts(parts).value == ParseParts(parts).value;
    for k := 0 to |parts|
      invariant ParseParts(parts) ==
                (var more := ParseParts(parts[k..]); if more.None? then None else Some(segs + more.value))
    {
      assert parts[k..][1..] == parts[k + 1..];
      var part := PartLoop(parts[k]);
      if part.None? {
        return None;
      }
      ghost var more := ParseParts(parts[k + 1..]);
      ghost var before := segs;
      segs := segs + part.value;
      if more.Some? {
        assert before + (part.value + more.value) == segs + more.value;
      }
    }
    assert segs + [] == segs;
    r := Some(segs);
  }

  // ---- Printing -----------------------------------------------------------

  function PrintSegment(s: Segment): string {
    match s
    case Key(name) => "." + name
    case Index(n) => "[" + Decimal(n) + "]"
  }

  function PrintAll(segs: seq<Segment>): string {
    if segs == [] then "" else PrintSegment(segs[0]) + PrintAll(segs[1..])
  }

  function Print(segs: seq<Segment>): string {
    "$" + PrintAll(segs)
  }

  predicate SegmentOk(s: Segment) {
    match s
    case Key(name) => NameOk(name) && '.' !in name
    case Index(n) => n <= MAX_INT
  }

  /** Keys and bounded indices, a key first. */
  predicate WellFormed(segs: seq<Segment>) {
    && segs != [] && segs[0].Key?
    && forall i | 0 <= i < |segs| :: SegmentOk(segs[i])
  }

  lemma {:induction false} PrintSplit(a: seq<Segment>, b: seq<Segment>)
    ensures PrintAll(a + b) == PrintAll(a) + PrintAll(b)
  {
    if a == [] {
      assert a + b == b;
    } else {
      assert (a + b)[1..] == a[1..] + b;
      PrintSplit(a[1..], b);
    }
  }

  lemma FindIs(a: string, c: char, b: string)
    requires c !in a
    ensures Find(a + [c] + b, c) == |a|
    ensures Find(a, c) == |a|
  {
    var s := a + [c] + b;
    assert s[|a|] == c;
    assert forall k | 0 <= k < |a| :: s[k] == a[k] != c;
  }

  /** Digits hold none of the pointer's punctuation. */
  lemma DecimalPlain(n: nat)
    ensures '.' !in Decimal(n) && ']' !in Decimal(n)
  {
    DecimalReads(n);
  }

  ghost predicate AllIndices(segs: seq<Segment>) {
    forall i | 0 <= i < |segs| :: segs[i].Index? && segs[i].n <= MAX_INT
  }

  lemma GroupsStep(text: string, rest: string)
    requires ']' !in text
    ensures var p := "[" + text + "]" + rest;
            Groups(p) == if Groups(rest).None? then None else Some([text] + Groups(rest).value)
  {
    var p := "[" + text + "]" + rest;
    FindIs("[" + text, ']', rest);
    assert p == ("[" + text) + [']'] + rest;
    assert p[1..|text| + 1] == text && p[|text| + 2..] == rest;
  }

  lemma {:induction false} IndicesPrinted(segs: seq<Segment>)
    requires AllIndices(segs)
    ensures var raws := Groups(PrintAll(segs)); raws.Some? && Indices(raws.value) == Some(segs)
    ensures '.' !in PrintAll(segs)
    ensures segs != [] ==> PrintAll(segs) != "" && PrintAll(segs)[0] == '['
  {
    hide Groups, Atoi, Decimal;
    if segs == [] {
      GroupsNone();
    } else {
      IndicesPrinted(segs[1..]);
      var n, rest := segs[0].n, PrintAll(segs[1..]);
      AtoiDecimal(n);
      DecimalPlain(n);
      GroupsStep(Decimal(n), rest);
      assert PrintAll(segs) == "[" + Decimal(n) + "]" + rest;
      assert segs == [Index(n)] + segs[1..];
      var more := Groups(rest).value;
      assert ([Decimal(n)] + more)[1..] == more;
    }
  }

  lemma GroupsNone()
    ensures Groups("") == Some([])
  {
  }

  /** A part is its name and what its brackets say. */
  lemma PartIs(name: string, groups: string, ns: seq<Segment>)
    requires NameOk(name) && (groups == "" || groups[0] == '[')
    requires Groups(groups).Some? && Indices(Groups(groups).value) == Some(ns)
    ensures ParsePart(name + groups) == Some([Key(name)] + ns)
  {
    hide Groups, Indices, Find;
    var part := name + groups;
    assert '[' !in name;
    if groups == "" {
      assert part == name;
      FindIs(name, '[', "");
    } else {
      FindIs(name, '[', groups[1..]);
      assert part == name + ['['] + groups[1..];
    }
    assert part[..|name|] == name && part[|name|..] == groups;
  }

  lemma PartPrinted(name: string, ns: seq<Segment>)
    requires NameOk(name) && '.' !in name && AllIndices(ns)
    ensures ParsePart(name + PrintAll(ns)) == Some([Key(name)] + ns)
    ensures '.' !in name + PrintAll(ns)
  {
    hide Groups, Indices, ParsePart, NameOk;
    IndicesPrinted(ns);
    PartIs(name, PrintAll(ns), ns);
  }

  lemma SplitIs(head: string, body: string)
    requires '.' !in head
    ensures Split(head, '.') == [head]
    ensures Split(head + "." + body, '.') == [head] + Split(body, '.')
  {
    FindIs(head, '.', body);
    var s := head + "." + body;
    assert s == head + ['.'] + body;
    assert s[..|head|] == head && s[|head| + 1..] == body;
  }

  /** Where the run of index segments from position k ends. */
  function RunEnd(segs: seq<Segment>, k: nat): (n: nat)
    requires k <= |segs|
    ensures k <= n <= |segs| && (n < |segs| ==> segs[n].Key?)
    ensures forall i | k <= i < n :: segs[i].Index?
    decreases |segs| - k
  {
    if k == |segs| || segs[k].Key? then k else RunEnd(segs, k + 1)
  }

  /** The first part of a well-formed list: a key and its indices; then the rest. */
  lemma FirstPart(segs: seq<Segment>, n: nat)
    requires WellFormed(segs) && n == RunEnd(segs, 1)
    ensures NameOk(segs[0].name) && '.' !in segs[0].name && AllIndices(segs[1..n])
    ensures n < |segs| ==> WellFormed(segs[n..])
  {
    hide NameOk;
    assert SegmentOk(segs[0]);
    forall i | 0 <= i < n - 1
      ensures segs[1..n][i].Index? && segs[1..n][i].n <= MAX_INT
    {
      assert SegmentOk(segs[i + 1]);
    }
    forall i | 0 <= i < |segs| - n
      ensures SegmentOk(segs[n..][i])
    {
      assert SegmentOk(segs[n + i]);
    }
  }

  lemma FirstPrinted(segs: seq<Segment>, n: nat)
    requires 0 < n <= |segs| && segs[0].Key?
    ensures PrintAll(segs) == "." + segs[0].name + PrintAll(segs[1..n]) + PrintAll(segs[n..])
  {
    var name, ns, rest := segs[0].name, segs[1..n], segs[n..];
    assert segs[1..] == ns + rest;
    PrintSplit(ns, rest);
    assert PrintAll(segs) == PrintSegment(segs[0]) + PrintAll(segs[1..]);
    hide PrintAll;
    Reassociate("." + name, PrintAll(ns), PrintAll(rest));
  }

  lemma Reassociate(a: string, b: string, c: string)
    ensures a + b + c == a + (b + c)
  {
  }

  /** Printed text without its first dot. */
  lemma Undot(p: string, name: string, groups: string, rest: string)
    requires p == "." + name + groups + rest
    ensures p != "" && p[0] == '.'
    ensures rest == "" ==> p[1..] == name + groups
    ensures rest != "" && rest[0] == '.' ==> p[1..] == name + groups + "." + rest[1..]
  {
    if rest != "" && rest[0] == '.' {
      assert rest == "." + rest[1..];
    }
  }

  /** One part, then the parts of the rest. */
  lemma PartsStep(head: string, first: seq<Segment>, body: string, rest: seq<Segment>)
    requires '.' !in head && ParsePart(head) == Some(first)
    ensures ParseParts(Split(head, '.')) == Some(first)
    ensures ParseParts(Split(body, '.')) == Some(rest) ==>
            ParseParts(Split(head + "." + body, '.')) == Some(first + rest)
  {
    hide Split, ParsePart;
    SplitIs(head, body);
    assert ParseParts([]) == Some([]);
    assert [head][1..] == [];
    assert first + [] == first;
    assert ([head] + Split(body, '.'))[1..] == Split(body, '.');
  }

  lemma {:induction false} BodyPrinted(segs: seq<Segment>)
    requires WellFormed(segs)
    ensures PrintAll(segs) != "" && PrintAll(segs)[0] == '.'
    ensures ParseParts(Split(PrintAll(segs)[1..], '.')) == Some(segs)
    decreases |segs|
  {
    assert segs != [] && segs[0].Key?;
    hide Split, ParsePart, ParseParts, NameOk, WellFormed, AllIndices, RunEnd, PrintAll;
    var n := RunEnd(segs, 1);
    FirstPart(segs, n);
    FirstPrinted(segs, n);
    var name, ns, rest := segs[0].name, segs[1..n], segs[n..];
    PartPrinted(name, ns);
    Undot(PrintAll(segs), name, PrintAll(ns), PrintAll(rest));
    FirstWhole(segs, n);
    if rest == [] {
      PrintNothing();
      PartsStep(name + PrintAll(ns), [segs[0]] + ns, "", []);
    } else {
      BodyPrinted(rest);
      PartsStep(name + PrintAll(ns), [segs[0]] + ns, PrintAll(rest)[1..], rest);
    }
  }

  lemma FirstWhole(segs: seq<Segment>, n: nat)
    requires 0 < n <= |segs|
    ensures segs == [segs[0]] + segs[1..n] + segs[n..]
    ensures segs[n..] == [] ==> segs == [segs[0]] + segs[1..n]
  {
  }

  lemma PrintNothing()
    ensures PrintAll([]) == ""
  {
  }

  /** Parsing undoes printing, for every list of keys and bounded indices that starts with a
      key. */
  lemma ParsePrint(segs: seq<Segment>)
    requires WellFormed(segs)
    ensures Parse(Print(segs)) == Some(segs)
  {
    BodyPrinted(segs);
    assert Print(segs)[2..] == PrintAll(segs)[1..];
  }

  lemma {:induction false} SplitPlain(s: string, c: char)
    ensures forall i | 0 <= i < |Split(s, c)| :: c !in Split(s, c)[i]
    decreases |s|
  {
    var i := Find(s, c);
    if i < |s| {
      SplitPlain(s[i + 1..], c);
    }
  }

  lemma {:induction false} IndicesOk(raws: seq<string>)
    requires Indices(raws).Some?
    ensures forall i | 0 <= i < |Indices(raws).value| :: SegmentOk(Indices(raws).value[i])
  {
    if raws != [] {
      IndicesOk(raws[1..]);
    }
  }

  lemma {:induction false} PartsOk(parts: seq<string>)
    requires ParseParts(parts).Some? && parts != []
    requires forall i | 0 <= i < |parts| :: '.' !in parts[i]
    ensures WellFormed(ParseParts(parts).value)
  {
    var i := Find(parts[0], '[');
    IndicesOk(Groups(parts[0][i..]).value);
    if |parts| > 1 {
      PartsOk(parts[1..]);
    }
  }

  /** Every accepted pointer is such a list: so a pointer is accepted exactly when it parses to
      the list some well-formed pointer prints. */
  lemma AcceptedIsWellFormed(p: string)
    requires Parse(p).Some?
    ensures WellFormed(Parse(p).value)
    ensures Parse(Print(Parse(p).value)) == Parse(p)
  {
    SplitPlain(p[2..], '.');
    PartsOk(Split(p[2..], '.'));
    ParsePrint(Parse(p).value);
  }

  // ---- The walk -----------------------------------------------------------

  const MAX_ID := 200

  function Utf8Len(s: string): nat {
    if s == "" then 0
    else
      var c := s[|s| - 1] as int;
      Utf8Len(s[..|s| - 1]) + if c < 0x80 then 1 else if c < 0x800 then 2 else if c < 0x1_0000 then 3 else 4
  }

  /** scalarString: objects, arrays and null are not identities. */
  function Scalar(t: Tree): Option<string> {
    match t
    case Leaf(Str(text)) => if text == "" || Utf8Len(text) > MAX_ID then None else Some(text)
    case Leaf(Other(raw)) => if raw in {"null", ""} || Utf8Len(raw) > MAX_ID then None else Some(raw)
    case _ => None
  }

  /** The value a list of segments leads to. */
  function At(t: Tree, segs: seq<Segment>): Option<Tree> {
    if segs == [] then Some(t)
    else
      match segs[0]
      case Key(name) => if t.Node? && name in t.fields then At(t.fields[name], segs[1..]) else None
      case Index(n) => if t.List? && n < |t.items| then At(t.items[n], segs[1..]) else None
  }

  /** Extract of a bare pointer; doc is None when it is empty or does not decode. */
  function Extracted(pointer: string, doc: Option<Json>): Option<string> {
    var segs := Parse(pointer);
    if segs.None? || doc.None? then None
    else
      var v := At(ToTree(doc.value), segs.value);
      if v.None? then None else Scalar(v.value)
  }

  method Extract(pointer: string, doc: Option<Json>) returns (r: Option<string>)
    ensures r == Extracted(pointer, doc)
  {
    var segs := ParsePointer(pointer);
    if segs.None? || doc.None? {
      return None;
    }
    var v := ToTree(doc.value);
    for k := 0 to |segs.value|
      invariant At(ToTree(doc.value), segs.value) == At(v, segs.value[k..])
    {
      assert segs.value[k..][1..] == segs.value[k + 1..];
      match segs.value[k]
      case Index(n) =>
        if !v.List? || n >= |v.items| {
          return None;
        }
        v := v.items[n];
      case Key(name) =>
        if !v.Node? || name !in v.fields {
          return None;
        }
        v := v.fields[name];
    }
    r := Scalar(v);
  }

  /** A printed pointer finds what its segments lead to. */
  lemma ExtractPrinted(segs: seq<Segment>, doc: Json)
    requires WellFormed(segs)
    ensures Extracted(Print(segs), Some(doc)) ==
            (var v := At(ToTree(doc), segs); if v.None? then None else Scalar(v.value))
  {
    ParsePrint(segs);
  }
}
