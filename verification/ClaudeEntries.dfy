/** What the Claude rewrite leaves in the file, name by name, told by looking it up. Model of
    rewriteClaude and marshalClaudeEntry in internal/agent/harness/writer.go. */
module ClaudeEntries {
  import opened Prelude
  import opened TomlRender
  import opened JsonEdit
  import opened ClaudeFile

  // ---- Looking things up --------------------------------------------------

  /** What a JSON reader takes for the key: the last member that has it. */
  function LastOf(ms: Members, k: string): Option<Json> {
    if ms == [] then None
    else if ms[|ms| - 1].key == k then Some(ms[|ms| - 1].value)
    else LastOf(ms[..|ms| - 1], k)
  }

  function Field(j: Json, k: string): Option<Json> {
    match j
    case Object(ms) => LastOf(ms, k)
    case _ => None
  }

  /** What the document holds under a name in the container, and under a key beside it. */
  function Held(doc: Option<Json>, name: string): Option<Json> {
    match doc
    case None => None
    case Some(root) => match Field(root, CONTAINER) case None => None case Some(servers) => Field(servers, name)
  }

  function Beside(doc: Option<Json>, k: string): Option<Json> {
    match doc
    case None => None
    case Some(root) => Field(root, k)
  }

  /** The last entry of that name. */
  function LastNamed(entries: seq<Entry>, name: string): Option<Entry> {
    if entries == [] then None
    else if entries[|entries| - 1].name == name then Some(entries[|entries| - 1])
    else LastNamed(entries[..|entries| - 1], name)
  }

  // ---- Lookups and edits --------------------------------------------------

  lemma {:induction false} PutAllLookup(ms: Members, more: Members, k: string)
    ensures Lookup(PutAll(ms, more), k) == if LastOf(more, k).Some? then LastOf(more, k) else Lookup(ms, k)
    decreases |more|
  {
    if more != [] {
      var n := |more| - 1;
      PutAllSnoc(ms, more);
      PutAllLookup(ms, more[..n], k);
      PutLookup(PutAll(ms, more[..n]), more[n].key, more[n].value, k);
    }
  }

  lemma DedupLookup(ms: Members, k: string)
    ensures Lookup(Dedup(ms), k) == LastOf(ms, k)
  {
    PutAllLookup([], ms, k);
  }

  lemma {:induction false} DistinctLast(ms: Members, k: string)
    requires Distinct(ms)
    ensures LastOf(ms, k) == Lookup(ms, k)
  {
    DedupDistinct(ms);
    DedupLookup(ms, k);
  }

  lemma {:induction false} EncodedLast(entries: seq<Entry>, name: string)
    requires EncodeAll(entries).Some?
    ensures |EncodeAll(entries).value| == |entries|
    ensures forall i | 0 <= i < |entries| ::
      Encode(entries[i]).Some? && EncodeAll(entries).value[i] == Member(entries[i].name, Encode(entries[i]).value)
  {
    hide Encode;
    if entries != [] {
      EncodedLast(entries[1..], name);
    }
  }

  lemma {:induction false} LastEncoded(entries: seq<Entry>, es: Members, name: string)
    requires |es| == |entries|
    requires forall i | 0 <= i < |entries| ::
      Encode(entries[i]).Some? && es[i] == Member(entries[i].name, Encode(entries[i]).value)
    ensures LastNamed(entries, name).None? ==> LastOf(es, name).None?
    ensures LastNamed(entries, name).Some? ==>
      Encode(LastNamed(entries, name).value).Some? && LastOf(es, name) == Encode(LastNamed(entries, name).value)
  {
    hide Encode;
    if entries != [] {
      LastEncoded(entries[..|entries| - 1], es[..|es| - 1], name);
    }
  }

  // ---- What is in the file afterwards -------------------------------------

  /** For every document, entries, managed names and name: in the container the result holds the
      encoding of the last entry of that name; nothing for a managed name without an entry; what
      was there otherwise. Beside the container every key holds what it held. */
  lemma HeldAfter(before: Option<Json>, entries: seq<Entry>, managed: seq<string>, name: string)
    requires Rewrite(before, entries, managed).Ok?
    ensures var after := Some(Rewrite(before, entries, managed).value);
      && (LastNamed(entries, name).Some? ==> Encode(LastNamed(entries, name).value).Some?)
      && Held(after, name) == (if LastNamed(entries, name).Some? then Encode(LastNamed(entries, name).value)
                               else if name in managed then None
                               else Held(before, name))
      && (name != CONTAINER ==> Beside(after, name) == Beside(before, name))
  {
    hide Encode;
    var root, es := Parse(before).value, EncodeAll(entries).value;
    var servers := Servers(root).value;
    ParsedDistinct(before);
    ParsedDistinct(if Lookup(root, CONTAINER).Some? then Lookup(root, CONTAINER) else None);
    DelAllIsWithout(servers, managed);
    var next := PutAll(DelAll(servers, managed), es);
    PutAllKeys(DelAll(servers, managed), es);
    PutAllLookup(DelAll(servers, managed), es, name);
    WithoutLookup(servers, managed, name);
    EncodedLast(entries, name);
    LastEncoded(entries, es, name);
    HeldBefore(before, name);
    HeldIn(root, next, name);
  }

  /** What the parsed document's objects hold is what the document holds. */
  lemma HeldBefore(doc: Option<Json>, name: string)
    requires Parse(doc).Some? && Servers(Parse(doc).value).Some?
    ensures Held(doc, name) == Lookup(Servers(Parse(doc).value).value, name)
    ensures Beside(doc, name) == Lookup(Parse(doc).value, name)
  {
    if doc.Some? {
      DedupLookup(doc.value.members, CONTAINER);
      DedupLookup(doc.value.members, name);
      var inner := LastOf(doc.value.members, CONTAINER);
      if inner.Some? {
        DedupLookup(inner.value.members, name);
      }
    }
  }

  lemma HeldIn(root: Members, servers: Members, name: string)
    requires Distinct(root) && Distinct(servers)
    ensures Held(Some(Object(WithServers(root, servers))), name) == Lookup(servers, name)
    ensures name != CONTAINER ==> Beside(Some(Object(WithServers(root, servers))), name) == Lookup(root, name)
  {
    var after := WithServers(root, servers);
    ServersBack(root, servers);
    DelKeys(root, CONTAINER);
    PutKeys(root, CONTAINER, Object(servers));
    DistinctLast(after, CONTAINER);
    DistinctLast(after, name);
    DistinctLast(servers, name);
  }

  /** The container is there exactly when it holds something. */
  lemma ContainerIff(before: Option<Json>, entries: seq<Entry>, managed: seq<string>)
    requires Rewrite(before, entries, managed).Ok?
    ensures var after := Some(Rewrite(before, entries, managed).value);
      Beside(after, CONTAINER).Some? <==> exists name :: Held(after, name).Some?
  {
    hide Encode;
    var root := Parse(before).value;
    var servers := Servers(root).value;
    ParsedDistinct(before);
    ParsedDistinct(if Lookup(root, CONTAINER).Some? then Lookup(root, CONTAINER) else None);
    DelAllIsWithout(servers, managed);
    var next := PutAll(DelAll(servers, managed), EncodeAll(entries).value);
    PutAllKeys(DelAll(servers, managed), EncodeAll(entries).value);
    var after := WithServers(root, next);
    ServersBack(root, next);
    DelKeys(root, CONTAINER);
    PutKeys(root, CONTAINER, Object(next));
    DistinctLast(after, CONTAINER);
    if next != [] {
      HeldIn(root, next, next[0].key);
      assert Held(Some(Object(after)), next[0].key).Some?;
    }
  }

  // ---- What an entry is encoded as ----------------------------------------

  function TextAt(j: Json, k: string): Option<string> {
    match Field(j, k)
    case Some(Str(text)) => Some(text)
    case _ => None
  }

  function TextsIn(items: seq<Json>): Option<seq<string>> {
    if items == [] then Some([])
    else
      match (items[0], TextsIn(items[1..]))
      case (Str(text), Some(more)) => Some([text] + more)
      case _ => None
  }

  function ListAt(j: Json, k: string): Option<seq<string>> {
    match Field(j, k)
    case Some(Array(items)) => TextsIn(items)
    case _ => None
  }

  function PairsIn(ms: Members): Option<Pairs> {
    if ms == [] then Some([])
    else
      match (ms[0].value, PairsIn(ms[1..]))
      case (Str(text), Some(more)) => Some([(ms[0].key, text)] + more)
      case _ => None
  }

  /** A map of strings, empty when it is not there. */
  function PairsAt(j: Json, k: string): Option<Pairs> {
    match Field(j, k)
    case None => Some([])
    case Some(Object(ms)) => PairsIn(ms)
    case _ => None
  }

  lemma {:induction false} PairsBack(pairs: Pairs)
    ensures PairsIn(StrPairs(pairs)) == Some(pairs)
  {
    if pairs != [] {
      PairsBack(pairs[1..]);
      assert StrPairs(pairs)[1..] == StrPairs(pairs[1..]);
      assert [pairs[0]] + pairs[1..] == pairs;
    }
  }

  lemma {:induction false} TextsBack(args: seq<string>, items: seq<Json>)
    requires |items| == |args| && forall i | 0 <= i < |args| :: items[i] == Str(args[i])
    ensures TextsIn(items) == Some(args)
  {
    if args != [] {
      TextsBack(args[1..], items[1..]);
      assert [args[0]] + args[1..] == args;
    }
  }

  lemma LastSnoc(ms: Members, m: Member, k: string)
    ensures LastOf(ms + [m], k) == if m.key == k then Some(m.value) else LastOf(ms, k)
  {
    assert (ms + [m])[..|ms|] == ms;
  }

  /** The last of two members and at most one more. */
  lemma LastOfFew(ms: Members, more: Members, k: string)
    requires |more| <= 1
    ensures LastOf(ms + more, k) == if more != [] && more[0].key == k then Some(more[0].value) else LastOf(ms, k)
  {
    if more == [] {
      assert ms + more == ms;
    } else {
      assert more == [more[0]];
      LastSnoc(ms, more[0], k);
    }
  }

  lemma LastOfTwo(a: Member, b: Member, k: string)
    ensures LastOf([a, b], k) == if b.key == k then Some(b.value) else if a.key == k then Some(a.value) else None
  {
    assert [] + [a] + [b] == [a, b];
    LastSnoc([], a, k);
    LastSnoc([] + [a], b, k);
  }

  lemma LastOfThree(a: Member, b: Member, c: Member, k: string)
    ensures LastOf([a, b, c], k) == if c.key == k then Some(c.value) else LastOf([a, b], k)
  {
    assert [a, b] + [c] == [a, b, c];
    LastSnoc([a, b], c, k);
  }

  lemma HttpReadsBack(e: Entry)
    requires e.transport == "http"
    ensures Encode(e).Some?
    ensures var j := Encode(e).value;
      TextAt(j, "type") == Some("http") && TextAt(j, "url") == Some(e.url) && PairsAt(j, "headers") == Some(e.headers)
  {
    PairsBack(e.headers);
    var a, b := Member("type", Str("http")), Member("url", Str(e.url));
    forall k
      ensures LastOf([a, b] + Optional("headers", e.headers), k)
           == if e.headers != [] && k == "headers" then Some(Object(StrPairs(e.headers)))
              else if b.key == k then Some(b.value) else if a.key == k then Some(a.value) else None
    {
      LastOfFew([a, b], Optional("headers", e.headers), k);
      LastOfTwo(a, b, k);
    }
    hide LastOf, StrPairs, PairsIn;
  }

  lemma StdioReadsBack(e: Entry)
    requires e.transport == "stdio"
    ensures Encode(e).Some?
    ensures var j := Encode(e).value;
      && TextAt(j, "type") == Some("stdio") && TextAt(j, "command") == Some(e.command)
      && ListAt(j, "args") == Some(e.args) && PairsAt(j, "env") == Some(e.env)
  {
    PairsBack(e.env);
    var ms := Encode(e).value.members;
    var a, b, c := ms[0], ms[1], ms[2];
    assert ms == [a, b, c] + Optional("env", e.env);
    TextsBack(e.args, c.value.items);
    forall k
      ensures LastOf(ms, k)
           == if e.env != [] && k == "env" then Some(Object(StrPairs(e.env)))
              else if c.key == k then Some(c.value)
              else if b.key == k then Some(b.value) else if a.key == k then Some(a.value) else None
    {
      LastOfFew([a, b, c], Optional("env", e.env), k);
      LastOfThree(a, b, c, k);
      LastOfTwo(a, b, k);
    }
    hide LastOf, StrPairs, PairsIn, TextsIn;
  }

  /** Every valid entry the rewrite is given last under its name reads back from the result: its
      transport and URL with the headers, or its command with arguments and environment. */
  lemma EntryReadsBack(before: Option<Json>, entries: seq<Entry>, managed: seq<string>, name: string)
    requires Rewrite(before, entries, managed).Ok? && LastNamed(entries, name).Some?
    ensures var e := LastNamed(entries, name).value;
      && Held(Some(Rewrite(before, entries, managed).value), name).Some?
      && var j := Held(Some(Rewrite(before, entries, managed).value), name).value;
         && TextAt(j, "type") == Some(e.transport)
         && (e.transport == "http" ==> TextAt(j, "url") == Some(e.url) && PairsAt(j, "headers") == Some(e.headers))
         && (e.transport != "http" ==>
               TextAt(j, "command") == Some(e.command) && ListAt(j, "args") == Some(e.args) && PairsAt(j, "env") == Some(e.env))
  {
    var e := LastNamed(entries, name).value;
    HeldAfter(before, entries, managed, name);
    EncodesTransport(e);
    hide Encode, Rewrite, Held;
    if e.transport == "http" {
      HttpReadsBack(e);
    } else {
      StdioReadsBack(e);
    }
  }

  lemma EncodesTransport(e: Entry)
    ensures Encode(e).Some? <==> e.transport == "http" || e.transport == "stdio"
  {
  }
}
