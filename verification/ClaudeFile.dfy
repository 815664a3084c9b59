/** The Claude rewrite: managed entries replaced inside one container object, everything
    else kept. Model of rewriteClaude in internal/agent/harness/writer.go and of
    stripManaged and preservationCheck in internal/agent/harness/preserve.go. */
module ClaudeFile {
  import opened Prelude
  import opened TomlRender
  import opened JsonEdit

  const CONTAINER := "mcpServers"

  datatype RewriteError = NotAnObject | ContainerNotAnObject | BadTransport

  function StrPairs(pairs: Pairs): Members {
    if pairs == [] then [] else [Member(pairs[0].0, Str(pairs[0].1))] + StrPairs(pairs[1..])
  }

  function Optional(key: string, pairs: Pairs): Members {
    if pairs == [] then [] else [Member(key, Object(StrPairs(pairs)))]
  }

  /** marshalClaudeEntry: a fixed field order per transport. */
  function Encode(e: Entry): Option<Json> {
    if e.transport == "http" then
      Some(Object([Member("type", Str("http")), Member("url", Str(e.url))] + Optional("headers", e.headers)))
    else if e.transport == "stdio" then
      var args := seq(|e.args|, i requires 0 <= i < |e.args| => Str(e.args[i]));
      Some(Object([Member("type", Str("stdio")), Member("command", Str(e.command)), Member("args", Array(args))] + Optional("env", e.env)))
    else None
  }

  /** The members the entries are written as, or nothing when one cannot be encoded. */
  function EncodeAll(entries: seq<Entry>): Option<Members> {
    if entries == [] then Some([])
    else
      match (Encode(entries[0]), EncodeAll(entries[1..]))
      case (Some(v), Some(rest)) => Some([Member(entries[0].name, v)] + rest)
      case _ => None
  }

  function DelAll(ms: Members, names: seq<string>): Members
    decreases |names|
  {
    if names == [] then ms else DelAll(Del(ms, names[0]), names[1..])
  }

  /** The members of a document: none for a blank one, an error when it is no object. */
  function Parse(doc: Option<Json>): Option<Members> {
    match doc
    case None => Some([])
    case Some(Object(ms)) => Some(Dedup(ms))
    case Some(_) => None
  }

  function WithServers(root: Members, servers: Members): Members {
    if servers == [] then Del(root, CONTAINER) else Put(root, CONTAINER, Object(servers))
  }

  function Servers(root: Members): Option<Members> {
    match Lookup(root, CONTAINER)
    case None => Some([])
    case Some(raw) => Parse(Some(raw))
  }

  function Rewrite(before: Option<Json>, entries: seq<Entry>, managed: seq<string>): Result<Json, RewriteError> {
    match Parse(before)
    case None => Err(NotAnObject)
    case Some(root) =>
      match Servers(root)
      case None => Err(ContainerNotAnObject)
      case Some(servers) =>
        match EncodeAll(entries)
        case None => Err(BadTransport)
        case Some(es) => Ok(Object(WithServers(root, PutAll(DelAll(servers, managed), es))))
  }

  /** rewriteClaude: two ordered objects, edited in place. */
  method RewriteClaude(before: Option<Json>, entries: seq<Entry>, managed: seq<string>)
    returns (r: Result<Json, RewriteError>)
    ensures r == Rewrite(before, entries, managed)
  {
    var root := new JsonObject();
    if before.Some? {
      if !before.value.Object? {
        return Err(NotAnObject);
      }
      root.Parse(before.value.members);
    }
    assert root.Contents() == Parse(before).value;
    var servers := new JsonObject();
    var raw := root.Get(CONTAINER);
    if raw.Some? {
      if !raw.value.Object? {
        return Err(ContainerNotAnObject);
      }
      servers.Parse(raw.value.members);
    }
    ghost var s0 := servers.Contents();
    assert Servers(root.Contents()) == Some(s0);
    for i := 0 to |managed|
      invariant root.Valid() && servers.Valid()
      invariant root.Contents() == Parse(before).value
      invariant DelAll(servers.Contents(), managed[i..]) == DelAll(s0, managed)
    {
      assert managed[i..][1..] == managed[i + 1..];
      var _ := servers.Delete(managed[i]);
    }
    ghost var s1 := servers.Contents();
    for i := 0 to |entries|
      invariant root.Valid() && servers.Valid()
      invariant root.Contents() == Parse(before).value
      invariant EncodeAll(entries).None? <==> EncodeAll(entries[i..]).None?
      invariant EncodeAll(entries).Some? ==>
        PutAll(servers.Contents(), EncodeAll(entries[i..]).value) == PutAll(s1, EncodeAll(entries).value)
    {
      assert entries[i..][1..] == entries[i + 1..];
      var v := Encode(entries[i]);
      if v.None? {
        return Err(BadTransport);
      }
      assert EncodeAll(entries[i..]).Some? ==>
        EncodeAll(entries[i..]).value[1..] == EncodeAll(entries[i + 1..]).value;
      servers.Set(entries[i].name, v.value);
    }
    ghost var s2 := servers.Contents();
    assert servers.keys == [] <==> s2 == [];
    if servers.keys == [] {
      var _ := root.Delete(CONTAINER);
    } else {
      var encoded := Marshal(servers);
      root.Set(CONTAINER, encoded);
    }
    var out := Marshal(root);
    r := Ok(out);
  }

  /** The object's members, in their remembered order. */
  method Marshal(o: JsonObject) returns (j: Json)
    requires o.Valid()
    ensures j == Object(o.Contents())
  {
    var ms: Members := [];
    for i := 0 to |o.keys|
      invariant ms == o.Contents()[..i]
    {
      ms := ms + [Member(o.keys[i], o.values[o.keys[i]])];
    }
    j := Object(ms);
  }

  // ---- Keys stay distinct; filters commute with edits ---------------------

  lemma {:induction false} PutLookup(ms: Members, k: string, v: Json, x: string)
    ensures Lookup(Put(ms, k, v), x) == if x == k then Some(v) else Lookup(ms, x)
  {
    if ms != [] && ms[0].key != k {
      PutLookup(ms[1..], k, v, x);
    }
  }

  lemma {:induction false} PutDistinct(ms: Members, k: string, v: Json)
    requires Distinct(ms)
    ensures Distinct(Put(ms, k, v)) && Put(ms, k, v) != []
  {
    if ms != [] && ms[0].key != k {
      PutDistinct(ms[1..], k, v);
      PutLookup(ms[1..], k, v, ms[0].key);
      assert Lookup(ms[1..], ms[0].key).None?;
    }
  }

  lemma PutKeys(ms: Members, k: string, v: Json)
    requires Distinct(ms)
    ensures Distinct(Put(ms, k, v)) && Put(ms, k, v) != []
    ensures Lookup(Put(ms, k, v), k) == Some(v)
    ensures forall x | x != k :: Lookup(Put(ms, k, v), x) == Lookup(ms, x)
  {
    PutDistinct(ms, k, v);
    hide Put, Lookup, Distinct;
    forall x
      ensures Lookup(Put(ms, k, v), x) == if x == k then Some(v) else Lookup(ms, x)
    {
      PutLookup(ms, k, v, x);
    }
  }

  lemma {:induction false} DelKeys(ms: Members, k: string)
    requires Distinct(ms)
    ensures Distinct(Del(ms, k)) && Lookup(Del(ms, k), k).None?
    ensures forall x | x != k :: Lookup(Del(ms, k), x) == Lookup(ms, x)
  {
    if ms != [] {
      if ms[0].key == k {
        assert Lookup(ms[1..], k).None?;
      } else {
        DelKeys(ms[1..], k);
        var p := Del(ms[1..], k);
        assert Lookup(ms[1..], ms[0].key).None?;
        assert Lookup(p, ms[0].key).None?;
      }
    }
  }

  lemma {:induction false} PutAllKeys(ms: Members, more: Members)
    requires Distinct(ms)
    ensures Distinct(PutAll(ms, more))
    ensures ms != [] || more != [] ==> PutAll(ms, more) != []
    decreases |more|
  {
    if more != [] {
      PutKeys(ms, more[0].key, more[0].value);
      PutAllKeys(Put(ms, more[0].key, more[0].value), more[1..]);
    }
  }

  lemma {:induction false} WithoutDel(ms: Members, k: string, names: seq<string>)
    requires Distinct(ms)
    ensures Without(Del(ms, k), names) == Without(ms, [k] + names)
    ensures k in names ==> Without(Del(ms, k), names) == Without(ms, names)
  {
    if ms != [] {
      assert ms[0].key in [k] + names <==> ms[0].key == k || ms[0].key in names;
      if ms[0].key == k {
        assert Lookup(ms[1..], k).None?;
        WithoutMissing(ms[1..], k, names);
      } else {
        WithoutDel(ms[1..], k, names);
      }
    }
  }

  lemma {:induction false} WithoutMissing(ms: Members, k: string, names: seq<string>)
    requires forall i | 0 <= i < |ms| :: ms[i].key != k
    ensures Without(ms, [k] + names) == Without(ms, names)
  {
    if ms != [] {
      assert ms[0].key in [k] + names <==> ms[0].key in names;
      WithoutMissing(ms[1..], k, names);
    }
  }

  lemma {:induction false} WithoutPut(ms: Members, k: string, v: Json, names: seq<string>)
    requires k in names
    ensures Without(Put(ms, k, v), names) == Without(ms, names)
  {
    if ms != [] && ms[0].key != k {
      WithoutPut(ms[1..], k, v, names);
    }
  }

  ghost predicate Within(ms: Members, names: seq<string>) {
    forall i | 0 <= i < |ms| :: ms[i].key in names
  }

  lemma {:induction false} WithoutPutAll(ms: Members, more: Members, names: seq<string>)
    requires Within(more, names)
    ensures Without(PutAll(ms, more), names) == Without(ms, names)
    decreases |more|
  {
    if more != [] {
      WithoutPut(ms, more[0].key, more[0].value, names);
      WithoutPutAll(Put(ms, more[0].key, more[0].value), more[1..], names);
    }
  }

  lemma {:induction false} WithoutNone(ms: Members)
    ensures Without(ms, []) == ms
  {
    if ms != [] {
      WithoutNone(ms[1..]);
    }
  }

  /** Deleting name after name is filtering. */
  lemma {:induction false} DelAllIsWithout(ms: Members, names: seq<string>)
    requires Distinct(ms)
    ensures DelAll(ms, names) == Without(ms, names) && Distinct(DelAll(ms, names))
    decreases |names|
  {
    if names == [] {
      WithoutNone(ms);
    } else {
      DelKeys(ms, names[0]);
      DelAllIsWithout(Del(ms, names[0]), names[1..]);
      WithoutDel(ms, names[0], names[1..]);
      assert [names[0]] + names[1..] == names;
    }
  }

  lemma {:induction false} WithoutTwice(ms: Members, names: seq<string>)
    ensures Without(Without(ms, names), names) == Without(ms, names)
  {
    if ms != [] {
      WithoutTwice(ms[1..], names);
      var rest := Without(ms[1..], names);
      assert Without(ms, names) == if ms[0].key in names then rest else [ms[0]] + rest;
      if ms[0].key !in names {
        assert Without(ms, names)[1..] == rest;
      }
    }
  }

  lemma {:induction false} DedupSame(done: Members, ms: Members)
    requires Distinct(done + ms)
    ensures PutAll(done, ms) == done + ms
    decreases |ms|
  {
    if ms == [] {
      assert done + [] == done;
    } else {
      assert (done + ms)[|done|] == ms[0];
      forall i | 0 <= i < |done|
        ensures done[i].key != ms[0].key
      {
        assert (done + ms)[i] == done[i];
      }
      PutNew(done, ms[0].key, ms[0].value);
      assert done + [ms[0]] + ms[1..] == done + ms;
      DedupSame(done + [ms[0]], ms[1..]);
    }
  }

  lemma DedupDistinct(ms: Members)
    requires Distinct(ms)
    ensures Dedup(ms) == ms
  {
    assert [] + ms == ms;
    DedupSame([], ms);
  }

  lemma {:induction false} EncodedNames(entries: seq<Entry>, managed: seq<string>)
    requires EncodeAll(entries).Some? && forall i | 0 <= i < |entries| :: entries[i].name in managed
    ensures Within(EncodeAll(entries).value, managed)
  {
    hide Encode;
    if entries != [] {
      EncodedNames(entries[1..], managed);
    }
  }

  // ---- What a rewrite keeps -----------------------------------------------

  /** Unmanaged keys keep their raw values and relative order at both levels. */
  lemma RewriteKeepsOrder(before: Option<Json>, entries: seq<Entry>, managed: seq<string>)
    requires forall i | 0 <= i < |entries| :: entries[i].name in managed
    requires Rewrite(before, entries, managed).Ok?
    ensures var root, after := Parse(before).value, Rewrite(before, entries, managed).value;
      && after.Object? && Distinct(root) && Distinct(after.members)
      && Without(after.members, [CONTAINER]) == Without(root, [CONTAINER])
      && Servers(after.members).Some?
      && Without(Servers(after.members).value, managed) == Without(Servers(root).value, managed)
  {
    hide Encode;
    var root, es := Parse(before).value, EncodeAll(entries).value;
    ParsedDistinct(before);
    var servers := Servers(root).value;
    ParsedDistinct(if Lookup(root, CONTAINER).Some? then Lookup(root, CONTAINER) else None);
    DelAllIsWithout(servers, managed);
    var next := PutAll(DelAll(servers, managed), es);
    PutAllKeys(DelAll(servers, managed), es);
    EncodedNames(entries, managed);
    WithoutPutAll(DelAll(servers, managed), es, managed);
    WithoutTwice(servers, managed);
    ServersBack(root, next);
    WithoutDel(root, CONTAINER, [CONTAINER]);
    WithoutPut(root, CONTAINER, Object(next), [CONTAINER]);
  }

  lemma ParsedDistinct(doc: Option<Json>)
    requires Parse(doc).Some?
    ensures Distinct(Parse(doc).value)
  {
    if doc.Some? {
      PutAllKeys([], doc.value.members);
    }
  }

  /** What was written into the container is what is read out of it. */
  lemma ServersBack(root: Members, servers: Members)
    requires Distinct(root) && Distinct(servers)
    ensures Servers(WithServers(root, servers)) == Some(servers) && Distinct(WithServers(root, servers))
  {
    DelKeys(root, CONTAINER);
    PutKeys(root, CONTAINER, Object(servers));
    DedupDistinct(servers);
  }

  /** Rewriting the rewritten document gives the same ordered object. */
  lemma RewriteIdempotent(before: Option<Json>, entries: seq<Entry>, managed: seq<string>)
    requires forall i | 0 <= i < |entries| :: entries[i].name in managed
    requires Rewrite(before, entries, managed).Ok?
    ensures Rewrite(Some(Rewrite(before, entries, managed).value), entries, managed) == Rewrite(before, entries, managed)
  {
    hide Encode;
    var root, es := Parse(before).value, EncodeAll(entries).value;
    ParsedDistinct(before);
    var servers := Servers(root).value;
    ParsedDistinct(if Lookup(root, CONTAINER).Some? then Lookup(root, CONTAINER) else None);
    DelAllIsWithout(servers, managed);
    var kept := Without(servers, managed);
    var next := PutAll(kept, es);
    PutAllKeys(kept, es);
    EncodedNames(entries, managed);
    WithoutPutAll(kept, es, managed);
    WithoutTwice(servers, managed);
    DelAllIsWithout(next, managed);
    ServersBack(root, next);
    var after := WithServers(root, next);
    DedupDistinct(after);
    WithServersTwice(root, next);
  }

  lemma WithServersTwice(root: Members, servers: Members)
    requires Distinct(root)
    ensures WithServers(WithServers(root, servers), servers) == WithServers(root, servers)
  {
    DelKeys(root, CONTAINER);
    if servers == [] {
      DelMissing(Del(root, CONTAINER), CONTAINER);
    } else {
      PutTwice(root, CONTAINER, Object(servers));
    }
  }

  lemma {:induction false} PutTwice(ms: Members, k: string, v: Json)
    ensures Put(Put(ms, k, v), k, v) == Put(ms, k, v)
  {
    if ms != [] && ms[0].key != k {
      PutTwice(ms[1..], k, v);
    }
  }

  // ---- The preservation equation ------------------------------------------

  /** parseJSONTree: a blank document is an empty tree, a non-object does not parse. */
  function ParseTree(doc: Option<Json>): Option<map<string, Tree>> {
    match doc
    case None => Some(map[])
    case Some(Object(ms)) => Some(Fields(ms))
    case Some(_) => None
  }

  /** stripManaged: the named entries leave the container, and an emptied container leaves
      the tree. */
  function StripManaged(tree: map<string, Tree>, container: string, names: seq<string>): map<string, Tree> {
    if container in tree && tree[container].Node? then
      var left := tree[container].fields - (set n | n in names);
      if left == map[] then tree - {container} else tree[container := Node(left)]
    else tree
  }

  lemma {:induction false} FieldsLookup(ms: Members, k: string)
    requires Distinct(ms)
    ensures k in Fields(ms) <==> Lookup(ms, k).Some?
    ensures k in Fields(ms) ==> Fields(ms)[k] == ToTree(Lookup(ms, k).value)
    decreases |ms|
  {
    if ms != [] {
      var n := |ms| - 1;
      FieldsLookup(ms[..n], k);
      LookupSnoc(ms, k);
    }
  }

  lemma {:induction false} LookupSnoc(ms: Members, k: string)
    requires ms != []
    ensures Lookup(ms, k) == if Lookup(ms[..|ms| - 1], k).Some? then Lookup(ms[..|ms| - 1], k)
                             else if ms[|ms| - 1].key == k then Some(ms[|ms| - 1].value) else None
  {
    var n := |ms| - 1;
    if n > 0 {
      LookupSnoc(ms[1..], k);
      assert ms[1..][..n - 1] == ms[..n][1..] && ms[1..][n - 1] == ms[n];
    }
  }

  lemma {:induction false} FieldsAfterPut(ms: Members, k: string, v: Json)
    requires Distinct(ms)
    ensures Fields(Put(ms, k, v)) == Fields(ms)[k := ToTree(v)]
  {
    PutKeys(ms, k, v);
    forall x
      ensures x in Fields(Put(ms, k, v)) <==> x in Fields(ms)[k := ToTree(v)]
      ensures x in Fields(Put(ms, k, v)) ==> Fields(Put(ms, k, v))[x] == Fields(ms)[k := ToTree(v)][x]
    {
      FieldsLookup(ms, x);
      FieldsLookup(Put(ms, k, v), x);
    }
  }

  /** Reading duplicates away does not change the tree. */
  lemma {:induction false} FieldsDedup(done: Members, raw: Members)
    requires Distinct(done)
    ensures Fields(PutAll(done, raw)) == Fields(done) + Fields(raw)
    decreases |raw|
  {
    if raw != [] {
      var n := |raw| - 1;
      PutAllSnoc(done, raw);
      FieldsDedup(done, raw[..n]);
      PutAllKeys(done, raw[..n]);
      FieldsAfterPut(PutAll(done, raw[..n]), raw[n].key, raw[n].value);
      FieldsSnoc(raw);
      hide PutAll, Put, Fields, Distinct;
      UnionPut(Fields(done), Fields(raw[..n]), raw[n].key, ToTree(raw[n].value));
    }
  }

  lemma FieldsSnoc(ms: Members)
    requires ms != []
    ensures var last := ms[|ms| - 1]; Fields(ms) == Fields(ms[..|ms| - 1])[last.key := ToTree(last.value)]
  {
  }

  lemma UnionPut(a: map<string, Tree>, b: map<string, Tree>, k: string, v: Tree)
    ensures a + b[k := v] == (a + b)[k := v]
  {
  }

  lemma {:induction false} PutAllSnoc(done: Members, raw: Members)
    requires raw != []
    ensures var n := |raw| - 1;
      PutAll(done, raw) == Put(PutAll(done, raw[..n]), raw[n].key, raw[n].value)
    decreases |raw|
  {
    var n := |raw| - 1;
    if n > 0 {
      PutAllSnoc(Put(done, raw[0].key, raw[0].value), raw[1..]);
      assert raw[1..][..n - 1] == raw[..n][1..];
    }
  }

  lemma {:induction false} WithoutLookup(ms: Members, names: seq<string>, k: string)
    ensures Lookup(Without(ms, names), k) == if k in names then None else Lookup(ms, k)
  {
    if ms != [] {
      WithoutLookup(ms[1..], names, k);
      if ms[0].key in names {
        assert Without(ms, names) == Without(ms[1..], names);
      } else {
        assert Without(ms, names) == [ms[0]] + Without(ms[1..], names);
        assert Without(ms, names)[1..] == Without(ms[1..], names);
      }
    }
  }

  lemma {:induction false} WithoutDistinct(ms: Members, names: seq<string>)
    requires Distinct(ms)
    ensures Distinct(Without(ms, names))
  {
    if ms != [] {
      WithoutDistinct(ms[1..], names);
      WithoutLookup(ms[1..], names, ms[0].key);
      assert Lookup(ms[1..], ms[0].key).None?;
    }
  }

  lemma StrippedFields(ms: Members, names: seq<string>)
    requires Distinct(ms)
    ensures Fields(ms) - (set n | n in names) == Fields(Without(ms, names))
  {
    WithoutDistinct(ms, names);
    hide Fields, Without, Lookup, Distinct;
    forall k
      ensures k in Fields(ms) && k !in names <==> k in Fields(Without(ms, names))
      ensures k in Fields(Without(ms, names)) ==> Fields(ms)[k] == Fields(Without(ms, names))[k]
    {
      FieldsLookup(ms, k);
      WithoutLookup(ms, names, k);
      FieldsLookup(Without(ms, names), k);
    }
  }

  /** The residual tree of a document depends only on the unmanaged members at both levels. */
  lemma Residual(doc: Option<Json>, names: seq<string>)
    requires Parse(doc).Some? && Servers(Parse(doc).value).Some?
    ensures var root := Parse(doc).value;
      var left := Fields(Without(Servers(root).value, names));
      && ParseTree(doc).Some?
      && StripManaged(ParseTree(doc).value, CONTAINER, names)
         == if left == map[] then Fields(root) - {CONTAINER} else Fields(root)[CONTAINER := Node(left)]
  {
    ReadBack(doc);
    var root := Parse(doc).value;
    ParsedDistinct(doc);
    FieldsLookup(root, CONTAINER);
    var servers := Servers(root).value;
    if Lookup(root, CONTAINER).Some? {
      var inner := Lookup(root, CONTAINER).value;
      ReadBack(Some(inner));
      ParsedDistinct(Some(inner));
      StrippedFields(servers, names);
      hide Without, Lookup, Distinct, Dedup;
      assert ParseTree(doc).value[CONTAINER] == Node(Fields(servers));
    } else {
      assert Without([], names) == [];
    }
  }

  /** The ordered members of a document hold its tree. */
  lemma ReadBack(doc: Option<Json>)
    requires Parse(doc).Some?
    ensures ParseTree(doc) == Some(Fields(Parse(doc).value))
  {
    if doc.Some? {
      var raw := doc.value.members;
      FieldsDedup([], raw);
      assert map[] + Fields(raw) == Fields(raw);
    }
  }

  /** For every document whose container is absent or an object, duplicate keys included:
      parse(after) - managed == parse(before) - managed. */
  lemma RewritePreserves(before: Option<Json>, entries: seq<Entry>, managed: seq<string>)
    requires forall i | 0 <= i < |entries| :: entries[i].name in managed && Encode(entries[i]).Some?
    requires Parse(before).Some? && Servers(Parse(before).value).Some?
    ensures Rewrite(before, entries, managed).Ok?
    ensures var after := Some(Rewrite(before, entries, managed).value);
      && ParseTree(before).Some? && ParseTree(after).Some?
      && StripManaged(ParseTree(after).value, CONTAINER, managed)
         == StripManaged(ParseTree(before).value, CONTAINER, managed)
  {
    hide Encode, StripManaged;
    AllEncode(entries);
    RewriteKeepsOrder(before, entries, managed);
    var root, after := Parse(before).value, Rewrite(before, entries, managed).value;
    DedupDistinct(after.members);
    Residual(before, managed);
    Residual(Some(after), managed);
    StrippedFields(root, [CONTAINER]);
    StrippedFields(after.members, [CONTAINER]);
    var one := set n | n in [CONTAINER];
    assert one == {CONTAINER};
    SameButOne(Fields(root), Fields(after.members), CONTAINER, Node(Fields(Without(Servers(root).value, managed))));
  }

  lemma {:induction false} AllEncode(entries: seq<Entry>)
    requires forall i | 0 <= i < |entries| :: Encode(entries[i]).Some?
    ensures EncodeAll(entries).Some?
  {
    hide Encode;
    if entries != [] {
      AllEncode(entries[1..]);
    }
  }

  lemma SameButOne(a: map<string, Tree>, b: map<string, Tree>, k: string, v: Tree)
    requires a - {k} == b - {k}
    ensures a[k := v] == b[k := v]
  {
    assert a[k := v] == (a - {k})[k := v];
    assert b[k := v] == (b - {k})[k := v];
  }
}
