/** JSON as written and as decoded, and the order-preserving object edited in place. Model of
    internal/agent/harness/jsonedit.go; byte layout is not modelled. */
module JsonEdit {
  import opened Prelude
  import opened TomlRender

  /** A JSON value as written: object members in order, duplicate keys included. */
  datatype Json = Object(members: seq<Member>) | Array(items: seq<Json>) | Str(text: string) | Other(raw: string)

  datatype Member = Member(key: string, value: Json)

  type Members = seq<Member>

  // ---- Ordered members ----------------------------------------------------

  ghost predicate Distinct(ms: Members) {
    forall i, j | 0 <= i < j < |ms| :: ms[i].key != ms[j].key
  }

  function Lookup(ms: Members, k: string): (r: Option<Json>)
    ensures r.Some? ==> exists i | 0 <= i < |ms| :: ms[i] == Member(k, r.value)
    ensures r.None? ==> forall i | 0 <= i < |ms| :: ms[i].key != k
  {
    if ms == [] then None else if ms[0].key == k then Some(ms[0].value) else Lookup(ms[1..], k)
  }

  /** Replace in place, or append. */
  function Put(ms: Members, k: string, v: Json): Members {
    if ms == [] then [Member(k, v)]
    else if ms[0].key == k then [Member(k, v)] + ms[1..]
    else [ms[0]] + Put(ms[1..], k, v)
  }

  function Del(ms: Members, k: string): Members {
    if ms == [] then [] else if ms[0].key == k then ms[1..] else [ms[0]] + Del(ms[1..], k)
  }

  function PutAll(ms: Members, more: Members): Members
    decreases |more|
  {
    if more == [] then ms else PutAll(Put(ms, more[0].key, more[0].value), more[1..])
  }

  /** Duplicate keys read: first position, last value. */
  function Dedup(raw: Members): Members {
    PutAll([], raw)
  }

  /** The members whose key is not one of names, in order. */
  function Without(ms: Members, names: seq<string>): Members {
    if ms == [] then [] else (if ms[0].key in names then [] else [ms[0]]) + Without(ms[1..], names)
  }

  // ---- Decoded values -----------------------------------------------------

  /** A document as a comparable tree: objects become maps, the last duplicate winning. */
  datatype Tree = Node(fields: map<string, Tree>) | List(items: seq<Tree>) | Leaf(value: Json)

  function ToTree(j: Json): Tree
    decreases j, 0
  {
    match j
    case Object(ms) => Node(Fields(ms))
    case Array(items) => List(Trees(items))
    case Str(_) => Leaf(j)
    case Other(_) => Leaf(j)
  }

  function Fields(ms: Members): map<string, Tree>
    decreases ms, 1
  {
    if ms == [] then map[]
    else
      var last := ms[|ms| - 1];
      Fields(ms[..|ms| - 1])[last.key := ToTree(last.value)]
  }

  function Trees(items: seq<Json>): seq<Tree>
    decreases items, 1
  {
    if items == [] then [] else [ToTree(items[0])] + Trees(items[1..])
  }

  // ---- jsonObject ---------------------------------------------------------

  /** A JSON object with its key order remembered: keys and values change in place. */
  class JsonObject {
    var keys: seq<string>
    var values: map<string, Json>

    ghost predicate Valid()
      reads this
    {
      && (forall i, j | 0 <= i < j < |keys| :: keys[i] != keys[j])
      && (forall k :: k in values <==> k in keys)
    }

    ghost function Contents(): (ms: Members)
      requires Valid()
      reads this
    {
      Listed(keys, values)
    }

    constructor ()
      ensures Valid() && Contents() == []
    {
      keys, values := [], map[];
    }

    method Get(key: string) returns (r: Option<Json>)
      requires Valid()
      ensures r == Lookup(Contents(), key)
    {
      ListedLookup(keys, values, key);
      r := if key in values then Some(values[key]) else None;
    }

    method Set(key: string, value: Json)
      requires Valid()
      modifies this
      ensures Valid() && Contents() == Put(old(Contents()), key, value)
    {
      ListedPut(keys, values, key, value);
      if key !in values {
        keys := keys + [key];
      }
      values := values[key := value];
    }

    /** Where a present key stands. */
    method Position(key: string) returns (i: nat)
      requires key in keys
      ensures i < |keys| && keys[i] == key
    {
      i := 0;
      while keys[i] != key
        invariant i < |keys| && key !in keys[..i]
        decreases |keys| - i
      {
        assert key in keys[i + 1..];
        i := i + 1;
      }
    }

    method Delete(key: string) returns (found: bool)
      requires Valid()
      modifies this
      ensures Valid() && Contents() == Del(old(Contents()), key)
      ensures found == Lookup(old(Contents()), key).Some?
    {
      ListedLookup(keys, values, key);
      hide Lookup, Del, Listed;
      if key !in values {
        DelMissing(Contents(), key);
        return false;
      }
      var i := Position(key);
      ListedDel(keys, values, key, i);
      ListedKeys(keys, i);
      keys, values := keys[..i] + keys[i + 1..], values - {key};
      found := true;
    }

    /** Reads members one token pair at a time; a repeated key keeps its first place. */
    method Parse(raw: Members)
      requires Valid() && Contents() == []
      modifies this
      ensures Valid() && Contents() == Dedup(raw)
    {
      for i := 0 to |raw|
        invariant Valid() && PutAll(Contents(), raw[i..]) == Dedup(raw)
      {
        assert raw[i..][1..] == raw[i + 1..];
        Set(raw[i].key, raw[i].value);
      }
    }
  }

  ghost function Listed(keys: seq<string>, values: map<string, Json>): (ms: Members)
    requires forall k :: k in values <==> k in keys
    ensures |ms| == |keys|
  {
    seq(|keys|, i requires 0 <= i < |keys| => Member(keys[i], values[keys[i]]))
  }

  lemma ListedKeys(keys: seq<string>, i: nat)
    requires i < |keys| && forall a, b | 0 <= a < b < |keys| :: keys[a] != keys[b]
    ensures var rest := keys[..i] + keys[i + 1..]; forall a, b | 0 <= a < b < |rest| :: rest[a] != rest[b]
  {
  }

  lemma ListedLookup(keys: seq<string>, values: map<string, Json>, key: string)
    requires forall k :: k in values <==> k in keys
    ensures Lookup(Listed(keys, values), key) == if key in values then Some(values[key]) else None
  {
    var ms := Listed(keys, values);
    if key in values {
      var i :| 0 <= i < |keys| && keys[i] == key;
      assert ms[i].key == key;
    }
  }

  lemma {:induction false} PutAt(ms: Members, i: nat, v: Json)
    requires i < |ms| && Distinct(ms)
    ensures Put(ms, ms[i].key, v) == ms[i := Member(ms[i].key, v)]
  {
    if i > 0 {
      assert ms[0].key != ms[i].key;
      PutAt(ms[1..], i - 1, v);
      assert [ms[0]] + ms[1..][i - 1 := Member(ms[i].key, v)] == ms[i := Member(ms[i].key, v)];
    } else {
      assert [Member(ms[0].key, v)] + ms[1..] == ms[0 := Member(ms[0].key, v)];
    }
  }

  lemma {:induction false} PutNew(ms: Members, k: string, v: Json)
    requires forall i | 0 <= i < |ms| :: ms[i].key != k
    ensures Put(ms, k, v) == ms + [Member(k, v)]
  {
    if ms != [] {
      PutNew(ms[1..], k, v);
      assert [ms[0]] + (ms[1..] + [Member(k, v)]) == ms + [Member(k, v)];
    }
  }

  lemma ListedPut(keys: seq<string>, values: map<string, Json>, key: string, value: Json)
    requires forall i, j | 0 <= i < j < |keys| :: keys[i] != keys[j]
    requires forall k :: k in values <==> k in keys
    ensures var keys' := if key in values then keys else keys + [key];
      Listed(keys', values[key := value]) == Put(Listed(keys, values), key, value)
  {
    var ms := Listed(keys, values);
    if key in values {
      var i :| 0 <= i < |keys| && keys[i] == key;
      PutAt(ms, i, value);
    } else {
      PutNew(ms, key, value);
    }
  }

  lemma {:induction false} DelMissing(ms: Members, k: string)
    requires forall i | 0 <= i < |ms| :: ms[i].key != k
    ensures Del(ms, k) == ms
  {
    if ms != [] {
      DelMissing(ms[1..], k);
    }
  }

  lemma {:induction false} DelAt(ms: Members, i: nat)
    requires i < |ms| && forall j | 0 <= j < i :: ms[j].key != ms[i].key
    ensures Del(ms, ms[i].key) == ms[..i] + ms[i + 1..]
  {
    if i > 0 {
      assert ms[0].key != ms[i].key;
      DelAt(ms[1..], i - 1);
      assert [ms[0]] + (ms[1..][..i - 1] + ms[1..][i..]) == ms[..i] + ms[i + 1..];
    }
  }

  lemma ListedDel(keys: seq<string>, values: map<string, Json>, key: string, i: nat)
    requires forall a, b | 0 <= a < b < |keys| :: keys[a] != keys[b]
    requires forall k :: k in values <==> k in keys
    requires i < |keys| && keys[i] == key
    ensures forall k :: k in values - {key} <==> k in keys[..i] + keys[i + 1..]
    ensures Listed(keys[..i] + keys[i + 1..], values - {key}) == Del(Listed(keys, values), key)
  {
    var keys' := keys[..i] + keys[i + 1..];
    forall k
      ensures k in values - {key} <==> k in keys'
    {
      if k in keys && k != key {
        var j :| 0 <= j < |keys| && keys[j] == k;
        assert keys'[if j < i then j else j - 1] == k;
      }
    }
    DelAt(Listed(keys, values), i);
  }
}
