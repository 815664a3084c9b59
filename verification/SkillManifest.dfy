/** The ownership record of the skills linker: which links are ours to change. Model of the
    Manifest type of internal/agent/skills/link.go. */
module SkillManifest {
  import opened Prelude

  /** A link path: an entry of one harness's skills directory. */
  datatype Path = Path(dir: string, name: string)

  /** What a path holds: a real file or directory, or a symbolic link. */
  datatype Entry = Real | Link(target: string)

  type Disk = map<Path, Entry>

  datatype LinkRecord = LinkRecord(harness: string, path: Path, target: string)

  datatype Key = Key(harness: string, path: Path)

  /** What a manifest says: the target recorded for a harness and a path. */
  type Claims = map<Key, string>

  function KeyOf(r: LinkRecord): Key {
    Key(r.harness, r.path)
  }

  ghost predicate Unique(links: seq<LinkRecord>) {
    forall i, j | 0 <= i < j < |links| :: KeyOf(links[i]) != KeyOf(links[j])
  }

  function View(links: seq<LinkRecord>): Claims {
    if links == [] then map[]
    else View(links[..|links| - 1])[KeyOf(links[|links| - 1]) := links[|links| - 1].target]
  }

  /** Recorded, and still pointing where the record says. */
  predicate Owned(disk: Disk, claims: Claims, harness: string, path: Path) {
    var k := Key(harness, path);
    k in claims && path in disk && disk[path] == Link(claims[k])
  }

  lemma {:induction false} ViewHolds(links: seq<LinkRecord>, k: Key)
    requires Unique(links)
    ensures k in View(links) <==> exists i | 0 <= i < |links| :: KeyOf(links[i]) == k
    ensures forall i | 0 <= i < |links| && KeyOf(links[i]) == k :: k in View(links) && View(links)[k] == links[i].target
  {
    if links != [] {
      var front, last := links[..|links| - 1], links[|links| - 1];
      ViewHolds(front, k);
      assert forall i | 0 <= i < |front| :: front[i] == links[i];
      if KeyOf(last) == k {
        assert KeyOf(links[|links| - 1]) == k;
      } else if k in View(front) {
        var i :| 0 <= i < |front| && KeyOf(front[i]) == k;
        assert KeyOf(links[i]) == k;
      }
    }
  }

  lemma ViewsAgree(a: Claims, b: Claims)
    requires forall k: Key :: (k in a <==> k in b) && (k in a ==> a[k] == b[k])
    ensures a == b
  {
  }

  /** The records but those of one key, in order. */
  function Without(links: seq<LinkRecord>, k: Key): seq<LinkRecord> {
    if links == [] then []
    else Without(links[..|links| - 1], k) + if KeyOf(links[|links| - 1]) == k then [] else [links[|links| - 1]]
  }

  lemma {:induction false} WithoutKeeps(links: seq<LinkRecord>, k: Key)
    requires Unique(links)
    ensures Unique(Without(links, k))
    ensures forall i | 0 <= i < |Without(links, k)| :: Without(links, k)[i] in links && KeyOf(Without(links, k)[i]) != k
  {
    if links != [] {
      var front, last := links[..|links| - 1], links[|links| - 1];
      WithoutKeeps(front, k);
      var rest := Without(front, k);
      forall i | 0 <= i < |rest|
        ensures KeyOf(rest[i]) != KeyOf(last)
      {
        var j :| 0 <= j < |front| && front[j] == rest[i];
        assert links[j] == rest[i];
      }
    }
  }

  lemma ViewLast(front: seq<LinkRecord>, last: LinkRecord)
    ensures View(front + [last]) == View(front)[KeyOf(last) := last.target]
  {
    assert (front + [last])[..|front|] == front;
  }

  lemma WithoutLast(front: seq<LinkRecord>, last: LinkRecord, k: Key)
    ensures Without(front + [last], k) == if KeyOf(last) == k then Without(front, k) else Without(front, k) + [last]
  {
    assert (front + [last])[..|front|] == front;
  }

  lemma PutThenDrop(c: Claims, at: Key, target: string, k: Key)
    ensures c[at := target] - {k} == if at == k then c - {k} else (c - {k})[at := target]
  {
  }

  lemma {:induction false} WithoutView(links: seq<LinkRecord>, k: Key)
    ensures View(Without(links, k)) == View(links) - {k}
  {
    if links != [] {
      var front, last := links[..|links| - 1], links[|links| - 1];
      WithoutView(front, k);
      assert links == front + [last];
      hide View, Without;
      ViewLast(front, last);
      ViewLast(Without(front, k), last);
      WithoutLast(front, last, k);
      PutThenDrop(View(front), KeyOf(last), last.target, k);
    }
  }

  class Manifest {
    var links: seq<LinkRecord>

    constructor (links: seq<LinkRecord>)
      ensures this.links == links
    {
      this.links := links;
    }

    /** recorded */
    method Recorded(harness: string, path: Path) returns (r: Option<LinkRecord>)
      requires Unique(links)
      ensures r.Some? <==> Key(harness, path) in View(links)
      ensures r.Some? ==> r.value == LinkRecord(harness, path, View(links)[Key(harness, path)])
    {
      ViewHolds(links, Key(harness, path));
      for i := 0 to |links|
        invariant forall k | 0 <= k < i :: KeyOf(links[k]) != Key(harness, path)
      {
        if links[i].harness == harness && links[i].path == path {
          assert KeyOf(links[i]) == Key(harness, path);
          return Some(links[i]);
        }
      }
      r := None;
    }

    /** owns */
    method Owns(disk: Disk, harness: string, path: Path) returns (r: bool)
      requires Unique(links)
      ensures r <==> Owned(disk, View(links), harness, path)
    {
      ViewHolds(links, Key(harness, path));
      for i := 0 to |links|
        invariant forall k | 0 <= k < i :: KeyOf(links[k]) != Key(harness, path)
      {
        if links[i].harness != harness || links[i].path != path {
          continue;
        }
        assert KeyOf(links[i]) == Key(harness, path);
        return path in disk && disk[path] == Link(links[i].target);
      }
      r := false;
    }

    /** record: in place when the key is there, appended otherwise. */
    method Record(e: LinkRecord)
      requires Unique(links)
      modifies this
      ensures Unique(links) && View(links) == old(View(links))[KeyOf(e) := e.target]
    {
      ghost var was := links;
      for i := 0 to |links|
        invariant links == was
        invariant forall k | 0 <= k < i :: KeyOf(links[k]) != KeyOf(e)
      {
        if links[i].harness == e.harness && links[i].path == e.path {
          links := links[i := e];
          forall k: Key
            ensures k in View(links) <==> k in View(was)[KeyOf(e) := e.target]
            ensures k in View(links) ==> View(links)[k] == View(was)[KeyOf(e) := e.target][k]
          {
            RecordedInPlace(was, i, e, k);
          }
          ViewsAgree(View(links), View(was)[KeyOf(e) := e.target]);
          return;
        }
      }
      links := links + [e];
      assert links[..|was|] == was;
    }

    /** forget */
    method Forget(harness: string, path: Path)
      requires Unique(links)
      modifies this
      ensures Unique(links) && View(links) == old(View(links)) - {Key(harness, path)}
    {
      var out: seq<LinkRecord> := [];
      for i := 0 to |links|
        invariant out == Without(links[..i], Key(harness, path))
      {
        assert links[..i + 1][..i] == links[..i];
        if links[i].harness == harness && links[i].path == path {
          continue;
        }
        out := out + [links[i]];
      }
      assert links[..|links|] == links;
      WithoutView(links, Key(harness, path));
      WithoutKeeps(links, Key(harness, path));
      links := out;
    }
  }

  lemma RecordedInPlace(links: seq<LinkRecord>, i: nat, e: LinkRecord, k: Key)
    requires Unique(links) && i < |links| && KeyOf(links[i]) == KeyOf(e)
    ensures Unique(links[i := e])
    ensures k in View(links[i := e]) <==> k in View(links)[KeyOf(e) := e.target]
    ensures k in View(links[i := e]) ==> View(links[i := e])[k] == View(links)[KeyOf(e) := e.target][k]
  {
    var next := links[i := e];
    assert forall j | 0 <= j < |links| :: KeyOf(next[j]) == KeyOf(links[j]);
    ViewHolds(links, k);
    ViewHolds(next, k);
    if k in View(next) {
      var j :| 0 <= j < |next| && KeyOf(next[j]) == k;
      assert KeyOf(links[j]) == k;
    }
    if k in View(links) {
      var j :| 0 <= j < |links| && KeyOf(links[j]) == k;
      assert KeyOf(next[j]) == k;
    }
  }
}
