/** Lists of names: string order, sorting, and what a list holds. */
module Names {

  /** String order, by scalar value. */
  predicate Below(a: string, b: string) {
    b != "" && (a == "" || a[0] < b[0] || (a[0] == b[0] && Below(a[1..], b[1..])))
  }

  function Insert(s: seq<string>, x: string): (r: seq<string>)
    ensures multiset(r) == multiset(s) + multiset{x}
  {
    if s == [] || !Below(x, s[|s| - 1]) then s + [x]
    else
      assert s == s[..|s| - 1] + [s[|s| - 1]];
      Insert(s[..|s| - 1], x) + [s[|s| - 1]]
  }

  function SortStrings(s: seq<string>): (r: seq<string>)
    ensures multiset(r) == multiset(s)
  {
    if s == [] then []
    else
      assert s == s[..|s| - 1] + [s[|s| - 1]];
      Insert(SortStrings(s[..|s| - 1]), s[|s| - 1])
  }

  predicate AtMost(a: string, b: string) {
    !Below(b, a)
  }

  ghost predicate Sorted(s: seq<string>) {
    forall i, j | 0 <= i < j < |s| :: AtMost(s[i], s[j])
  }

  lemma {:induction false} BelowAntisymmetric(a: string, b: string)
    ensures !(Below(a, b) && Below(b, a))
    decreases |a|
  {
    if a != "" && b != "" && a[0] == b[0] {
      BelowAntisymmetric(a[1..], b[1..]);
    }
  }

  lemma {:induction false} AtMostTransitive(a: string, b: string, c: string)
    requires AtMost(a, b) && AtMost(b, c)
    ensures AtMost(a, c)
    decreases |a|
  {
    if a != "" && b != "" && c != "" && a[0] == b[0] == c[0] {
      AtMostTransitive(a[1..], b[1..], c[1..]);
    }
  }

  lemma {:induction false} InsertSorted(s: seq<string>, x: string)
    requires Sorted(s)
    ensures Sorted(Insert(s, x))
  {
    if s == [] {
    } else if !Below(x, s[|s| - 1]) {
      forall i | 0 <= i < |s|
        ensures AtMost(s[i], x)
      {
        if i < |s| - 1 {
          AtMostTransitive(s[i], s[|s| - 1], x);
        }
      }
    } else {
      var front, last := s[..|s| - 1], s[|s| - 1];
      InsertSorted(front, x);
      var r := Insert(front, x);
      BelowAntisymmetric(x, last);
      forall i | 0 <= i < |r|
        ensures AtMost(r[i], last)
      {
        assert r[i] in multiset(r);
        if r[i] != x {
          assert r[i] in multiset(front);
          var j :| 0 <= j < |front| && front[j] == r[i];
          assert s[j] == r[i];
        }
      }
    }
  }

  lemma {:induction false} SortSorts(s: seq<string>)
    ensures Sorted(SortStrings(s))
  {
    if s != [] {
      SortSorts(s[..|s| - 1]);
      InsertSorted(SortStrings(s[..|s| - 1]), s[|s| - 1]);
    }
  }

  ghost predicate Unique(s: seq<string>) {
    forall i, j | 0 <= i < j < |s| :: s[i] != s[j]
  }

  ghost function Elements(s: seq<string>): set<string> {
    set c | c in s
  }

  lemma NothingLeft(asked: set<string>, allowed: set<string>)
    requires asked - allowed == {}
    ensures asked <= allowed && asked * allowed == asked
  {
    forall c | c in asked
      ensures c in allowed
    {
      assert c !in asked - allowed;
    }
  }

  lemma NoElements(s: seq<string>)
    ensures Elements(s) == {} <==> s == []
  {
    if s != [] {
      assert s[0] in Elements(s);
    }
  }

  lemma ElementsNext(s: seq<string>, c: string)
    ensures Elements(s + [c]) == Elements(s) + {c}
  {
  }

  lemma SortKeeps(s: seq<string>)
    ensures multiset(SortStrings(s)) == multiset(s) && Elements(SortStrings(s)) == Elements(s)
    ensures Unique(s) ==> Unique(SortStrings(s))
    ensures SortStrings(s) == [] <==> s == []
  {
    var t := SortStrings(s);
    assert |multiset(t)| == |t| && |multiset(s)| == |s|;
    forall c
      ensures c in s <==> c in t
    {
      assert c in multiset(s) <==> c in multiset(t);
    }
    if Unique(s) {
      UniqueCounts(s);
      CountsUnique(t);
    }
  }

  lemma {:induction false} UniqueCounts(s: seq<string>)
    requires Unique(s)
    ensures forall c :: multiset(s)[c] <= 1
  {
    if s != [] {
      var front := s[..|s| - 1];
      UniqueCounts(front);
      assert s == front + [s[|s| - 1]];
      assert s[|s| - 1] !in front;
    }
  }

  lemma {:induction false} CountsUnique(s: seq<string>)
    requires forall c :: multiset(s)[c] <= 1
    ensures Unique(s)
  {
    if s != [] {
      var front, last := s[..|s| - 1], s[|s| - 1];
      assert s == front + [last];
      assert multiset(s) == multiset(front) + multiset{last};
      forall c
        ensures multiset(front)[c] <= 1
      {
        assert multiset(s)[c] <= 1;
      }
      CountsUnique(front);
      assert multiset(s)[last] <= 1;
      forall i | 0 <= i < |front|
        ensures front[i] != last
      {
        assert front[i] in multiset(front);
      }
    }
  }
}
