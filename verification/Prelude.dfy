/** Shared datatypes and the few text operations every editor uses. A document is
    a sequence of Unicode scalar values; the scanners compare ASCII characters only. */
module Prelude {

  datatype Option<+T> = None | Some(value: T)

  datatype Result<+T, +E> = Ok(value: T) | Err(error: E)

  /** Suffix from index n, empty when an escape has pushed n past the end. */
  function Drop(s: string, n: nat): string {
    if n <= |s| then s[n..] else ""
  }

  /** The characters Unicode (and Go's unicode.IsSpace) counts as white space. */
  predicate IsSpace(c: char) {
    || '\t' <= c <= '\r' || c == ' ' || c == '\U{0085}' || c == '\U{00A0}' || c == '\U{1680}'
    || '\U{2000}' <= c <= '\U{200A}' || c == '\U{2028}' || c == '\U{2029}' || c == '\U{202F}'
    || c == '\U{205F}' || c == '\U{3000}'
  }

  predicate Blank(s: string) {
    forall i | 0 <= i < |s| :: IsSpace(s[i])
  }

  function TrimLeft(s: string): (r: string)
    ensures |r| <= |s| && (r != "" ==> !IsSpace(r[0]))
  {
    if s != "" && IsSpace(s[0]) then TrimLeft(s[1..]) else s
  }

  function TrimRight(s: string): (r: string)
    ensures r <= s && (r != "" ==> !IsSpace(r[|r| - 1]))
  {
    if s != "" && IsSpace(s[|s| - 1]) then TrimRight(s[..|s| - 1]) else s
  }

  function TrimSpace(s: string): string {
    TrimRight(TrimLeft(s))
  }

  /** Horizontal white space: what may pad a TOML header. */
  predicate IsPad(c: char) {
    c == ' ' || c == '\t'
  }

  function TrimPad(s: string): (r: string)
    ensures |r| <= |s|
    ensures r != "" ==> !IsPad(r[0])
  {
    if s != "" && IsPad(s[0]) then TrimPad(s[1..]) else s
  }

  /** The characters stripped from a document's end before a block is appended. */
  predicate IsTail(c: char) {
    c == ' ' || c == '\t' || c == '\r' || c == '\n'
  }

  function TrimTail(s: string): (r: string)
    ensures |r| <= |s| && r == s[..|r|]
    ensures r != "" ==> !IsTail(r[|r| - 1])
    ensures forall i | |r| <= i < |s| :: IsTail(s[i])
  {
    if s != "" && IsTail(s[|s| - 1]) then TrimTail(s[..|s| - 1]) else s
  }

  lemma {:induction false} TrimTailUnique(a: string, w: string)
    requires a != "" ==> !IsTail(a[|a| - 1])
    requires forall c <- w :: IsTail(c)
    ensures TrimTail(a + w) == a
  {
    var r := TrimTail(a + w);
    assert a != "" ==> (a + w)[|a| - 1] == a[|a| - 1];
    assert forall i | |a| <= i < |a + w| :: (a + w)[i] == w[i - |a|];
    assert |r| == |a|;
  }

  function Join(parts: seq<string>, sep: string): string {
    if parts == [] then "" else if |parts| == 1 then parts[0] else parts[0] + sep + Join(parts[1..], sep)
  }

  lemma SliceSlice<T>(s: seq<T>, lo: nat, hi: nat, a: nat, b: nat)
    requires lo <= hi <= |s| && a <= b <= hi - lo
    ensures s[lo..hi][a..b] == s[lo + a..lo + b]
  {
    var t := s[lo..hi];
    assert forall i | 0 <= i < |t| :: t[i] == s[lo + i];
    forall i | 0 <= i < b - a
      ensures t[a..b][i] == s[lo + a..lo + b][i]
    {
      assert t[a..b][i] == t[a + i];
    }
  }
}
