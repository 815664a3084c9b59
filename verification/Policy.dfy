/** The server-held capability policy: what a grant for a harness may carry. Model of
    internal/policy/policy.go. Upper- and lower-casing of non-ASCII characters is the
    parameter fold. */
module Policy {
  import opened Names
  import opened Prelude

  type Capability = string

  type Fold = char -> char

  const READ: Capability := "connector.read"
  const WRITE: Capability := "connector.write"
  const DELETE: Capability := "connector.delete"
  const SEND: Capability := "connector.send"

  // ---- Normalisation ------------------------------------------------------

  function LowerChar(c: char, fold: Fold): char {
    if 'A' <= c <= 'Z' then (c as int + 32) as char else if c as int < 0x80 then c else fold(c)
  }

  function Lower(s: string, fold: Fold): (r: string)
    ensures |r| == |s| && forall i | 0 <= i < |s| :: r[i] == LowerChar(s[i], fold)
  {
    if s == "" then "" else Lower(s[..|s| - 1], fold) + [LowerChar(s[|s| - 1], fold)]
  }

  function Normalize(s: string, fold: Fold): string {
    Lower(TrimSpace(s), fold)
  }

  // ---- The policy ---------------------------------------------------------

  datatype HarnessPolicy = HarnessPolicy(allowed: seq<Capability>, byDefault: seq<Capability>)

  type Policies = map<string, HarnessPolicy>

  function DefaultPolicies(): Policies {
    var caps := [READ, WRITE, DELETE];
    map["claude-code" := HarnessPolicy(caps, caps), "codex" := HarnessPolicy(caps, caps)]
  }

  predicate PolicyOk(hp: HarnessPolicy) {
    forall i | 0 <= i < |hp.byDefault| :: hp.byDefault[i] in hp.allowed
  }

  /** Validate: every default lies within its own allowed set. */
  method Validate(p: Policies) returns (ok: bool)
    ensures ok <==> forall h | h in p :: PolicyOk(p[h])
  {
    var left := p.Keys;
    while left != {}
      invariant left <= p.Keys
      invariant forall h | h in p && h !in left :: PolicyOk(p[h])
    {
      var h :| h in left;
      left := left - {h};
      var hp := p[h];
      var allowed: set<Capability> := {};
      for i := 0 to |hp.allowed|
        invariant allowed == set c | c in hp.allowed[..i]
      {
        assert hp.allowed[..i + 1] == hp.allowed[..i] + [hp.allowed[i]];
        allowed := allowed + {hp.allowed[i]};
      }
      assert hp.allowed[..|hp.allowed|] == hp.allowed;
      for i := 0 to |hp.byDefault|
        invariant forall k | 0 <= k < i :: hp.byDefault[k] in hp.allowed
      {
        if hp.byDefault[i] !in allowed {
          return false;
        }
      }
    }
    ok := true;
  }

  datatype ResolveError = UnknownHarness | NotPermitted(refused: seq<string>)

  /** The capability names a request really asks for. */
  function Asked(requested: seq<string>, fold: Fold): set<string> {
    set i | 0 <= i < |requested| && Normalize(requested[i], fold) != "" :: Normalize(requested[i], fold)
  }

  /** The loop of Resolve: what is granted, once each, and what is refused. */
  method Sift(requested: seq<string>, allowed: seq<Capability>, fold: Fold)
    returns (granted: seq<string>, refused: seq<string>)
    ensures Unique(granted)
    ensures Elements(granted) == Asked(requested, fold) * Elements(allowed)
    ensures Elements(refused) == Asked(requested, fold) - Elements(allowed)
  {
    hide Normalize;
    granted, refused := [], [];
    for i := 0 to |requested|
      invariant Unique(granted)
      invariant Elements(granted) == Asked(requested[..i], fold) * Elements(allowed)
      invariant Elements(refused) == Asked(requested[..i], fold) - Elements(allowed)
    {
      hide Asked;
      var c := Normalize(requested[i], fold);
      AskedNext(requested, i, fold);
      if c == "" {
        continue;
      }
      if c !in allowed {
        ElementsNext(refused, c);
        refused := refused + [c];
        continue;
      }
      if c in granted {
        continue;
      }
      ElementsNext(granted, c);
      granted := granted + [c];
    }
    assert requested[..|requested|] == requested;
  }

  /** Resolve: the harness's default when nothing is asked for, exactly the set asked for when
      all of it is allowed, and otherwise a refusal naming what is not. */
  method Resolve(p: Policies, harness: string, requested: seq<string>, fold: Fold)
    returns (r: Result<seq<string>, ResolveError>)
    ensures Resolved(p, harness, requested, fold, r)
  {
    assert Sorted([]);
    hide Normalize, SortStrings, Asked, Elements, Unique, Sorted;
    var known := Normalize(harness, fold);
    if known !in p {
      return Err(UnknownHarness);
    }
    var hp := p[known];
    if |requested| == 0 {
      SortKeeps(hp.byDefault);
      SortSorts(hp.byDefault);
      return Ok(SortStrings(hp.byDefault));
    }
    var granted, refused := Sift(requested, hp.allowed, fold);
    SortKeeps(refused);
    SortKeeps(granted);
    SortSorts(refused);
    SortSorts(granted);
    NoElements(refused);
    NoElements(granted);
    ghost var asked, allowed := Asked(requested, fold), Elements(hp.allowed);
    if |refused| > 0 {
      return Err(NotPermitted(SortStrings(refused)));
    }
    NothingLeft(asked, allowed);
    if |granted| == 0 {
      return Err(NotPermitted([]));
    }
    r := Ok(SortStrings(granted));
  }

  /** What a resolution is, without the loop; every list it returns is sorted. */
  ghost predicate Resolved(p: Policies, harness: string, requested: seq<string>, fold: Fold,
                           r: Result<seq<string>, ResolveError>)
  {
    if Normalize(harness, fold) !in p then r == Err(UnknownHarness)
    else
      var hp := p[Normalize(harness, fold)];
      var asked := Asked(requested, fold);
      match r
      case Ok(caps) =>
        Sorted(caps) &&
        if requested == [] then multiset(caps) == multiset(hp.byDefault)
        else asked != {} && asked <= Elements(hp.allowed) && Elements(caps) == asked && Unique(caps)
      case Err(UnknownHarness) => false
      case Err(NotPermitted(refused)) =>
        requested != [] && Sorted(refused) && Elements(refused) == asked - Elements(hp.allowed) && (refused != [] || asked == {})
  }

  lemma AskedNext(requested: seq<string>, i: nat, fold: Fold)
    requires i < |requested|
    ensures var c := Normalize(requested[i], fold);
            Asked(requested[..i + 1], fold) == Asked(requested[..i], fold) + if c == "" then {} else {c}
  {
    hide Normalize;
    var now, next := requested[..i], requested[..i + 1];
    forall c | c in Asked(next, fold)
      ensures c in Asked(now, fold) || c == Normalize(requested[i], fold) != ""
    {
      var k :| 0 <= k < |next| && Normalize(next[k], fold) == c != "";
      if k < i {
        assert now[k] == next[k];
      }
    }
    forall c | c in Asked(now, fold)
      ensures c in Asked(next, fold)
    {
      var k :| 0 <= k < |now| && Normalize(now[k], fold) == c != "";
      assert next[k] == now[k];
    }
    assert next[i] == requested[i];
  }

  /** Under a validated policy a grant carries nothing outside its harness's allowed set, on
      either path. */
  lemma NeverBeyondAllowed(p: Policies, harness: string, requested: seq<string>, fold: Fold,
                           caps: seq<string>)
    requires forall h | h in p :: PolicyOk(p[h])
    requires Resolved(p, harness, requested, fold, Ok(caps))
    ensures Normalize(harness, fold) in p
    ensures forall i | 0 <= i < |caps| :: caps[i] in p[Normalize(harness, fold)].allowed
  {
    var hp := p[Normalize(harness, fold)];
    forall i | 0 <= i < |caps|
      ensures caps[i] in hp.allowed
    {
      if requested == [] {
        assert caps[i] in multiset(caps);
        assert caps[i] in hp.byDefault;
      } else {
        assert caps[i] in Elements(caps);
      }
    }
  }

  /** The default grant: a request that names nothing gets exactly the three for either harness, and
      no other harness gets any. */
  lemma DefaultGrantIs(harness: string, fold: Fold, r: Result<seq<string>, ResolveError>)
    requires Resolved(DefaultPolicies(), harness, [], fold, r)
    ensures Normalize(harness, fold) in {"claude-code", "codex"} ==>
      r.Ok? && Sorted(r.value) && multiset(r.value) == multiset{"connector.read", "connector.write", "connector.delete"}
    ensures Normalize(harness, fold) !in {"claude-code", "codex"} ==> r == Err(UnknownHarness)
  {
    hide Normalize, Sorted;
    var caps := [READ, WRITE, DELETE];
    assert multiset(caps) == multiset{"connector.read", "connector.write", "connector.delete"};
  }
}
