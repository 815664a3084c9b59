/** When a grant resolved from the policy is held to its harness's allowed list to the letter:
    internal/policy/policy.go against internal/server/connectors/engine.go, which compares
    capabilities after normalising what the grant carries. */
module LetterBound {
  import opened Prelude
  import opened Names
  import opened Manifest
  import opened Authorization
  import Policy

  /** Lower-casing leaves its own results alone and neither makes nor removes white space. */
  ghost predicate FoldOk(fold: Policy.Fold) {
    forall c :: var l := Policy.LowerChar(c, fold); Policy.LowerChar(l, fold) == l && (IsSpace(l) <==> IsSpace(c))
  }

  lemma TrimmedStays(s: string)
    requires s != "" ==> !IsSpace(s[0]) && !IsSpace(s[|s| - 1])
    ensures TrimSpace(s) == s
  {
  }

  lemma NormalizeTwice(s: string, fold: Policy.Fold)
    requires FoldOk(fold)
    ensures Policy.Normalize(Policy.Normalize(s, fold), fold) == Policy.Normalize(s, fold)
  {
    var t := TrimSpace(s);
    assert t != "" ==> t[0] == TrimLeft(s)[0];
    var n := Policy.Lower(t, fold);
    forall i | 0 <= i < |n|
      ensures Policy.LowerChar(n[i], fold) == n[i] && (IsSpace(n[i]) <==> IsSpace(t[i]))
    {
      assert n[i] == Policy.LowerChar(t[i], fold);
    }
    TrimmedStays(n);
    assert Policy.Lower(n, fold) == n;
  }

  /** Every default that means a capability of the manifest's vocabulary, however it is spelt,
      means one the allowed list names. */
  predicate DefaultsNamed(hp: Policy.HarnessPolicy, fold: Policy.Fold) {
    forall i | 0 <= i < |hp.byDefault| ::
      var c := Policy.Normalize(hp.byDefault[i], fold);
      KnownCapability(c) ==> c in hp.allowed
  }

  /** A declaration asks only for what the list names. */
  ghost predicate Named(t: Mapping, req: Request, class_: ActionClass, allowed: seq<string>) {
    && ClassCapability(class_).Some? && ClassCapability(class_).value in allowed
    && forall k | 0 <= k < |t.guards| :: Applies(t.guards[k], req.args) ==> t.guards[k].capability in allowed
  }

  ghost predicate AdmittedNamed(m: Manifest, req: Request, class_: ActionClass, allowed: seq<string>) {
    exists i, j | 0 <= i < |m.connectors| && 0 <= j < |m.connectors[i].tools| ::
      && m.connectors[i].provider == req.provider && m.connectors[i].tools[j].tool == req.tool
      && Named(m.connectors[i].tools[j], req, class_, allowed)
  }

  /** The request carries what the policy resolved for the harness, and the engine admits it. */
  ghost predicate AdmittedUnder(p: Policy.Policies, harness: string, requested: seq<string>, m: Manifest, req: Request,
                                class_: ActionClass, fold: Policy.Fold)
  {
    && Policy.Resolved(p, harness, requested, fold, Ok(req.caller.capabilities)) && ManifestOk(m)
    && Decide(Index(m.connectors), req, fold).Allowed()
    && Decide(Index(m.connectors), req, fold).class_ == Some(class_)
  }

  /** Whatever is asked for, and whatever manifest is registered, no admitted call needs a
      capability the harness's allowed list does not name. */
  ghost predicate ToTheLetter(p: Policy.Policies, harness: string, fold: Policy.Fold)
    requires Policy.Normalize(harness, fold) in p
  {
    forall requested: seq<string>, m: Manifest, req: Request, class_: ActionClass ::
      AdmittedUnder(p, harness, requested, m, req, class_, fold) ==>
        AdmittedNamed(m, req, class_, p[Policy.Normalize(harness, fold)].allowed)
  }

  /** A known capability a resolved grant holds is one the allowed list names. */
  lemma HeldIsNamed(p: Policy.Policies, harness: string, requested: seq<string>, caps: seq<string>, want: Capability,
                    fold: Policy.Fold)
    requires Policy.Resolved(p, harness, requested, fold, Ok(caps)) && FoldOk(fold)
    requires KnownCapability(want) && HasCapability(caps, want, fold)
    requires DefaultsNamed(p[Policy.Normalize(harness, fold)], fold)
    ensures want in p[Policy.Normalize(harness, fold)].allowed
  {
    hide Policy.Normalize, FoldOk;
    var hp := p[Policy.Normalize(harness, fold)];
    var i :| 0 <= i < |caps| && Policy.Normalize(caps[i], fold) == want;
    if requested == [] {
      assert caps[i] in multiset(caps);
      var k :| 0 <= k < |hp.byDefault| && hp.byDefault[k] == caps[i];
    } else {
      assert caps[i] in Elements(caps);
      var k :| 0 <= k < |requested| && Policy.Normalize(requested[k], fold) == caps[i];
      NormalizeTwice(requested[k], fold);
      assert caps[i] in Elements(hp.allowed);
    }
  }

  lemma NamedHolds(p: Policy.Policies, harness: string, requested: seq<string>, m: Manifest, req: Request,
                   class_: ActionClass, fold: Policy.Fold)
    requires AdmittedUnder(p, harness, requested, m, req, class_, fold) && FoldOk(fold)
    requires DefaultsNamed(p[Policy.Normalize(harness, fold)], fold)
    ensures AdmittedNamed(m, req, class_, p[Policy.Normalize(harness, fold)].allowed)
  {
    AdmitsIff(m, req, class_, fold);
    hide Policy.Normalize, FoldOk, Decide, Index, HasCapability, Applies, DefaultsNamed, Policy.Resolved;
    var allowed, caps := p[Policy.Normalize(harness, fold)].allowed, req.caller.capabilities;
    var i, j :| 0 <= i < |m.connectors| && 0 <= j < |m.connectors[i].tools| &&
                m.connectors[i].provider == req.provider && AdmittedBy(m.connectors[i].tools[j], req, class_, fold);
    var t := m.connectors[i].tools[j];
    assert ConnectorOk(m.connectors[i]) && MappingOk(t);
    HeldIsNamed(p, harness, requested, caps, ClassCapability(class_).value, fold);
    forall k | 0 <= k < |t.guards| && Applies(t.guards[k], req.args)
      ensures t.guards[k].capability in allowed
    {
      assert GuardOk(t.guards[k]);
      HeldIsNamed(p, harness, requested, caps, t.guards[k].capability, fold);
    }
  }

  // ---- The other way ------------------------------------------------------

  function ClassOf(c: Capability): ActionClass {
    if c == Policy.READ then Read else if c == Policy.WRITE then Write else if c == Policy.SEND then Send else Delete
  }

  /** A one-tool manifest whose tool needs the capability, and a machine's call to it. */
  function OneTool(c: Capability): Mapping {
    Mapping("t", ClassOf(c), None, "", true, [])
  }

  function OneManifest(c: Capability): Manifest {
    Manifest(VERSION, [Connector("p", true, [], [OneTool(c)], [])])
  }

  function CallWith(caps: seq<string>): Request {
    Request("p", "t", None, Caller(Machine, "m", "h", "g", caps))
  }

  lemma OneManifestOk(c: Capability)
    requires KnownCapability(c)
    ensures ManifestOk(OneManifest(c)) && ClassCapability(ClassOf(c)) == Some(c)
  {
    var one := OneManifest(c).connectors[0];
    assert MappingOk(one.tools[0]);
    assert DistinctNames(one);
    assert ConnectorOk(one);
  }

  /** A default that means an unnamed capability: the grant for an empty request admits a call
      that needs it. */
  lemma UnnamedAdmitted(p: Policy.Policies, harness: string, i: nat, fold: Policy.Fold)
    requires Policy.Normalize(harness, fold) in p && i < |p[Policy.Normalize(harness, fold)].byDefault|
    requires KnownCapability(Policy.Normalize(p[Policy.Normalize(harness, fold)].byDefault[i], fold))
    requires Policy.Normalize(p[Policy.Normalize(harness, fold)].byDefault[i], fold)
             !in p[Policy.Normalize(harness, fold)].allowed
    ensures !ToTheLetter(p, harness, fold)
  {
    var hp := p[Policy.Normalize(harness, fold)];
    var c := Policy.Normalize(hp.byDefault[i], fold);
    var caps := SortStrings(hp.byDefault);
    var m, req, class_ := OneManifest(c), CallWith(caps), ClassOf(c);
    OneManifestOk(c);
    SortSorts(hp.byDefault);
    hide Policy.Normalize, SortStrings, ManifestOk, KnownCapability;
    assert hp.byDefault[i] in multiset(hp.byDefault) && hp.byDefault[i] in multiset(caps);
    var k :| 0 <= k < |caps| && caps[k] == hp.byDefault[i];
    assert HasCapability(caps, c, fold);
    assert AdmittedBy(OneTool(c), req, class_, fold);
    assert Admissible(m, req, class_, fold) by {
      assert m.connectors[0].provider == req.provider && AdmittedBy(m.connectors[0].tools[0], req, class_, fold);
    }
    AdmitsIff(m, req, class_, fold);
    assert AdmittedUnder(p, harness, [], m, req, class_, fold);
    assert !AdmittedNamed(m, req, class_, hp.allowed);
  }

  /** The bound holds to the letter exactly when every default that means a known capability
      means one the allowed list names; a request that names its capabilities is always bound. */
  lemma ToTheLetterIff(p: Policy.Policies, harness: string, fold: Policy.Fold)
    requires Policy.Normalize(harness, fold) in p && FoldOk(fold)
    ensures ToTheLetter(p, harness, fold) <==> DefaultsNamed(p[Policy.Normalize(harness, fold)], fold)
  {
    hide Policy.Normalize, FoldOk, KnownCapability, AdmittedUnder, AdmittedNamed;
    var hp := p[Policy.Normalize(harness, fold)];
    if DefaultsNamed(hp, fold) {
      forall requested: seq<string>, m: Manifest, req: Request, class_: ActionClass |
        AdmittedUnder(p, harness, requested, m, req, class_, fold)
        ensures AdmittedNamed(m, req, class_, hp.allowed)
      {
        NamedHolds(p, harness, requested, m, req, class_, fold);
      }
    } else {
      var i :| 0 <= i < |hp.byDefault| && KnownCapability(Policy.Normalize(hp.byDefault[i], fold))
               && Policy.Normalize(hp.byDefault[i], fold) !in hp.allowed;
      UnnamedAdmitted(p, harness, i, fold);
    }
  }

  /** Such a policy validates: its one allowed capability is spelt in capitals. */
  lemma SpelledOtherwise(fold: Policy.Fold)
    ensures var hp := Policy.HarnessPolicy(["CONNECTOR.SEND"], ["CONNECTOR.SEND"]);
            Policy.PolicyOk(hp) && !DefaultsNamed(hp, fold)
  {
    var loud := "CONNECTOR.SEND";
    TrimmedStays(loud);
    assert Policy.Lower(loud, fold) == Policy.SEND;
    assert Policy.Normalize([loud][0], fold) == Policy.SEND;
    assert Policy.SEND[0] != loud[0];
  }
}
