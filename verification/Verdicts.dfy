/** Every decision of the engine, told from the manifest's own declarations and the decoded
    arguments. About Authorize in internal/server/connectors/engine.go, ResolveActionClass and
    Applies in internal/server/connectors/manifest.go. */
module Verdicts {
  import opened Prelude
  import opened JsonEdit
  import opened Manifest
  import opened Authorization
  import Pointer
  import Policy

  // ---- What the declarations say ------------------------------------------

  /** The arguments say x at the pointer: a string or another scalar but null, neither empty nor
      longer than 200 bytes. */
  ghost predicate SaysAt(pointer: string, args: Option<Json>, x: string) {
    && args.Some? && Pointer.Parse(pointer).Some?
    && var v := Pointer.At(ToTree(args.value), Pointer.Parse(pointer).value);
       && v.Some? && (v.value == Leaf(Str(x)) || (v.value == Leaf(Other(x)) && x != "null"))
       && x != "" && Pointer.Utf8Len(x) <= 200
  }

  lemma ExtractedSays(pointer: string, args: Option<Json>, x: string)
    ensures Pointer.Extracted(pointer, args) == Some(x) <==> SaysAt(pointer, args, x)
  {
  }

  /** The class the declaration gives the call: its fixed one, or that of the declared case the
      selector's argument says. */
  ghost predicate ClassIs(t: Mapping, args: Option<Json>, class_: ActionClass) {
    match t.selector
    case None => class_ == t.class_
    case Some(s) => exists x | x in s.cases :: SaysAt(s.pointer, args, x) && class_ == s.cases[x]
  }

  /** The selector's argument says no declared case: it is absent, no scalar, or another value. */
  ghost predicate Undecided(t: Mapping, args: Option<Json>) {
    t.selector.Some? && forall x | x in t.selector.value.cases :: !SaysAt(t.selector.value.pointer, args, x)
  }

  /** The argument says one of the values that make the guard stand aside. */
  ghost predicate Safe(g: Guard, args: Option<Json>) {
    exists i | 0 <= i < |g.unlessIn| :: SaysAt(g.pointer, args, g.unlessIn[i])
  }

  function Authority(c: ActionClass): string {
    match c
    case Read => "connector.read"
    case Write => "connector.write"
    case Send => "connector.send"
    case Delete => "connector.delete"
    case Unlisted(_) => ""
  }

  /** The grant carries the capability, however it spells it. */
  ghost predicate Carries(req: Request, capability: string, fold: Policy.Fold) {
    exists c <- req.caller.capabilities :: Policy.Normalize(c, fold) == capability
  }

  predicate Attributed(c: Caller) {
    match c.actor
    case Foreign(_) => false
    case Operator => true
    case System => true
    case _ => c.machineId != "" && c.grantId != "" && c.harness != ""
  }

  /** The guard fires exactly when the arguments do not say one of its safe values. */
  lemma GuardFiresIff(g: Guard, args: Option<Json>)
    ensures Applies(g, args) <==> !Safe(g, args)
  {
    hide SaysAt, Pointer.Extracted;
    var v := Pointer.Extracted(g.pointer, args);
    if v.Some? {
      ExtractedSays(g.pointer, args, v.value);
      forall i | 0 <= i < |g.unlessIn|
        ensures SaysAt(g.pointer, args, g.unlessIn[i]) <==> v.value == g.unlessIn[i]
      {
        ExtractedSays(g.pointer, args, g.unlessIn[i]);
      }
      if v.value in g.unlessIn {
        var i :| 0 <= i < |g.unlessIn| && g.unlessIn[i] == v.value;
        assert SaysAt(g.pointer, args, g.unlessIn[i]);
      }
    } else {
      forall i | 0 <= i < |g.unlessIn|
        ensures !SaysAt(g.pointer, args, g.unlessIn[i])
      {
        ExtractedSays(g.pointer, args, g.unlessIn[i]);
      }
    }
  }

  lemma ClassResolved(t: Mapping, args: Option<Json>)
    requires MappingOk(t)
    ensures Undecided(t, args) <==> ResolveClass(t, args).None?
    ensures forall c :: ClassIs(t, args, c) <==> ResolveClass(t, args) == Some(c)
    ensures ResolveClass(t, args).Some? ==>
      ClassCapability(ResolveClass(t, args).value) == Some(Authority(ResolveClass(t, args).value))
  {
    hide SaysAt, Pointer.Extracted, GuardOk, ToolNameOk, CaseOk;
    if t.selector.Some? {
      var s := t.selector.value;
      forall x
        ensures Pointer.Extracted(s.pointer, args) == Some(x) <==> SaysAt(s.pointer, args, x)
      {
        ExtractedSays(s.pointer, args, x);
      }
    }
  }

  lemma CarriesIff(req: Request, capability: string, fold: Policy.Fold)
    ensures Carries(req, capability, fold) <==> HasCapability(req.caller.capabilities, capability, fold)
  {
    hide Policy.Normalize;
    var caps := req.caller.capabilities;
    if HasCapability(caps, capability, fold) {
      var i :| 0 <= i < |caps| && Policy.Normalize(caps[i], fold) == capability;
      assert caps[i] in caps;
    }
  }

  // ---- The verdict on a mapped tool ---------------------------------------

  /** The guards before k stand aside or are met. */
  ghost predicate MetBefore(t: Mapping, req: Request, k: nat, fold: Policy.Fold)
    requires k <= |t.guards|
  {
    forall i | 0 <= i < k :: Safe(t.guards[i], req.args) || Carries(req, t.guards[i].capability, fold)
  }

  /** What an attributed call to a mapped tool must be answered, case by case. */
  ghost predicate Verdict(t: Mapping, req: Request, d: Decision, fold: Policy.Fold) {
    if Undecided(t, req.args) then d == Decision(UnresolvedAction, None, None)
    else
      && d.class_.Some? && ClassIs(t, req.args, d.class_.value)
      && var need := Authority(d.class_.value);
         if !Carries(req, need, fold) then d.reason == CapabilityMissing("") && d.required == Some(need)
         else if MetBefore(t, req, |t.guards|, fold) then d.reason == Admitted && d.required == Some(need)
         else exists k | 0 <= k < |t.guards| :: BlockedAt(t, req, d, k, fold)
  }

  /** Guard k fires first, is not met, and the decision names it. */
  ghost predicate BlockedAt(t: Mapping, req: Request, d: Decision, k: nat, fold: Policy.Fold)
    requires k < |t.guards|
  {
    && MetBefore(t, req, k, fold) && !Safe(t.guards[k], req.args) && !Carries(req, t.guards[k].capability, fold)
    && d.reason == CapabilityMissing(t.guards[k].reason) && d.required == Some(t.guards[k].capability)
  }

  lemma BlocksIff(t: Mapping, req: Request, k: nat, fold: Policy.Fold)
    requires k < |t.guards|
    ensures Blocks(t.guards[k], req.args, req.caller.capabilities, fold) <==>
            !Safe(t.guards[k], req.args) && !Carries(req, t.guards[k].capability, fold)
  {
    hide Safe, Carries, Applies, HasCapability;
    GuardFiresIff(t.guards[k], req.args);
    CarriesIff(req, t.guards[k].capability, fold);
  }

  lemma ToolVerdict(t: Mapping, req: Request, fold: Policy.Fold)
    requires MappingOk(t)
    ensures Verdict(t, req, DecideTool(t, req.args, req.caller.capabilities, fold), fold)
  {
    hide MappingOk, Safe, Carries, Applies, HasCapability, ResolveClass, ClassCapability, Authority, ClassIs, Undecided, Blocks;
    ClassResolved(t, req.args);
    var d := DecideTool(t, req.args, req.caller.capabilities, fold);
    if ResolveClass(t, req.args).Some? {
      CarriesIff(req, Authority(ResolveClass(t, req.args).value), fold);
      var k := FirstBlock(t.guards, 0, req.args, req.caller.capabilities, fold);
      forall i | 0 <= i < |t.guards|
        ensures Blocks(t.guards[i], req.args, req.caller.capabilities, fold) <==>
                !Safe(t.guards[i], req.args) && !Carries(req, t.guards[i].capability, fold)
      {
        BlocksIff(t, req, i, fold);
      }
      if k < |t.guards| {
        assert MetBefore(t, req, k, fold);
        assert !MetBefore(t, req, |t.guards|, fold);
        assert Carries(req, Authority(ResolveClass(t, req.args).value), fold) ==> BlockedAt(t, req, d, k, fold);
      } else {
        assert MetBefore(t, req, |t.guards|, fold);
      }
    }
  }

  // ---- The verdict of the engine ------------------------------------------

  lemma {:induction false} ExcludedHolds(xs: seq<Excluded>, tool: string)
    requires forall i, j | 0 <= i < j < |xs| :: xs[i].tool != xs[j].tool
    ensures tool in IndexExcluded(xs) ==> exists i | 0 <= i < |xs| :: xs[i].tool == tool
    ensures forall i | 0 <= i < |xs| && xs[i].tool == tool ::
      tool in IndexExcluded(xs) && IndexExcluded(xs)[tool] == xs[i].reason
  {
    if xs != [] {
      var n := |xs| - 1;
      ExcludedHolds(xs[..n], tool);
      if tool in IndexExcluded(xs) && xs[n].tool != tool {
        var i :| 0 <= i < n && xs[..n][i].tool == tool;
        assert xs[i].tool == tool;
      }
      forall i | 0 <= i < |xs| && xs[i].tool == tool
        ensures tool in IndexExcluded(xs) && IndexExcluded(xs)[tool] == xs[i].reason
      {
        if i < n {
          assert xs[..n][i] == xs[i];
        }
      }
    }
  }

  lemma NamesApart(c: Connector)
    requires ConnectorOk(c)
    ensures forall i, j | 0 <= i < j < |c.excluded| :: c.excluded[i].tool != c.excluded[j].tool
    ensures forall i, j | 0 <= i < |c.tools| && 0 <= j < |c.excluded| :: c.tools[i].tool != c.excluded[j].tool
    ensures forall i | 0 <= i < |c.tools| :: MappingOk(c.tools[i])
  {
    hide MappingOk, ExcludedOk;
    var n := |c.tools|;
    forall i, j | 0 <= i < j < |c.excluded|
      ensures c.excluded[i].tool != c.excluded[j].tool
    {
      assert NameAt(c, n + i) != NameAt(c, n + j);
    }
    forall i, j | 0 <= i < n && 0 <= j < |c.excluded|
      ensures c.tools[i].tool != c.excluded[j].tool
    {
      assert NameAt(c, i) != NameAt(c, n + j);
    }
  }

  /** A caller that is not attributed is told so, before anything else; a provider the manifest
      does not declare is unknown. */
  lemma OutsideVerdict(m: Manifest, req: Request, fold: Policy.Fold)
    requires ManifestOk(m)
    ensures var d := Decide(Index(m.connectors), req, fold);
      if !Attributed(req.caller) then
        d == Decision(if req.caller.actor.Foreign? then InvalidActor else Unauthenticated, None, None)
      else (forall i | 0 <= i < |m.connectors| :: m.connectors[i].provider != req.provider) ==>
             d == Decision(UnknownProvider, None, None)
  {
    hide ConnectorOk, Index, DecideTool;
    IndexHolds(m.connectors, req.provider);
  }

  /** For an attributed call to a declared provider: a mapped tool gets its verdict, an excluded
      one is refused with the declared reason, any other is unmapped. */
  lemma EngineVerdict(m: Manifest, req: Request, i: nat, fold: Policy.Fold)
    requires ManifestOk(m) && Attributed(req.caller)
    requires i < |m.connectors| && m.connectors[i].provider == req.provider
    ensures var c, d := m.connectors[i], Decide(Index(m.connectors), req, fold);
      && (forall j | 0 <= j < |c.tools| && c.tools[j].tool == req.tool :: Verdict(c.tools[j], req, d, fold))
      && (forall j | 0 <= j < |c.excluded| && c.excluded[j].tool == req.tool ::
            d == Decision(ExcludedTool(c.excluded[j].reason), None, None))
      && ((forall j | 0 <= j < |c.tools| :: c.tools[j].tool != req.tool)
          && (forall j | 0 <= j < |c.excluded| :: c.excluded[j].tool != req.tool) ==>
            d == Decision(UnmappedTool, None, None))
  {
    hide Index, IndexTools, IndexExcluded, DecideTool, Verdict, MappingOk;
    var c := m.connectors[i];
    assert ConnectorOk(c);
    IndexHolds(m.connectors, req.provider);
    ToolsDistinct(c);
    NamesApart(c);
    hide ConnectorOk, ManifestOk;
    IndexToolsHolds(c.tools, req.tool);
    ExcludedHolds(c.excluded, req.tool);
    forall j | 0 <= j < |c.tools| && c.tools[j].tool == req.tool
      ensures Verdict(c.tools[j], req, Decide(Index(m.connectors), req, fold), fold)
    {
      ToolVerdict(c.tools[j], req, fold);
    }
  }
}
