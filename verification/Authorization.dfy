/** Registration and the authorization decision, and what they guarantee end to end with the
    server's capability policy. Model of internal/server/connectors/engine.go. */
module Authorization {
  import opened Prelude
  import opened JsonEdit
  import opened Manifest
  import Policy

  // ---- Registration -------------------------------------------------------

  datatype Registration = Registration(tools: map<string, Mapping>, excluded: map<string, string>)

  type Engine = map<string, Registration>

  function IndexTools(ts: seq<Mapping>): map<string, Mapping> {
    if ts == [] then map[] else IndexTools(ts[..|ts| - 1])[ts[|ts| - 1].tool := ts[|ts| - 1]]
  }

  function IndexExcluded(xs: seq<Excluded>): map<string, string> {
    if xs == [] then map[] else IndexExcluded(xs[..|xs| - 1])[xs[|xs| - 1].tool := xs[|xs| - 1].reason]
  }

  function Index(cs: seq<Connector>): Engine {
    if cs == [] then map[]
    else
      var c := cs[|cs| - 1];
      Index(cs[..|cs| - 1])[c.provider := Registration(IndexTools(c.tools), IndexExcluded(c.excluded))]
  }

  method ToolsLoop(ts: seq<Mapping>) returns (tools: map<string, Mapping>)
    ensures tools == IndexTools(ts)
  {
    tools := map[];
    for k := 0 to |ts|
      invariant tools == IndexTools(ts[..k])
    {
      assert ts[..k + 1][..k] == ts[..k];
      tools := tools[ts[k].tool := ts[k]];
    }
    assert ts[..|ts|] == ts;
  }

  method ExcludedLoop(xs: seq<Excluded>) returns (excluded: map<string, string>)
    ensures excluded == IndexExcluded(xs)
  {
    excluded := map[];
    for k := 0 to |xs|
      invariant excluded == IndexExcluded(xs[..k])
    {
      assert xs[..k + 1][..k] == xs[..k];
      excluded := excluded[xs[k].tool := xs[k].reason];
    }
    assert xs[..|xs|] == xs;
  }

  /** Register: a manifest that does not validate registers nothing. */
  method Register(m: Manifest) returns (r: Option<Engine>)
    ensures r == if ManifestOk(m) then Some(Index(m.connectors)) else None
  {
    var ok := Validate(m);
    hide ManifestOk, IndexTools, IndexExcluded;
    if !ok {
      return None;
    }
    var e: Engine := map[];
    for i := 0 to |m.connectors|
      invariant e == Index(m.connectors[..i])
    {
      var c := m.connectors[i];
      var tools := ToolsLoop(c.tools);
      var excluded := ExcludedLoop(c.excluded);
      assert m.connectors[..i + 1][..i] == m.connectors[..i];
      e := e[c.provider := Registration(tools, excluded)];
    }
    assert m.connectors[..|m.connectors|] == m.connectors;
    r := Some(e);
  }

  lemma {:induction false} IndexToolsHolds(ts: seq<Mapping>, tool: string)
    requires forall i, j | 0 <= i < j < |ts| :: ts[i].tool != ts[j].tool
    ensures tool in IndexTools(ts) ==> exists i | 0 <= i < |ts| :: ts[i].tool == tool
    ensures forall i | 0 <= i < |ts| && ts[i].tool == tool :: tool in IndexTools(ts) && IndexTools(ts)[tool] == ts[i]
  {
    if ts != [] {
      IndexToolsHolds(ts[..|ts| - 1], tool);
      if ts[|ts| - 1].tool == tool {
        assert ts[|ts| - 1].tool == tool;
      } else if tool in IndexTools(ts) {
        var i :| 0 <= i < |ts| - 1 && ts[..|ts| - 1][i].tool == tool;
        assert ts[i].tool == tool;
      }
      forall i | 0 <= i < |ts| && ts[i].tool == tool
        ensures tool in IndexTools(ts) && IndexTools(ts)[tool] == ts[i]
      {
        if i < |ts| - 1 {
          assert ts[..|ts| - 1][i] == ts[i];
        }
      }
    }
  }

  lemma {:induction false} IndexHolds(cs: seq<Connector>, provider: string)
    requires forall i, j | 0 <= i < j < |cs| :: cs[i].provider != cs[j].provider
    ensures provider in Index(cs) ==> exists i | 0 <= i < |cs| :: cs[i].provider == provider
    ensures forall i | 0 <= i < |cs| && cs[i].provider == provider ::
              && provider in Index(cs)
              && Index(cs)[provider] == Registration(IndexTools(cs[i].tools), IndexExcluded(cs[i].excluded))
  {
    if cs != [] {
      IndexHolds(cs[..|cs| - 1], provider);
      if cs[|cs| - 1].provider == provider {
        assert cs[|cs| - 1].provider == provider;
      } else if provider in Index(cs) {
        var i :| 0 <= i < |cs| - 1 && cs[..|cs| - 1][i].provider == provider;
        assert cs[i].provider == provider;
      }
      forall i | 0 <= i < |cs| && cs[i].provider == provider
        ensures provider in Index(cs)
        ensures Index(cs)[provider] == Registration(IndexTools(cs[i].tools), IndexExcluded(cs[i].excluded))
      {
        if i < |cs| - 1 {
          assert cs[..|cs| - 1][i] == cs[i];
        }
      }
    }
  }

  // ---- The decision -------------------------------------------------------

  /** Unset counts as a machine. */
  datatype Actor = Unset | Machine | Operator | System | Foreign(kind: string)

  datatype Caller = Caller(actor: Actor, machineId: string, harness: string, grantId: string, capabilities: seq<string>)

  /** args is None when the arguments are empty or do not decode. */
  datatype Request = Request(provider: string, tool: string, args: Option<Json>, caller: Caller)

  datatype Reason =
    | Admitted | UnknownProvider | UnmappedTool | ExcludedTool(why: string) | UnresolvedAction
    | CapabilityMissing(guardReason: string) | Unauthenticated | InvalidActor

  /** class_ and required are None where the source leaves them unknown or empty. */
  datatype Decision = Decision(reason: Reason, class_: Option<ActionClass>, required: Option<Capability>) {
    predicate Allowed() { reason.Admitted? }

    predicate PolicyViolation() {
      reason.UnknownProvider? || reason.UnmappedTool? || reason.ExcludedTool? || reason.UnresolvedAction?
    }
  }

  function Refuse(why: Reason): Decision {
    Decision(why, None, None)
  }

  predicate HasCapability(caps: seq<string>, want: Capability, fold: Policy.Fold) {
    exists i | 0 <= i < |caps| :: Policy.Normalize(caps[i], fold) == want
  }

  method HasCapabilityLoop(caps: seq<string>, want: Capability, fold: Policy.Fold) returns (r: bool)
    ensures r <==> HasCapability(caps, want, fold)
  {
    for i := 0 to |caps|
      invariant forall k | 0 <= k < i :: Policy.Normalize(caps[k], fold) != want
    {
      if Policy.Normalize(caps[i], fold) == want {
        return true;
      }
    }
    r := false;
  }

  /** Why the caller is refused before the manifest is looked at, if it is. */
  function Unattributed(c: Caller): Option<Reason> {
    match c.actor
    case Unset => if c.machineId == "" || c.grantId == "" || c.harness == "" then Some(Unauthenticated) else None
    case Machine => if c.machineId == "" || c.grantId == "" || c.harness == "" then Some(Unauthenticated) else None
    case Operator => None
    case System => None
    case Foreign(_) => Some(InvalidActor)
  }

  /** A guard that fires and whose capability the caller lacks. */
  predicate Blocks(g: Guard, args: Option<Json>, caps: seq<string>, fold: Policy.Fold) {
    Applies(g, args) && !HasCapability(caps, g.capability, fold)
  }

  /** The position of the first blocking guard from i on; the number of guards when none blocks. */
  function FirstBlock(guards: seq<Guard>, i: nat, args: Option<Json>, caps: seq<string>, fold: Policy.Fold): (k: nat)
    requires i <= |guards|
    ensures i <= k <= |guards|
    ensures forall j | i <= j < k :: !Blocks(guards[j], args, caps, fold)
    ensures k < |guards| ==> Blocks(guards[k], args, caps, fold)
    decreases |guards| - i
  {
    if i == |guards| || Blocks(guards[i], args, caps, fold) then i else FirstBlock(guards, i + 1, args, caps, fold)
  }

  function DecideTool(t: Mapping, args: Option<Json>, caps: seq<string>, fold: Policy.Fold): Decision {
    var class_ := ResolveClass(t, args);
    if class_.None? then Refuse(UnresolvedAction)
    else
      var need := ClassCapability(class_.value);
      if need.None? || !HasCapability(caps, need.value, fold) then Decision(CapabilityMissing(""), class_, need)
      else
        var k := FirstBlock(t.guards, 0, args, caps, fold);
        if k < |t.guards| then Decision(CapabilityMissing(t.guards[k].reason), class_, Some(t.guards[k].capability))
        else Decision(Admitted, class_, need)
  }

  function Decide(e: Engine, req: Request, fold: Policy.Fold): Decision {
    var refused := Unattributed(req.caller);
    if refused.Some? then Refuse(refused.value)
    else if req.provider !in e then Refuse(UnknownProvider)
    else
      var reg := e[req.provider];
      if req.tool in reg.tools then DecideTool(reg.tools[req.tool], req.args, req.caller.capabilities, fold)
      else if req.tool in reg.excluded then Refuse(ExcludedTool(reg.excluded[req.tool]))
      else Refuse(UnmappedTool)
  }

  /** Authorize */
  method Authorize(e: Engine, req: Request, fold: Policy.Fold) returns (d: Decision)
    ensures d == Decide(e, req, fold)
  {
    hide Applies, HasCapability, ResolveClass, ClassCapability;
    var c := req.caller;
    match c.actor {
      case Operator =>
      case System =>
      case Foreign(_) => return Refuse(InvalidActor);
      case _ =>
        if c.machineId == "" || c.grantId == "" || c.harness == "" {
          return Refuse(Unauthenticated);
        }
    }
    if req.provider !in e {
      return Refuse(UnknownProvider);
    }
    var reg := e[req.provider];
    if req.tool !in reg.tools {
      if req.tool in reg.excluded {
        return Refuse(ExcludedTool(reg.excluded[req.tool]));
      }
      return Refuse(UnmappedTool);
    }
    var t := reg.tools[req.tool];
    var class_ := ResolveClass(t, req.args);
    if class_.None? {
      return Refuse(UnresolvedAction);
    }
    var need := ClassCapability(class_.value);
    if need.None? {
      return Decision(CapabilityMissing(""), class_, need);
    }
    var held := HasCapabilityLoop(c.capabilities, need.value, fold);
    if !held {
      return Decision(CapabilityMissing(""), class_, need);
    }
    for i := 0 to |t.guards|
      invariant forall k | 0 <= k < i :: !Blocks(t.guards[k], req.args, c.capabilities, fold)
    {
      var g := t.guards[i];
      var fires := AppliesLoop(g, req.args);
      if !fires {
        continue;
      }
      var has := HasCapabilityLoop(c.capabilities, g.capability, fold);
      if has {
        continue;
      }
      FirstIs(t.guards, req.args, c.capabilities, fold, i);
      return Decision(CapabilityMissing(g.reason), class_, Some(g.capability));
    }
    d := Decision(Admitted, class_, need);
  }

  lemma FirstIs(guards: seq<Guard>, args: Option<Json>, caps: seq<string>, fold: Policy.Fold, i: nat)
    requires i < |guards| && Blocks(guards[i], args, caps, fold)
    requires forall k | 0 <= k < i :: !Blocks(guards[k], args, caps, fold)
    ensures FirstBlock(guards, 0, args, caps, fold) == i
  {
    hide Blocks;
  }

  // ---- What admission means -----------------------------------------------

  /** The declaration a call is admitted under, read off the manifest alone. */
  ghost predicate AdmittedBy(t: Mapping, req: Request, class_: ActionClass, fold: Policy.Fold) {
    && t.tool == req.tool && ResolveClass(t, req.args) == Some(class_)
    && ClassCapability(class_).Some?
    && HasCapability(req.caller.capabilities, ClassCapability(class_).value, fold)
    && forall k | 0 <= k < |t.guards| ::
         Applies(t.guards[k], req.args) ==> HasCapability(req.caller.capabilities, t.guards[k].capability, fold)
  }

  ghost predicate Admissible(m: Manifest, req: Request, class_: ActionClass, fold: Policy.Fold) {
    && Unattributed(req.caller).None?
    && exists i, j | 0 <= i < |m.connectors| && 0 <= j < |m.connectors[i].tools| ::
         m.connectors[i].provider == req.provider && AdmittedBy(m.connectors[i].tools[j], req, class_, fold)
  }

  lemma ToolDecision(t: Mapping, req: Request, class_: ActionClass, fold: Policy.Fold)
    requires t.tool == req.tool
    ensures var d := DecideTool(t, req.args, req.caller.capabilities, fold);
            d.Allowed() && d.class_ == Some(class_) <==> AdmittedBy(t, req, class_, fold)
  {
    hide Applies, HasCapability, ResolveClass;
    var caps := req.caller.capabilities;
    var k := FirstBlock(t.guards, 0, req.args, caps, fold);
    if k < |t.guards| {
      assert Blocks(t.guards[k], req.args, caps, fold);
    }
    forall i | 0 <= i < |t.guards| && k == |t.guards|
      ensures Applies(t.guards[i], req.args) ==> HasCapability(caps, t.guards[i].capability, fold)
    {
      assert !Blocks(t.guards[i], req.args, caps, fold);
    }
  }

  lemma ToolsDistinct(c: Connector)
    requires ConnectorOk(c)
    ensures forall i, j | 0 <= i < j < |c.tools| :: c.tools[i].tool != c.tools[j].tool
  {
    hide MappingOk, ExcludedOk;
    forall i, j | 0 <= i < j < |c.tools|
      ensures c.tools[i].tool != c.tools[j].tool
    {
      assert NameAt(c, i) != NameAt(c, j);
    }
  }

  /** The indexed engine admits exactly the calls the manifest's own entries admit: an
      attributed caller, a declared tool, a resolved class whose capability the grant holds,
      and every fired guard's capability too. */
  lemma AdmitsIff(m: Manifest, req: Request, class_: ActionClass, fold: Policy.Fold)
    requires ManifestOk(m)
    ensures var d := Decide(Index(m.connectors), req, fold);
            d.Allowed() && d.class_ == Some(class_) <==> Admissible(m, req, class_, fold)
  {
    hide ConnectorOk, IndexTools, Index, DecideTool, AdmittedBy;
    var e := Index(m.connectors);
    var d := Decide(e, req, fold);
    IndexHolds(m.connectors, req.provider);
    if d.Allowed() && d.class_ == Some(class_) {
      var i :| 0 <= i < |m.connectors| && m.connectors[i].provider == req.provider;
      var c := m.connectors[i];
      ToolsDistinct(c);
      IndexToolsHolds(c.tools, req.tool);
      var j :| 0 <= j < |c.tools| && c.tools[j].tool == req.tool;
      ToolDecision(c.tools[j], req, class_, fold);
    }
    if Admissible(m, req, class_, fold) {
      var i, j :| 0 <= i < |m.connectors| && 0 <= j < |m.connectors[i].tools| &&
                  m.connectors[i].provider == req.provider && AdmittedBy(m.connectors[i].tools[j], req, class_, fold);
      var c := m.connectors[i];
      ToolsDistinct(c);
      assert c.tools[j].tool == req.tool by {
        AdmittedNames(c.tools[j], req, class_, fold);
      }
      IndexToolsHolds(c.tools, req.tool);
      ToolDecision(c.tools[j], req, class_, fold);
    }
  }

  lemma AdmittedNames(t: Mapping, req: Request, class_: ActionClass, fold: Policy.Fold)
    requires AdmittedBy(t, req, class_, fold)
    ensures t.tool == req.tool
  {
  }

  // ---- End to end ---------------------------------------------------------

  lemma HeldIsListed(caps: seq<string>, allowed: seq<string>, want: Capability, fold: Policy.Fold)
    requires forall i | 0 <= i < |caps| :: caps[i] in allowed
    requires HasCapability(caps, want, fold)
    ensures HasCapability(allowed, want, fold)
  {
    var i :| 0 <= i < |caps| && Policy.Normalize(caps[i], fold) == want;
    var k :| 0 <= k < |allowed| && allowed[k] == caps[i];
  }

  /** A declaration asks for nothing outside an allowed list: neither its class nor a guard
      that fires. */
  ghost predicate Within(t: Mapping, req: Request, class_: ActionClass, allowed: seq<string>, fold: Policy.Fold) {
    && ClassCapability(class_).Some? && HasCapability(allowed, ClassCapability(class_).value, fold)
    && forall k | 0 <= k < |t.guards| :: Applies(t.guards[k], req.args) ==> HasCapability(allowed, t.guards[k].capability, fold)
  }

  /** Some declaration of the called tool admits the call and stays within the list. */
  ghost predicate AdmittedWithin(m: Manifest, req: Request, class_: ActionClass, allowed: seq<string>, fold: Policy.Fold) {
    exists i, j | 0 <= i < |m.connectors| && 0 <= j < |m.connectors[i].tools| ::
      && m.connectors[i].provider == req.provider && m.connectors[i].tools[j].tool == req.tool
      && Within(m.connectors[i].tools[j], req, class_, allowed, fold)
  }

  lemma WithinAllowed(t: Mapping, req: Request, class_: ActionClass, allowed: seq<string>, fold: Policy.Fold)
    requires AdmittedBy(t, req, class_, fold)
    requires forall i | 0 <= i < |req.caller.capabilities| :: req.caller.capabilities[i] in allowed
    ensures t.tool == req.tool && Within(t, req, class_, allowed, fold)
  {
    hide Applies, HasCapability, ResolveClass;
    var caps := req.caller.capabilities;
    HeldIsListed(caps, allowed, ClassCapability(class_).value, fold);
    forall k | 0 <= k < |t.guards| && Applies(t.guards[k], req.args)
      ensures HasCapability(allowed, t.guards[k].capability, fold)
    {
      HeldIsListed(caps, allowed, t.guards[k].capability, fold);
    }
  }

  /** A grant whose capabilities the policy resolved never admits a call whose class
      capability, or whose fired guard's capability, is outside its harness's allowed set, up
      to the spelling the engine itself ignores. */
  lemma NeverBeyondPolicy(p: Policy.Policies, harness: string, requested: seq<string>, m: Manifest, req: Request,
                          class_: ActionClass, fold: Policy.Fold)
    requires forall h | h in p :: Policy.PolicyOk(p[h])
    requires Policy.Resolved(p, harness, requested, fold, Ok(req.caller.capabilities))
    requires ManifestOk(m)
    requires Decide(Index(m.connectors), req, fold).Allowed()
    requires Decide(Index(m.connectors), req, fold).class_ == Some(class_)
    ensures Policy.Normalize(harness, fold) in p
    ensures AdmittedWithin(m, req, class_, p[Policy.Normalize(harness, fold)].allowed, fold)
  {
    hide ManifestOk, AdmittedBy, Within, Policy.Normalize;
    Policy.NeverBeyondAllowed(p, harness, requested, fold, req.caller.capabilities);
    AdmitsIff(m, req, class_, fold);
    var i, j :| 0 <= i < |m.connectors| && 0 <= j < |m.connectors[i].tools| &&
                m.connectors[i].provider == req.provider && AdmittedBy(m.connectors[i].tools[j], req, class_, fold);
    WithinAllowed(m.connectors[i].tools[j], req, class_, p[Policy.Normalize(harness, fold)].allowed, fold);
  }

  lemma NormalList(allowed: seq<string>, want: Capability, fold: Policy.Fold)
    requires forall i | 0 <= i < |allowed| :: Policy.Normalize(allowed[i], fold) == allowed[i]
    ensures HasCapability(allowed, want, fold) <==> want in allowed
  {
  }

  lemma LowerFixed(s: string, fold: Policy.Fold)
    requires s != "" && forall i | 0 <= i < |s| :: 'a' <= s[i] <= 'z' || s[i] == '.'
    ensures Policy.Normalize(s, fold) == s
  {
    assert !IsSpace(s[0]) && !IsSpace(s[|s| - 1]);
    assert TrimSpace(s) == s;
  }

  lemma DefaultLacksSend(fold: Policy.Fold)
    ensures !HasCapability([Policy.READ, Policy.WRITE, Policy.DELETE], Policy.SEND, fold)
  {
    hide Policy.Normalize;
    LowerFixed(Policy.READ, fold);
    LowerFixed(Policy.WRITE, fold);
    LowerFixed(Policy.DELETE, fold);
    NormalList([Policy.READ, Policy.WRITE, Policy.DELETE], Policy.SEND, fold);
  }

  /** Under the default policy no grant admits a send-class call, or one whose send guard
      fires. */
  lemma DefaultNeverSends(harness: string, requested: seq<string>, m: Manifest, req: Request, class_: ActionClass,
                          fold: Policy.Fold)
    requires Policy.Resolved(Policy.DefaultPolicies(), harness, requested, fold, Ok(req.caller.capabilities))
    requires ManifestOk(m)
    requires Decide(Index(m.connectors), req, fold).Allowed()
    requires Decide(Index(m.connectors), req, fold).class_ == Some(class_)
    ensures class_ != Send
    ensures exists i, j | 0 <= i < |m.connectors| && 0 <= j < |m.connectors[i].tools| ::
      && m.connectors[i].provider == req.provider && m.connectors[i].tools[j].tool == req.tool
      && forall k | 0 <= k < |m.connectors[i].tools[j].guards| ::
           m.connectors[i].tools[j].guards[k].capability == Policy.SEND ==>
             !Applies(m.connectors[i].tools[j].guards[k], req.args)
  {
    hide ManifestOk, Applies, Policy.Normalize, Decide;
    var p := Policy.DefaultPolicies();
    NeverBeyondPolicy(p, harness, requested, m, req, class_, fold);
    var allowed := [Policy.READ, Policy.WRITE, Policy.DELETE];
    assert p[Policy.Normalize(harness, fold)].allowed == allowed;
    DefaultLacksSend(fold);
    hide HasCapability;
    var i, j :| 0 <= i < |m.connectors| && 0 <= j < |m.connectors[i].tools| &&
      m.connectors[i].provider == req.provider && m.connectors[i].tools[j].tool == req.tool &&
      Within(m.connectors[i].tools[j], req, class_, allowed, fold);
    assert class_ != Send;
    assert forall k | 0 <= k < |m.connectors[i].tools[j].guards| ::
             m.connectors[i].tools[j].guards[k].capability == Policy.SEND ==>
               !Applies(m.connectors[i].tools[j].guards[k], req.args);
  }

  // ---- Monotonicity -------------------------------------------------------

  /** More capabilities never turn an admission into a denial, or change its class. */
  lemma MoreCapabilities(e: Engine, req: Request, caps: seq<string>, fold: Policy.Fold)
    requires forall i | 0 <= i < |req.caller.capabilities| :: req.caller.capabilities[i] in caps
    requires Decide(e, req, fold).Allowed()
    ensures Decide(e, req.(caller := req.caller.(capabilities := caps)), fold) == Decide(e, req, fold)
  {
    hide Applies, HasCapability, ResolveClass;
    var less := req.caller.capabilities;
    var t := e[req.provider].tools[req.tool];
    var class_ := ResolveClass(t, req.args).value;
    HeldIsListed(less, caps, ClassCapability(class_).value, fold);
    forall i | 0 <= i < |t.guards|
      ensures !Blocks(t.guards[i], req.args, caps, fold)
    {
      assert !Blocks(t.guards[i], req.args, less, fold);
      if HasCapability(less, t.guards[i].capability, fold) {
        HeldIsListed(less, caps, t.guards[i].capability, fold);
      }
    }
  }

  /** The second declares the same tools, each with at least the guards of the first. */
  ghost predicate MoreGuards(t: Mapping, t': Mapping) {
    && t'.tool == t.tool && t'.class_ == t.class_ && t'.selector == t.selector
    && forall k | 0 <= k < |t.guards| :: t.guards[k] in t'.guards
  }

  ghost predicate SameTools(c: Connector, c': Connector) {
    && c'.provider == c.provider && |c'.tools| == |c.tools|
    && forall j | 0 <= j < |c.tools| :: MoreGuards(c.tools[j], c'.tools[j])
  }

  lemma FewerGuards(t: Mapping, t': Mapping, req: Request, class_: ActionClass, fold: Policy.Fold)
    requires MoreGuards(t, t') && AdmittedBy(t', req, class_, fold)
    ensures AdmittedBy(t, req, class_, fold)
  {
    hide Applies, HasCapability;
    forall k | 0 <= k < |t.guards| && Applies(t.guards[k], req.args)
      ensures HasCapability(req.caller.capabilities, t.guards[k].capability, fold)
    {
      var l :| 0 <= l < |t'.guards| && t'.guards[l] == t.guards[k];
    }
  }

  /** No guard added anywhere in a manifest turns a denial into an admission. */
  lemma GuardsOnlyDeny(m: Manifest, m': Manifest, req: Request, fold: Policy.Fold)
    requires ManifestOk(m) && ManifestOk(m') && |m'.connectors| == |m.connectors|
    requires forall i | 0 <= i < |m.connectors| :: SameTools(m.connectors[i], m'.connectors[i])
    requires Decide(Index(m'.connectors), req, fold).Allowed()
    ensures Decide(Index(m.connectors), req, fold).Allowed()
    ensures Decide(Index(m.connectors), req, fold).class_ == Decide(Index(m'.connectors), req, fold).class_
  {
    hide ManifestOk, AdmittedBy, MoreGuards;
    AdmittedHasClass(Index(m'.connectors), req, fold);
    var class_ := Decide(Index(m'.connectors), req, fold).class_.value;
    hide Decide, Index;
    AdmitsIff(m', req, class_, fold);
    var i, j :| 0 <= i < |m'.connectors| && 0 <= j < |m'.connectors[i].tools| &&
                m'.connectors[i].provider == req.provider && AdmittedBy(m'.connectors[i].tools[j], req, class_, fold);
    assert SameTools(m.connectors[i], m'.connectors[i]);
    FewerGuards(m.connectors[i].tools[j], m'.connectors[i].tools[j], req, class_, fold);
    AdmitsIff(m, req, class_, fold);
  }

  lemma AdmittedHasClass(e: Engine, req: Request, fold: Policy.Fold)
    requires Decide(e, req, fold).Allowed()
    ensures Decide(e, req, fold).class_.Some?
  {
  }
}
