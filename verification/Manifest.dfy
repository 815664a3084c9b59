/** The connector manifest and the rules it must satisfy before it may authorize anything.
    Model of internal/server/connectors/manifest.go. */
module Manifest {
  import opened Names
  import opened Prelude
  import opened JsonEdit
  import opened Pointer
  import Policy

  type Capability = Policy.Capability

  /** An action class as a manifest spells it; Unlisted is any other text, the empty one too. */
  datatype ActionClass = Read | Write | Send | Delete | Unlisted(text: string)

  datatype Selector = Selector(pointer: string, cases: map<string, ActionClass>)

  datatype Guard = Guard(pointer: string, unlessIn: seq<string>, capability: Capability, reason: string)

  /** artifactsOk: the declared artifact extractors pass their own validation. */
  datatype Mapping = Mapping(
    tool: string, class_: ActionClass, selector: Option<Selector>, capability: Capability,
    artifactsOk: bool, guards: seq<Guard>)

  datatype Excluded = Excluded(tool: string, reason: string)

  /** restOk: credential reference, acquisition, delivery and server declarations check out. */
  datatype Connector = Connector(
    provider: string, restOk: bool, inventory: seq<string>, tools: seq<Mapping>, excluded: seq<Excluded>)

  datatype Manifest = Manifest(version: int, connectors: seq<Connector>)

  const VERSION := 1
  const MAX_IDENTIFIER := 128

  function ClassCapability(c: ActionClass): Option<Capability> {
    match c
    case Read => Some(Policy.READ)
    case Write => Some(Policy.WRITE)
    case Send => Some(Policy.SEND)
    case Delete => Some(Policy.DELETE)
    case Unlisted(_) => None
  }

  predicate KnownCapability(c: Capability) {
    c in {Policy.READ, Policy.WRITE, Policy.SEND, Policy.DELETE}
  }

  // ---- Names --------------------------------------------------------------

  predicate IsLowerOrDigit(c: char) { 'a' <= c <= 'z' || '0' <= c <= '9' }

  predicate IsAlnum(c: char) { IsLowerOrDigit(c) || 'A' <= c <= 'Z' }

  predicate ProviderOk(s: string) {
    && s != "" && |s| <= MAX_IDENTIFIER && IsLowerOrDigit(s[0])
    && forall i | 0 <= i < |s| :: IsLowerOrDigit(s[i]) || s[i] in {'.', '_', '@', '/', '-'}
  }

  predicate ToolNameOk(s: string) {
    && s != "" && |s| <= MAX_IDENTIFIER && IsAlnum(s[0])
    && forall i | 0 <= i < |s| :: IsAlnum(s[i]) || s[i] in {'.', '_', '/', '-'}
  }

  predicate CaseOk(value: string) {
    !Blank(value) && Utf8Len(value) <= MAX_IDENTIFIER
  }

  // ---- One mapping --------------------------------------------------------

  predicate GuardOk(g: Guard) {
    && Parse(g.pointer).Some? && KnownCapability(g.capability) && g.unlessIn != [] && !Blank(g.reason)
    && forall i | 0 <= i < |g.unlessIn| :: CaseOk(g.unlessIn[i])
  }

  predicate SelectorOk(s: Selector) {
    && Parse(s.pointer).Some? && s.cases != map[]
    && forall v | v in s.cases :: CaseOk(v) && ClassCapability(s.cases[v]).Some?
  }

  /** A fixed class or a selector, never both; a restated capability is the class's own. */
  predicate MappingOk(t: Mapping) {
    && ToolNameOk(t.tool)
    && (forall i | 0 <= i < |t.guards| :: GuardOk(t.guards[i]))
    && match t.selector
       case Some(s) => t.class_ == Unlisted("") && t.capability == "" && SelectorOk(s)
       case None =>
         && ClassCapability(t.class_).Some? && t.artifactsOk
         && (t.capability != "" ==> t.capability == ClassCapability(t.class_).value)
  }

  method ValidateMapping(t: Mapping) returns (ok: bool)
    ensures ok <==> MappingOk(t)
  {
    hide ToolNameOk, GuardOk, SelectorOk;
    if !ToolNameOk(t.tool) {
      return false;
    }
    for i := 0 to |t.guards|
      invariant forall k | 0 <= k < i :: GuardOk(t.guards[k])
    {
      if !GuardOk(t.guards[i]) {
        return false;
      }
    }
    if t.selector.Some? {
      return t.class_ == Unlisted("") && t.capability == "" && SelectorOk(t.selector.value);
    }
    var want := ClassCapability(t.class_);
    ok := want.Some? && (t.capability == "" || (KnownCapability(t.capability) && t.capability == want.value))
          && t.artifactsOk;
  }

  // ---- One connector ------------------------------------------------------

  /** The name classified at position k: the mapped tools first, the excluded ones after. */
  function NameAt(c: Connector, k: nat): string
    requires k < |c.tools| + |c.excluded|
  {
    if k < |c.tools| then c.tools[k].tool else c.excluded[k - |c.tools|].tool
  }

  ghost predicate DistinctNames(c: Connector) {
    forall i, j | 0 <= i < j < |c.tools| + |c.excluded| :: NameAt(c, i) != NameAt(c, j)
  }

  /** The names of the first n classified tools. */
  function Classified(c: Connector, n: nat): set<string>
    requires n <= |c.tools| + |c.excluded|
  {
    set k | 0 <= k < n :: NameAt(c, k)
  }

  predicate ExcludedOk(x: Excluded) {
    ToolNameOk(x.tool) && !Blank(x.reason)
  }

  /** Where the gateway's tool list is known: every tool once, all classified, none beyond it. */
  ghost predicate Complete(c: Connector) {
    c.inventory != [] ==>
      && (forall i | 0 <= i < |c.inventory| :: ToolNameOk(c.inventory[i]))
      && Unique(c.inventory)
      && Elements(c.inventory) == Classified(c, |c.tools| + |c.excluded|)
  }

  ghost predicate ConnectorOk(c: Connector) {
    && ProviderOk(c.provider) && c.restOk && |c.tools| + |c.excluded| > 0
    && (forall i | 0 <= i < |c.tools| :: MappingOk(c.tools[i]))
    && (forall i | 0 <= i < |c.excluded| :: ExcludedOk(c.excluded[i]))
    && DistinctNames(c) && Complete(c)
  }

  lemma ClassifiedNext(c: Connector, n: nat)
    requires n < |c.tools| + |c.excluded|
    ensures Classified(c, n + 1) == Classified(c, n) + {NameAt(c, n)}
  {
  }

  /** The two loops over the declared tools. */
  method ClassifyLoop(c: Connector) returns (ok: bool, classified: set<string>)
    ensures ok <==>
      && (forall i | 0 <= i < |c.tools| :: MappingOk(c.tools[i]))
      && (forall i | 0 <= i < |c.excluded| :: ExcludedOk(c.excluded[i]))
      && DistinctNames(c)
    ensures ok ==> classified == Classified(c, |c.tools| + |c.excluded|)
  {
    hide MappingOk, ExcludedOk;
    classified := {};
    var m := |c.tools|;
    for i := 0 to m
      invariant classified == Classified(c, i)
      invariant forall k | 0 <= k < i :: MappingOk(c.tools[k])
      invariant forall k, l | 0 <= k < l < i :: NameAt(c, k) != NameAt(c, l)
    {
      var good := ValidateMapping(c.tools[i]);
      if !good {
        return false, classified;
      }
      assert NameAt(c, i) == c.tools[i].tool;
      if c.tools[i].tool in classified {
        return false, classified;
      }
      ClassifiedNext(c, i);
      classified := classified + {c.tools[i].tool};
    }
    for i := 0 to |c.excluded|
      invariant classified == Classified(c, m + i)
      invariant forall k | 0 <= k < i :: ExcludedOk(c.excluded[k])
      invariant forall k, l | 0 <= k < l < m + i :: NameAt(c, k) != NameAt(c, l)
    {
      if !ExcludedOk(c.excluded[i]) {
        return false, classified;
      }
      assert NameAt(c, m + i) == c.excluded[i].tool;
      if c.excluded[i].tool in classified {
        return false, classified;
      }
      ClassifiedNext(c, m + i);
      classified := classified + {c.excluded[i].tool};
    }
    ok := true;
  }

  method InventoryLoop(inventory: seq<string>, classified: set<string>) returns (ok: bool)
    ensures ok <==>
      && (forall i | 0 <= i < |inventory| :: ToolNameOk(inventory[i]))
      && Unique(inventory) && Elements(inventory) == classified
  {
    var seen: set<string> := {};
    var unclassified: seq<string> := [];
    for i := 0 to |inventory|
      invariant seen == Elements(inventory[..i])
      invariant forall k | 0 <= k < i :: ToolNameOk(inventory[k])
      invariant Unique(inventory[..i])
      invariant unclassified == [] <==> seen <= classified
    {
      if !ToolNameOk(inventory[i]) {
        return false;
      }
      if inventory[i] in seen {
        ghost var k :| 0 <= k < i && inventory[k] == inventory[i];
        return false;
      }
      assert inventory[..i + 1] == inventory[..i] + [inventory[i]];
      ElementsNext(inventory[..i], inventory[i]);
      seen := seen + {inventory[i]};
      if inventory[i] !in classified {
        assert inventory[i] in seen;
        unclassified := unclassified + [inventory[i]];
      }
    }
    assert inventory[..|inventory|] == inventory;
    if unclassified != [] {
      return false;
    }
    var phantom := classified - seen;
    if phantom != {} {
      ghost var x :| x in phantom;
      assert x in classified && x !in seen;
      return false;
    }
    NothingLeft(classified, seen);
    ok := true;
  }

  method ValidateConnector(c: Connector) returns (ok: bool)
    ensures ok <==> ConnectorOk(c)
  {
    if !ProviderOk(c.provider) || !c.restOk || |c.tools| + |c.excluded| == 0 {
      return false;
    }
    var good, classified := ClassifyLoop(c);
    if !good {
      return false;
    }
    if |c.inventory| == 0 {
      return true;
    }
    ok := InventoryLoop(c.inventory, classified);
  }

  // ---- The manifest -------------------------------------------------------

  ghost predicate ManifestOk(m: Manifest) {
    && m.version == VERSION && m.connectors != []
    && (forall i | 0 <= i < |m.connectors| :: ConnectorOk(m.connectors[i]))
    && (forall i, j | 0 <= i < j < |m.connectors| :: m.connectors[i].provider != m.connectors[j].provider)
  }

  method Validate(m: Manifest) returns (ok: bool)
    ensures ok <==> ManifestOk(m)
  {
    if m.version != VERSION || |m.connectors| == 0 {
      return false;
    }
    var seen: set<string> := {};
    for i := 0 to |m.connectors|
      invariant seen == set k | 0 <= k < i :: m.connectors[k].provider
      invariant forall k | 0 <= k < i :: ConnectorOk(m.connectors[k])
      invariant forall k, l | 0 <= k < l < i :: m.connectors[k].provider != m.connectors[l].provider
    {
      var good := ValidateConnector(m.connectors[i]);
      if !good {
        return false;
      }
      if m.connectors[i].provider in seen {
        return false;
      }
      seen := seen + {m.connectors[i].provider};
    }
    ok := true;
  }

  /** A registered connector with a known inventory leaves none of its tools undecided: each is
      mapped or excluded, never both, and nothing else is either. */
  lemma InventoryAccountedFor(c: Connector, tool: string)
    requires ConnectorOk(c) && c.inventory != []
    ensures tool in c.inventory <==>
            (exists i | 0 <= i < |c.tools| :: c.tools[i].tool == tool)
            || (exists i | 0 <= i < |c.excluded| :: c.excluded[i].tool == tool)
    ensures !((exists i | 0 <= i < |c.tools| :: c.tools[i].tool == tool)
              && (exists i | 0 <= i < |c.excluded| :: c.excluded[i].tool == tool))
  {
    hide MappingOk, ExcludedOk, ToolNameOk;
    var m, n := |c.tools|, |c.tools| + |c.excluded|;
    assert tool in c.inventory <==> tool in Elements(c.inventory);
    if tool in Classified(c, n) {
      var k :| 0 <= k < n && NameAt(c, k) == tool;
      if k < m {
        assert c.tools[k].tool == tool;
      } else {
        assert c.excluded[k - m].tool == tool;
      }
    }
    forall i | 0 <= i < m && c.tools[i].tool == tool
      ensures tool in Classified(c, n)
    {
      assert NameAt(c, i) == tool;
    }
    forall i | 0 <= i < |c.excluded| && c.excluded[i].tool == tool
      ensures tool in Classified(c, n)
    {
      assert NameAt(c, m + i) == tool;
    }
    forall i, j | 0 <= i < m && 0 <= j < |c.excluded|
      ensures c.tools[i].tool != c.excluded[j].tool
    {
      assert NameAt(c, i) != NameAt(c, m + j);
    }
  }

  // ---- Per call -----------------------------------------------------------

  /** ResolveActionClass: a selector that cannot read a declared case resolves to nothing. */
  function ResolveClass(t: Mapping, args: Option<Json>): Option<ActionClass> {
    match t.selector
    case None => if ClassCapability(t.class_).Some? then Some(t.class_) else None
    case Some(s) =>
      var v := Extracted(s.pointer, args);
      if v.Some? && v.value in s.cases then Some(s.cases[v.value]) else None
  }

  /** Applies: the guard fires unless the argument is read and listed as safe. */
  predicate Applies(g: Guard, args: Option<Json>) {
    var v := Extracted(g.pointer, args);
    v.None? || v.value !in g.unlessIn
  }

  method AppliesLoop(g: Guard, args: Option<Json>) returns (r: bool)
    ensures r <==> Applies(g, args)
  {
    var value := Extract(g.pointer, args);
    if value.None? {
      return true;
    }
    for i := 0 to |g.unlessIn|
      invariant forall k | 0 <= k < i :: g.unlessIn[k] != value.value
    {
      if value.value == g.unlessIn[i] {
        return false;
      }
    }
    r := true;
  }
}
