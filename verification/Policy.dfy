/** Tool policy: intersecting layers, protecting effects, and agreement with the configuration merge. */
module Policy {
  import opened Base
  import Merge

  datatype Source = BuiltIn | User | Repository | Session | Role | Workflow | EffectClassSource

  datatype Layer = Layer(source: Source, defaultMode: Permission, toolModes: map<string, Permission>,
                         deniedTools: set<string>)

  datatype Decision = Decision(mode: Permission, source: Source)

  function Proposed(layer: Layer, tool: string): Permission {
    if tool in layer.deniedTools then Denied
    else if tool in layer.toolModes then layer.toolModes[tool]
    else layer.defaultMode
  }

  /** Layer `k` is the first whose proposal no other layer exceeds. */
  ghost predicate FirstStrictest(tool: string, layers: seq<Layer>, k: nat) {
    && k < |layers|
    && (forall i | 0 <= i < |layers| :: Proposed(layers[i], tool).Rank() <= Proposed(layers[k], tool).Rank())
    && (forall i | 0 <= i < k :: Proposed(layers[i], tool).Rank() < Proposed(layers[k], tool).Rank())
  }

  /** The strictest proposal, credited to the first layer making it; the built-in read-only mode if none restricts. */
  ghost predicate IsDecision(tool: string, layers: seq<Layer>, d: Decision) {
    if forall i | 0 <= i < |layers| :: Proposed(layers[i], tool).ReadOnly? then d == Decision(ReadOnly, BuiltIn)
    else exists k: nat :: FirstStrictest(tool, layers, k) && d == Decision(Proposed(layers[k], tool), layers[k].source)
  }

  method ResolveToolPolicy(tool: string, layers: seq<Layer>) returns (d: Decision)
    ensures IsDecision(tool, layers, d)
  {
    d := Decision(ReadOnly, BuiltIn);
    for i := 0 to |layers|
      invariant IsDecision(tool, layers[..i], d)
    {
      var intersected := d.mode.Intersect(Proposed(layers[i], tool));
      OneMoreLayer(tool, layers[..i], d, layers[i]);
      assert layers[..i + 1] == layers[..i] + [layers[i]];
      if intersected != d.mode {
        d := Decision(intersected, layers[i].source);
      }
    }
    assert layers[..|layers|] == layers;
  }

  function Joined(d: Decision, mode: Permission, source: Source): Decision {
    if mode.Rank() > d.mode.Rank() then Decision(mode, source) else d
  }

  lemma OneMoreLayer(tool: string, layers: seq<Layer>, d: Decision, layer: Layer)
    requires IsDecision(tool, layers, d)
    ensures IsDecision(tool, layers + [layer], Joined(d, Proposed(layer, tool), layer.source))
  {
    var more, n := layers + [layer], |layers|;
    assert more[n] == layer && forall i | 0 <= i < n :: more[i] == layers[i];
    var mode := Proposed(layer, tool);
    if d.mode.ReadOnly? {
      assert forall i | 0 <= i < n :: Proposed(layers[i], tool).ReadOnly?;
      if !mode.ReadOnly? { assert FirstStrictest(tool, more, n); }
    } else {
      var k: nat :| FirstStrictest(tool, layers, k) && d == Decision(Proposed(layers[k], tool), layers[k].source);
      assert !Proposed(more[k], tool).ReadOnly?;
      assert FirstStrictest(tool, more, if mode.Rank() > d.mode.Rank() then n else k);
    }
  }

  /** The description leaves no choice: mode and source are determined. */
  lemma DecisionIsUnique(tool: string, layers: seq<Layer>, d: Decision, e: Decision)
    requires IsDecision(tool, layers, d) && IsDecision(tool, layers, e)
    ensures d == e
  {
    if !(forall i | 0 <= i < |layers| :: Proposed(layers[i], tool).ReadOnly?) {
      var j: nat :| FirstStrictest(tool, layers, j) && d == Decision(Proposed(layers[j], tool), layers[j].source);
      var k: nat :| FirstStrictest(tool, layers, k) && e == Decision(Proposed(layers[k], tool), layers[k].source);
      assert j == k;
    }
  }

  /** The mode bounds every proposal and is one of them, or read-only. */
  lemma ModeIsTheMaximum(tool: string, layers: seq<Layer>, d: Decision)
    requires IsDecision(tool, layers, d)
    ensures forall i | 0 <= i < |layers| :: Proposed(layers[i], tool).Rank() <= d.mode.Rank()
    ensures d.mode.ReadOnly? || exists i | 0 <= i < |layers| :: Proposed(layers[i], tool) == d.mode
  {}

  ghost predicate Proposes(tool: string, layers: seq<Layer>, p: Permission) {
    exists i | 0 <= i < |layers| :: Proposed(layers[i], tool) == p
  }

  /** Only which proposals are made matters to the mode, not their order or number. */
  lemma ModeIgnoresOrder(tool: string, layers: seq<Layer>, others: seq<Layer>, d: Decision, e: Decision)
    requires IsDecision(tool, layers, d) && IsDecision(tool, others, e)
    requires forall p :: Proposes(tool, layers, p) <==> Proposes(tool, others, p)
    ensures d.mode == e.mode
  {
    ModeIsTheMaximum(tool, layers, d);
    ModeIsTheMaximum(tool, others, e);
    assert d.mode.ReadOnly? || Proposes(tool, layers, d.mode);
    assert e.mode.ReadOnly? || Proposes(tool, others, e.mode);
  }

  /** Adding layers anywhere never widens the authority. */
  lemma MoreLayersNeverWiden(tool: string, front: seq<Layer>, extra: seq<Layer>, back: seq<Layer>, d: Decision,
                             e: Decision)
    requires IsDecision(tool, front + back, d) && IsDecision(tool, front + extra + back, e)
    ensures d.mode.Rank() <= e.mode.Rank()
  {
    ModeIsTheMaximum(tool, front + extra + back, e);
    ModeIsTheMaximum(tool, front + back, d);
    if !d.mode.ReadOnly? {
      var i :| 0 <= i < |front + back| && Proposed((front + back)[i], tool) == d.mode;
      var j := if i < |front| then i else i + |extra|;
      assert (front + extra + back)[j] == (front + back)[i];
    }
  }

  // ---- Effects ----

  function Mandatory(effect: EffectClass, materialCost: bool): Permission {
    if (effect.NoEffect? || effect.IdempotentRead?) && !materialCost then ReadOnly else ApprovalRequired
  }

  function ProtectEffect(current: Decision, effect: EffectClass, materialCost: bool): Decision {
    var protected := current.mode.Intersect(Mandatory(effect, materialCost));
    if protected == current.mode then current else Decision(protected, EffectClassSource)
  }

  /**
   * Protecting a decision is resolving with one more, last layer: it never lowers the mode nor takes credit
   * for a tie.
   */
  lemma ProtectionIsALastLayer(tool: string, layers: seq<Layer>, d: Decision, effect: EffectClass, materialCost: bool)
    requires IsDecision(tool, layers, d)
    ensures
      IsDecision(tool, layers + [Layer(EffectClassSource, Mandatory(effect, materialCost), map[], {})],
                 ProtectEffect(d, effect, materialCost))
    ensures ProtectEffect(d, effect, materialCost).mode.Rank() >= d.mode.Rank()
  {
    OneMoreLayer(tool, layers, d, Layer(EffectClassSource, Mandatory(effect, materialCost), map[], {}));
  }

  // ---- Flattening: one merged configuration stands for all its layers ----

  /** The mode a configuration stands for. An absent mode restricts nothing; an unknown one never deserializes. */
  function PermissionOf(strictness: nat): (r: Permission)
    ensures r.Rank() == if strictness <= 1 then 0 else if strictness == 2 then 1 else 2
  {
    if strictness <= 1 then ReadOnly else if strictness == 2 then ApprovalRequired else Denied
  }

  /** The policy layer of one configuration tree: default mode and deny list, no per-tool modes. */
  ghost function AsLayer(v: Merge.Value, source: Source): Layer {
    Layer(source, PermissionOf(Merge.Strictness(v)), map[], set x | x in Merge.Denied(v) && x.Str? :: x.s)
  }

  ghost function AsLayers(trees: seq<Merge.Value>, source: Source): seq<Layer> {
    seq(|trees|, i requires 0 <= i < |trees| => AsLayer(trees[i], source))
  }

  lemma DenyIsNamed(v: Merge.Value, source: Source, tool: string)
    ensures tool in AsLayer(v, source).deniedTools <==> Merge.Str(tool) in Merge.Denied(v)
  {
    if Merge.Str(tool) in Merge.Denied(v) { assert Merge.Str(tool).Str?; }
  }

  lemma DeniesAgree(trees: seq<Merge.Value>, source: Source, tool: string)
    requires Merge.Start(Merge.DenyList, trees) == 0
    ensures tool in AsLayer(Merge.Resolved(trees), source).deniedTools <==>
            exists i | 0 <= i < |trees| :: tool in AsLayers(trees, source)[i].deniedTools
  {
    DenyIsNamed(Merge.Resolved(trees), source, tool);
    Merge.DenySurvivesExactlyWhen(trees, Merge.Str(tool));
    forall i | 0 <= i < |trees|
      ensures tool in AsLayers(trees, source)[i].deniedTools <==> Merge.Str(tool) in Merge.Denied(trees[i])
    {
      DenyIsNamed(trees[i], source, tool);
    }
  }

  lemma DefaultsAgree(trees: seq<Merge.Value>, source: Source)
    requires Merge.Start(Merge.ToolMode, trees) == 0
    ensures
      var mode, layers := AsLayer(Merge.Resolved(trees), source).defaultMode, AsLayers(trees, source);
      && (forall i | 0 <= i < |layers| :: layers[i].defaultMode.Rank() <= mode.Rank())
      && (mode.ReadOnly? || exists i | 0 <= i < |layers| :: layers[i].defaultMode == mode)
  {
    var k := Merge.ModeIsTheStrictest(trees);
    var ranks, layers := Merge.Strictnesses(trees), AsLayers(trees, source);
    assert forall i | 0 <= i < |trees| :: layers[i].defaultMode == PermissionOf(ranks[i]);
    if trees != [] {
      assert Merge.Strictness(Merge.Resolved(trees)) == ranks[k];
      assert layers[k].defaultMode == PermissionOf(ranks[k]);
    }
  }

  /**
   * Flattening preserves meaning: when no layer is mis-shaped, resolving a tool against the merged
   * configuration gives the mode of resolving it over the separate layers.
   */
  lemma FlatteningPreservesTheMode(trees: seq<Merge.Value>, tool: string, source: Source, flat: Decision,
                                   separate: Decision)
    requires Merge.Start(Merge.DenyList, trees) == 0 && Merge.Start(Merge.ToolMode, trees) == 0
    requires IsDecision(tool, [AsLayer(Merge.Resolved(trees), source)], flat)
    requires IsDecision(tool, AsLayers(trees, source), separate)
    ensures flat.mode == separate.mode
  {
    DeniesAgree(trees, source, tool);
    DefaultsAgree(trees, source);
    var layers := AsLayers(trees, source);
    assert forall i | 0 <= i < |layers| :: layers[i].toolModes == map[];
    SameMaximum(tool, AsLayer(Merge.Resolved(trees), source), layers, flat, separate);
  }

  /** A layer whose deny list is the union and whose default is the maximum of other layers stands for all of them. */
  lemma SameMaximum(tool: string, whole: Layer, layers: seq<Layer>, flat: Decision, separate: Decision)
    requires whole.toolModes == map[] && forall i | 0 <= i < |layers| :: layers[i].toolModes == map[]
    requires tool in whole.deniedTools <==> exists i | 0 <= i < |layers| :: tool in layers[i].deniedTools
    requires forall i | 0 <= i < |layers| :: layers[i].defaultMode.Rank() <= whole.defaultMode.Rank()
    requires whole.defaultMode.ReadOnly? || exists i | 0 <= i < |layers| :: layers[i].defaultMode == whole.defaultMode
    requires IsDecision(tool, [whole], flat) && IsDecision(tool, layers, separate)
    ensures flat.mode == separate.mode
  {
    ModeIsTheMaximum(tool, [whole], flat);
    ModeIsTheMaximum(tool, layers, separate);
    assert [whole][0] == whole;
    assert forall i | 0 <= i < |layers| :: Proposed(layers[i], tool).Rank() <= Proposed(whole, tool).Rank();
    assert Proposed(whole, tool).ReadOnly? || exists i | 0 <= i < |layers| ::
        Proposed(layers[i], tool) == Proposed(whole, tool);
  }
}
