/** Configuration layers: how `resolve` merges them, and what no later layer can undo. */
module Merge {
  import opened Base

  /** A parsed configuration tree. */
  datatype Value =
    Null | Bool(b: bool) | Num(n: int) | Str(s: string) | Arr(items: seq<Value>) | Obj(fields: map<string, Value>)

  const DENY_PATH := "policies" + "." + "global_deny"
  const MODE_PATH := "policies" + "." + "default_tool_mode"

  function Child(path: string, key: string): string { if path == "" then key else path + "." + key }

  function Rank(mode: string): nat {
    if mode == "read-only" then 0
    else if mode == "approval-required" then 1
    else if mode == "denied" then 2
    else 255
  }

  /** `base` with the items of `overlay` it did not yet contain, in order. */
  function Extended(base: seq<Value>, overlay: seq<Value>): seq<Value> {
    if overlay == [] then base
    else
      var before := Extended(base, overlay[..|overlay| - 1]);
      var item := overlay[|overlay| - 1];
      if item in before then before else before + [item]
  }

  /** What `overlay` makes of `base` at `path`. */
  function Merge(base: Value, overlay: Value, path: string): Value
    decreases overlay
  {
    if base.Obj? && overlay.Obj? then
      Obj(map key | key in base.fields.Keys + overlay.fields.Keys ::
            if key !in overlay.fields then base.fields[key]
            else if key !in base.fields then overlay.fields[key]
            else Merge(base.fields[key], overlay.fields[key], Child(path, key)))
    else if base.Arr? && overlay.Arr? && path == DENY_PATH then Arr(Extended(base.items, overlay.items))
    else if base.Str? && overlay.Str? && path == MODE_PATH then if Rank(overlay.s) > Rank(base.s) then overlay else base
    else overlay
  }

  /** `merge_value`: visits the overlay's keys one by one and updates the base. */
  method MergeValue(base: Value, overlay: Value, path: string) returns (r: Value)
    ensures r == Merge(base, overlay, path)
    decreases overlay, 1
  {
    if base.Obj? && overlay.Obj? {
      var fields := MergeFields(base.fields, overlay, path);
      assert fields == Merge(base, overlay, path).fields;
      return Obj(fields);
    }
    if base.Arr? && overlay.Arr? && path == DENY_PATH {
      var items := ExtendDeny(base.items, overlay.items);
      return Arr(items);
    }
    if base.Str? && overlay.Str? && path == MODE_PATH {
      return if Rank(overlay.s) > Rank(base.s) then overlay else base;
    }
    return overlay;
  }

  ghost function MergedField(base: map<string, Value>, overlay: map<string, Value>, path: string, key: string): Value
    requires key in overlay
  {
    if key in base then Merge(base[key], overlay[key], Child(path, key)) else overlay[key]
  }

  /** `fields` is `base` merged with the keys of `overlay` that are no longer in `todo`. */
  ghost predicate MergedExcept(base: map<string, Value>, overlay: map<string, Value>, path: string, todo: set<string>,
                               fields: map<string, Value>) {
    && (forall key :: key in fields <==> key in base || (key in overlay && key !in todo))
    && (forall key | key in fields ::
          fields[key] == if key in overlay && key !in todo then MergedField(base, overlay, path, key) else base[key])
  }

  method MergeFields(base: map<string, Value>, overlay: Value, path: string) returns (fields: map<string, Value>)
    requires overlay.Obj?
    ensures MergedExcept(base, overlay.fields, path, {}, fields)
    decreases overlay, 0
  {
    fields := base;
    var todo := overlay.fields.Keys;
    while todo != {}
      invariant todo <= overlay.fields.Keys && MergedExcept(base, overlay.fields, path, todo, fields)
      decreases |todo|
    {
      var key :| key in todo;
      var value := overlay.fields[key];
      if key in fields {
        value := MergeValue(fields[key], value, Child(path, key));
      }
      fields := fields[key := value];
      todo := todo - {key};
    }
  }

  method ExtendDeny(base: seq<Value>, overlay: seq<Value>) returns (r: seq<Value>)
    ensures r == Extended(base, overlay)
  {
    r := base;
    for i := 0 to |overlay|
      invariant r == Extended(base, overlay[..i])
    {
      assert overlay[..i + 1][..i] == overlay[..i];
      if overlay[i] !in r {
        r := r + [overlay[i]];
      }
    }
    assert overlay[..|overlay|] == overlay;
  }

  /** All layers merged in order, onto an empty object. */
  function Resolved(layers: seq<Value>): Value {
    if layers == [] then Obj(map[]) else Merge(Resolved(layers[..|layers| - 1]), layers[|layers| - 1], "")
  }

  /** `resolve` up to deserialization: None when there is no layer. */
  method Resolve(layers: seq<Value>) returns (r: Option<Value>)
    ensures r == if layers == [] then None else Some(Resolved(layers))
  {
    if layers == [] {
      return None;
    }
    var merged := Obj(map[]);
    for i := 0 to |layers|
      invariant merged == Resolved(layers[..i])
    {
      assert layers[..i + 1][..i] == layers[..i];
      merged := MergeValue(merged, layers[i], "");
    }
    assert layers[..|layers|] == layers;
    return Some(merged);
  }

  // ---- Repeating a layer ----

  lemma {:induction false} ExtendedHolds(base: seq<Value>, overlay: seq<Value>)
    ensures forall v :: v in Extended(base, overlay) <==> v in base || v in overlay
  {
    if overlay != [] {
      var front, item := overlay[..|overlay| - 1], overlay[|overlay| - 1];
      ExtendedHolds(base, front);
      assert overlay == front + [item];
    }
  }

  lemma {:induction false} NothingToExtend(base: seq<Value>, overlay: seq<Value>)
    requires forall v | v in overlay :: v in base
    ensures Extended(base, overlay) == base
  {
    if overlay != [] {
      assert forall v | v in overlay[..|overlay| - 1] :: v in overlay;
      NothingToExtend(base, overlay[..|overlay| - 1]);
    }
  }

  lemma {:induction false} SelfMerge(v: Value, path: string)
    ensures Merge(v, v, path) == v
    decreases v
  {
    if v.Obj? {
      forall key | key in v.fields
        ensures Merge(v.fields[key], v.fields[key], Child(path, key)) == v.fields[key]
      {
        SelfMerge(v.fields[key], Child(path, key));
      }
      assert Merge(v, v, path).fields == v.fields;
    } else if v.Arr? {
      NothingToExtend(v.items, v.items);
    }
  }

  /** Merging is idempotent for every tree at every path: a layer applied twice in a row changes nothing more. */
  lemma {:induction false} MergeIsIdempotent(base: Value, overlay: Value, path: string)
    ensures Merge(Merge(base, overlay, path), overlay, path) == Merge(base, overlay, path)
    decreases overlay
  {
    var once := Merge(base, overlay, path);
    if base.Obj? && overlay.Obj? {
      forall key | key in overlay.fields
        ensures Merge(once.fields[key], overlay.fields[key], Child(path, key)) == once.fields[key]
      {
        if key in base.fields {
          MergeIsIdempotent(base.fields[key], overlay.fields[key], Child(path, key));
        } else {
          SelfMerge(overlay.fields[key], Child(path, key));
        }
      }
      assert Merge(once, overlay, path).fields == once.fields;
    } else if base.Arr? && overlay.Arr? && path == DENY_PATH {
      ExtendedHolds(base.items, overlay.items);
      NothingToExtend(once.items, overlay.items);
    } else {
      SelfMerge(overlay, path);
    }
  }

  // ---- What a merged tree holds at each key path ----

  function Get(v: Value, keys: seq<string>): Option<Value> {
    if keys == [] then Some(v)
    else if v.Obj? && keys[0] in v.fields then Get(v.fields[keys[0]], keys[1..])
    else None
  }

  /** The tree says nothing at `keys`: some object on the way lacks the next key. */
  predicate Silent(v: Value, keys: seq<string>) {
    keys != [] && v.Obj? && (keys[0] !in v.fields || Silent(v.fields[keys[0]], keys[1..]))
  }

  function PathOf(path: string, keys: seq<string>): string
    decreases |keys|
  {
    if keys == [] then path else PathOf(Child(path, keys[0]), keys[1..])
  }

  /**
   * The whole meaning of a merge, key path by key path: a silent overlay keeps the base, an overlay value
   * meets the base value of the same path, and anything else is replaced.
   */
  lemma {:induction false} MergeAtEveryPath(base: Value, overlay: Value, path: string, keys: seq<string>)
    ensures Get(Merge(base, overlay, path), keys) ==
            match Get(overlay, keys)
            case None => if Silent(overlay, keys) then Get(base, keys) else None
            case Some(x) => (match Get(base, keys)
                             case None => Some(x)
                             case Some(y) => Some(Merge(y, x, PathOf(path, keys))))
    decreases keys
  {
    if keys != [] && base.Obj? && overlay.Obj? && keys[0] in base.fields && keys[0] in overlay.fields {
      MergeAtEveryPath(base.fields[keys[0]], overlay.fields[keys[0]], Child(path, keys[0]), keys[1..]);
    }
  }

  /** Outside the two protected fields a scalar or a list of a later layer simply wins. */
  lemma LastWriterWins(layers: seq<Value>, keys: seq<string>, x: Value)
    requires layers != [] && Get(layers[|layers| - 1], keys) == Some(x) && !x.Obj?
    requires PathOf("", keys) != DENY_PATH && PathOf("", keys) != MODE_PATH
    ensures Get(Resolved(layers), keys) == Some(x)
  {
    MergeAtEveryPath(Resolved(layers[..|layers| - 1]), layers[|layers| - 1], "", keys);
  }

  // ---- Grouping layers ----

  /** The two values meet instead of one replacing the other. */
  predicate Combine(a: Value, b: Value, path: string) {
    || (a.Obj? && b.Obj?)
    || (a.Arr? && b.Arr? && path == DENY_PATH)
    || (a.Str? && b.Str? && path == MODE_PATH)
  }

  /** Wherever the outer trees would combine, the middle one does not stand between them with another shape. */
  ghost predicate NoClash(a: Value, b: Value, c: Value, path: string)
    decreases b
  {
    && (Combine(a, c, path) ==> Combine(a, b, path))
    && (a.Obj? && b.Obj? && c.Obj? ==>
          forall key | key in a.fields && key in b.fields && key in c.fields ::
            NoClash(a.fields[key], b.fields[key], c.fields[key], Child(path, key)))
  }

  lemma {:induction false} ExtendedAssociates(a: seq<Value>, b: seq<Value>, c: seq<Value>)
    ensures Extended(Extended(a, b), c) == Extended(a, Extended(b, c))
  {
    if c != [] {
      var front, item := c[..|c| - 1], c[|c| - 1];
      ExtendedAssociates(a, b, front);
      var bc := Extended(b, front);
      ExtendedHolds(a, bc);
      if item !in bc { assert (bc + [item])[..|bc|] == bc; }
    }
  }

  /** Layers may be merged in either grouping unless the middle one clashes. */
  lemma {:induction false} MergeAssociates(a: Value, b: Value, c: Value, path: string)
    requires NoClash(a, b, c, path)
    ensures Merge(Merge(a, b, path), c, path) == Merge(a, Merge(b, c, path), path)
    decreases b
  {
    if a.Obj? && b.Obj? && c.Obj? {
      forall key | key in a.fields && key in b.fields && key in c.fields
        ensures
          var x, y, z, p := a.fields[key], b.fields[key], c.fields[key], Child(path, key);
          Merge(Merge(x, y, p), z, p) == Merge(x, Merge(y, z, p), p)
      {
        MergeAssociates(a.fields[key], b.fields[key], c.fields[key], Child(path, key));
      }
      SameFields(a, b, c, path);
    } else if a.Arr? && b.Arr? && c.Arr? {
      ExtendedAssociates(a.items, b.items, c.items);
    }
  }

  lemma FieldOfMerge(base: Value, overlay: Value, path: string, key: string)
    requires base.Obj? && overlay.Obj?
    ensures
      var merged := Merge(base, overlay, path);
      && merged.Obj? && (key in merged.fields <==> key in base.fields || key in overlay.fields)
      && (key in overlay.fields ==> merged.fields[key] == MergedField(base.fields, overlay.fields, path, key))
      && (key in base.fields && key !in overlay.fields ==> merged.fields[key] == base.fields[key])
  {}

  lemma SameFields(a: Value, b: Value, c: Value, path: string)
    requires a.Obj? && b.Obj? && c.Obj?
    requires forall key | key in a.fields && key in b.fields && key in c.fields ::
      var x, y, z, p := a.fields[key], b.fields[key], c.fields[key], Child(path, key);
      Merge(Merge(x, y, p), z, p) == Merge(x, Merge(y, z, p), p)
    ensures Merge(Merge(a, b, path), c, path) == Merge(a, Merge(b, c, path), path)
  {
    var left, right := Merge(Merge(a, b, path), c, path), Merge(a, Merge(b, c, path), path);
    forall key
      ensures key in left.fields <==> key in right.fields
      ensures key in left.fields ==> left.fields[key] == right.fields[key]
    {
      FieldOfMerge(a, b, path, key);
      FieldOfMerge(b, c, path, key);
      FieldOfMerge(Merge(a, b, path), c, path, key);
      FieldOfMerge(a, Merge(b, c, path), path, key);
    }
    assert left.fields == right.fields;
  }

  // ---- The two protected fields ----

  datatype Protected = DenyList | ToolMode
  {
    function Keys(): seq<string> { ["policies", if DenyList? then "global_deny" else "default_tool_mode"] }

    predicate Fits(v: Value) { if DenyList? then v.Arr? else v.Str? }

    lemma Path()
      ensures PathOf("", Keys()) == if DenyList? then DENY_PATH else MODE_PATH
    {
      assert Keys()[1..][1..] == [];
      assert PathOf("", Keys()) == PathOf("policies", Keys()[1..]) == PathOf(Child("policies", Keys()[1]), []);
    }
  }

  /** The layer puts something of another shape where the field, or an object above it, belongs. */
  predicate Resets(f: Protected, layer: Value) {
    match Get(layer, f.Keys())
    case None => !Silent(layer, f.Keys())
    case Some(x) => !f.Fits(x)
  }

  /** One past the last layer that resets the field; 0 if none does. */
  function Start(f: Protected, layers: seq<Value>): (r: nat)
    ensures r <= |layers|
    ensures r > 0 ==> Resets(f, layers[r - 1])
    ensures forall i | r <= i < |layers| :: !Resets(f, layers[i])
  {
    if layers == [] then 0
    else if Resets(f, layers[|layers| - 1]) then |layers|
    else Start(f, layers[..|layers| - 1])
  }

  /** A tree whose protected field is `x`. */
  function Holding(f: Protected, x: Value): Value { Obj(map["policies" := Obj(map[f.Keys()[1] := x])]) }

  lemma HoldingHolds(f: Protected, x: Value)
    ensures Get(Holding(f, x), f.Keys()) == Some(x)
  {
    var inner := Holding(f, x).fields["policies"];
    assert Get(inner, f.Keys()[1..]) == Get(x, f.Keys()[1..][1..]);
  }

  // ---- The deny list ----

  ghost function Denied(v: Value): set<Value> {
    match Get(v, DenyList.Keys())
    case Some(Arr(items)) => set x | x in items
    case _ => {}
  }

  /** One merge: the denied tools add up, unless the overlay resets the list. */
  lemma DeniedAfterMerge(base: Value, overlay: Value)
    ensures Denied(Merge(base, overlay, "")) == if Resets(DenyList, overlay) then {} else Denied(base) + Denied(overlay)
  {
    MergeAtEveryPath(base, overlay, "", DenyList.Keys());
    DenyList.Path();
    var x, y := Get(overlay, DenyList.Keys()), Get(base, DenyList.Keys());
    if x.Some? && x.value.Arr? && y.Some? && y.value.Arr? {
      ExtendedHolds(y.value.items, x.value.items);
    }
  }

  ghost function DeniedFrom(layers: seq<Value>, start: nat): set<Value>
    requires start <= |layers|
  {
    set i, x | start <= i < |layers| && x in Denied(layers[i]) :: x
  }

  /** For every stack of layers, the denied tools are the union over the layers since the last reset. */
  lemma {:induction false} DeniedIsTheUnion(layers: seq<Value>)
    ensures Denied(Resolved(layers)) == DeniedFrom(layers, Start(DenyList, layers))
  {
    if layers != [] {
      var n := |layers| - 1;
      var front := layers[..n];
      DeniedIsTheUnion(front);
      DeniedAfterMerge(Resolved(front), layers[n]);
      if !Resets(DenyList, layers[n]) {
        var start := Start(DenyList, front);
        OneMoreDenier(layers, start);
      }
    }
  }

  lemma OneMoreDenier(layers: seq<Value>, start: nat)
    requires start < |layers|
    ensures
      var n := |layers| - 1;
      DeniedFrom(layers, start) == DeniedFrom(layers[..n], start) + Denied(layers[n])
  {
    var n := |layers| - 1;
    assert forall i | 0 <= i < n :: layers[..n][i] == layers[i];
  }

  /** A tool ends up denied exactly when some layer denies it and no layer from there on resets the list. */
  lemma DenySurvivesExactlyWhen(layers: seq<Value>, tool: Value)
    ensures tool in Denied(Resolved(layers)) <==>
            exists i | 0 <= i < |layers| ::
              tool in Denied(layers[i]) && forall j | i <= j < |layers| :: !Resets(DenyList, layers[j])
  {
    DeniedIsTheUnion(layers);
    var start := Start(DenyList, layers);
    if tool in DeniedFrom(layers, start) {
      var i :| start <= i < |layers| && tool in Denied(layers[i]);
    }
  }

  /** A layer keeps every deny of every base exactly when it is well shaped at the deny list. */
  lemma DeniesAreKeptExactlyByWellShapedLayers(layer: Value)
    ensures (forall base: Value :: Denied(base) <= Denied(Merge(base, layer, ""))) <==> !Resets(DenyList, layer)
  {
    forall base: Value
      ensures Denied(Merge(base, layer, "")) == if Resets(DenyList, layer) then {} else Denied(base) + Denied(layer)
    {
      DeniedAfterMerge(base, layer);
    }
    if Resets(DenyList, layer) {
      var base := Holding(DenyList, Arr([Str("shell")]));
      HoldingHolds(DenyList, Arr([Str("shell")]));
      assert Str("shell") in Denied(base);
      assert !(Denied(base) <= Denied(Merge(base, layer, "")));
    }
  }

  // ---- The default tool mode ----

  function Mode(v: Value): Option<string> {
    match Get(v, ToolMode.Keys())
    case Some(Str(s)) => Some(s)
    case _ => None
  }

  /** An absent mode restricts less than any mode. */
  function Strictness(v: Value): nat { StrictnessOf(Mode(v)) }

  function StrictnessOf(mode: Option<string>): nat { if mode.None? then 0 else Rank(mode.value) + 1 }

  /** One merge: the stricter mode stays and the base keeps a tie, unless the overlay resets the mode. */
  lemma ModeAfterMerge(base: Value, overlay: Value)
    ensures Mode(Merge(base, overlay, "")) ==
            if Resets(ToolMode, overlay) then None
            else if Strictness(overlay) > Strictness(base) then Mode(overlay)
            else Mode(base)
  {
    MergeAtEveryPath(base, overlay, "", ToolMode.Keys());
    ToolMode.Path();
  }

  function Strictnesses(layers: seq<Value>): seq<nat> {
    seq(|layers|, i requires 0 <= i < |layers| => Strictness(layers[i]))
  }

  /** `k` is the first of the greatest entries from `start` on. */
  ghost predicate FirstGreatest(ranks: seq<nat>, start: nat, k: nat) {
    && start <= k < |ranks|
    && (forall i | start <= i < |ranks| :: ranks[i] <= ranks[k])
    && (forall i | start <= i < k :: ranks[i] < ranks[k])
  }

  lemma OneMoreRank(ranks: seq<nat>, start: nat, k: nat, rank: nat)
    requires FirstGreatest(ranks, start, k)
    ensures FirstGreatest(ranks + [rank], start, if rank > ranks[k] then |ranks| else k)
  {}

  /** For every stack of layers, the mode is that of the first strictest layer since the last reset. */
  lemma {:induction false} ModeIsTheStrictest(layers: seq<Value>) returns (k: nat)
    ensures
      var start := Start(ToolMode, layers);
      if start == |layers| then Mode(Resolved(layers)) == None
      else FirstGreatest(Strictnesses(layers), start, k) && Mode(Resolved(layers)) == Mode(layers[k])
  {
    k := 0;
    if layers != [] {
      var n := |layers| - 1;
      var front := layers[..n];
      k := ModeIsTheStrictest(front);
      ModeAfterMerge(Resolved(front), layers[n]);
      assert Strictnesses(layers) == Strictnesses(front) + [Strictness(layers[n])];
      if Start(ToolMode, front) == n {
        k := n;
      } else {
        OneMoreRank(Strictnesses(front), Start(ToolMode, front), k, Strictness(layers[n]));
        k := if Strictness(layers[n]) > Strictness(front[k]) then n else k;
      }
    }
  }

  lemma UnknownIsStrictest(a: Option<string>, b: Option<string>)
    requires StrictnessOf(a) <= StrictnessOf(b) && a.Some? && Rank(a.value) == 255
    ensures b.Some? && Rank(b.value) == 255
  {}

  /** A misspelt mode is never masked by a later, properly spelt one, so deserialization gets to refuse it. */
  lemma UnknownModeIsNeverHidden(layers: seq<Value>, i: nat)
    requires Start(ToolMode, layers) <= i < |layers| && Mode(layers[i]).Some? && Rank(Mode(layers[i]).value) == 255
    ensures Mode(Resolved(layers)).Some? && Rank(Mode(Resolved(layers)).value) == 255
  {
    var k := ModeIsTheStrictest(layers);
    assert Strictnesses(layers)[i] <= Strictnesses(layers)[k];
    UnknownIsStrictest(Mode(layers[i]), Mode(layers[k]));
  }

  /** A layer never loosens the mode of any base exactly when it is well shaped at the mode. */
  lemma ModeIsKeptExactlyByWellShapedLayers(layer: Value)
    ensures (forall base: Value :: Strictness(base) <= Strictness(Merge(base, layer, ""))) <==> !Resets(ToolMode, layer)
  {
    forall base: Value
      ensures Strictness(Merge(base, layer, "")) ==
              if Resets(ToolMode, layer) then 0
              else if Strictness(layer) > Strictness(base) then Strictness(layer)
              else Strictness(base)
    {
      ModeAfterMerge(base, layer);
    }
    if Resets(ToolMode, layer) {
      var base := Holding(ToolMode, Str("denied"));
      HoldingHolds(ToolMode, Str("denied"));
      assert !(Strictness(base) <= Strictness(Merge(base, layer, "")));
    }
  }

  // ---- Stacks that deserialize ----

  /** The resolved policies, as far as a configuration keeps them. */
  datatype Policies = Policies(mode: Permission, deny: set<string>)

  function ModeNamed(mode: string): (r: Option<Permission>)
    ensures r.Some? <==> Rank(mode) <= 2
    ensures r.Some? ==> r.value.Rank() == Rank(mode)
  {
    if mode == "read-only" then Some(ReadOnly)
    else if mode == "approval-required" then Some(ApprovalRequired)
    else if mode == "denied" then Some(Permission.Denied)
    else None
  }

  predicate AllTexts(items: seq<Value>) { forall i | 0 <= i < |items| :: items[i].Str? }

  predicate PolicyField(key: string) {
    || key == "default_tool_mode" || key == "global_deny" || key == "production_mutations"
    || key == "cost" || key == "provider_native_writes"
  }

  /** The object's three required fields read, and it has no unknown one; the optional two are not looked into. */
  predicate Reads(fields: map<string, Value>) {
    && (forall key | key in fields :: PolicyField(key))
    && "default_tool_mode" in fields && "global_deny" in fields && "production_mutations" in fields
    && fields["production_mutations"] == Str("approval-required")
    && fields["global_deny"].Arr? && AllTexts(fields["global_deny"].items)
    && fields["default_tool_mode"].Str? && ModeNamed(fields["default_tool_mode"].s).Some?
  }

  /** The tree's `policies` object deserializes. */
  predicate Readable(v: Value) {
    && v.Obj? && "policies" in v.fields && v.fields["policies"].Obj? && Reads(v.fields["policies"].fields)
  }

  function Deserialized(v: Value): Policies
    requires Readable(v)
  {
    var fields := v.fields["policies"].fields;
    Policies(ModeNamed(fields["default_tool_mode"].s).value, set x | x in fields["global_deny"].items && x.Str? :: x.s)
  }

  lemma ReadableFields(v: Value)
    requires Readable(v)
    ensures
      var fields := v.fields["policies"].fields;
      && Get(v, DenyList.Keys()) == Some(fields["global_deny"])
      && Get(v, ToolMode.Keys()) == Some(fields["default_tool_mode"])
  {
    var inner := v.fields["policies"];
    assert Get(inner, DenyList.Keys()[1..]) == Get(inner.fields["global_deny"], DenyList.Keys()[1..][1..]);
    assert Get(inner, ToolMode.Keys()[1..]) == Get(inner.fields["default_tool_mode"], ToolMode.Keys()[1..][1..]);
  }

  /**
   * For every stack that deserializes: the configuration denies exactly the tools some layer denies with no
   * layer from there on resetting the list; its mode is that of the first strictest layer since the last reset
   * of the mode, and every layer since then names a known mode or none.
   */
  lemma ReadableStack(layers: seq<Value>) returns (k: nat)
    requires Readable(Resolved(layers))
    ensures
      var p := Deserialized(Resolved(layers));
      && (forall tool: string :: tool in p.deny <==> KeptDeny(layers, tool))
      && FirstGreatest(Strictnesses(layers), Start(ToolMode, layers), k) && Strictness(layers[k]) == p.mode.Rank() + 1
      && (forall i | Start(ToolMode, layers) <= i < |layers| :: Strictness(layers[i]) <= 3)
  {
    var v := Resolved(layers);
    ReadableFields(v);
    k := ModeIsTheStrictest(layers);
    assert forall i | Start(ToolMode, layers) <= i < |layers| :: Strictness(layers[i]) == Strictnesses(layers)[i];
    forall tool: string
      ensures tool in Deserialized(v).deny <==> KeptDeny(layers, tool)
    {
      DenySurvivesExactlyWhen(layers, Str(tool));
      if Str(tool) in v.fields["policies"].fields["global_deny"].items { assert Str(tool).Str?; }
    }
  }

  /** Some layer denies the tool and no layer from there on resets the list. */
  ghost predicate KeptDeny(layers: seq<Value>, tool: string) {
    exists i | 0 <= i < |layers| ::
      Str(tool) in Denied(layers[i]) && forall j | i <= j < |layers| :: !Resets(DenyList, layers[j])
  }

  /** The tree with another policies object. */
  function WithPolicies(v: Value, fields: map<string, Value>): Value
    requires v.Obj?
  {
    Obj(v.fields["policies" := Obj(fields)])
  }

  /** Merging a layer that only speaks of the deny list. */
  lemma OnlyDenyChanges(v: Value, fields: map<string, Value>, x: Value)
    requires v.Obj? && "global_deny" in fields
    ensures Merge(WithPolicies(v, fields), Holding(DenyList, x), "") ==
            WithPolicies(v, fields["global_deny" := Merge(fields["global_deny"], x, DENY_PATH)])
  {
    var base, layer := Obj(fields), Obj(map["global_deny" := x]);
    var changed := fields["global_deny" := Merge(fields["global_deny"], x, DENY_PATH)];
    assert Child("", "policies") == "policies" && Child("policies", "global_deny") == DENY_PATH;
    assert Merge(base, layer, "policies").fields == changed;
    assert Merge(WithPolicies(v, fields), Holding(DenyList, x), "").fields == WithPolicies(v, changed).fields;
  }

  lemma FirstLayer(v: Value)
    requires v.Obj?
    ensures Resolved([v]) == v
  {
    assert [v][..0] == [];
    assert Merge(Obj(map[]), v, "").fields == v.fields;
  }

  /** The two later layers, one by one. */
  lemma TwoMoreLayers(v: Value, text: string)
    requires Readable(v)
    ensures
      var fields := v.fields["policies"].fields;
      Resolved([v, Holding(DenyList, Str(text)), Holding(DenyList, Arr([]))]) ==
      WithPolicies(v, fields["global_deny" := Arr([])])
  {
    var fields, mangled, later := v.fields["policies"].fields, Holding(DenyList, Str(text)), Holding(DenyList, Arr([]));
    var stack := [v, mangled, later];
    assert stack[..2] == [v, mangled] && [v, mangled][..1] == [v];
    FirstLayer(v);
    assert v.fields == WithPolicies(v, fields).fields;
    OnlyDenyChanges(v, fields, Str(text));
    var after := fields["global_deny" := Str(text)];
    OnlyDenyChanges(v, after, Arr([]));
    assert after["global_deny" := Arr([])] == fields["global_deny" := Arr([])];
  }

  /**
   * The loss is real: on top of any tree whose policies deserialize, a layer with a text for the deny list and one
   * with a list again leave policies that deserialize and have forgotten every deny, and change nothing else.
   */
  lemma MisshapedLayerErasesDenies(v: Value, text: string)
    requires Readable(v)
    ensures
      var stack := [v, Holding(DenyList, Str(text)), Holding(DenyList, Arr([]))];
      && Readable(Resolved(stack)) && Deserialized(Resolved(stack)) == Deserialized(v).(deny := {})
      && Resolved(stack).fields - {"policies"} == v.fields - {"policies"}
  {
    TwoMoreLayers(v, text);
    KeysDiffer();
  }

  lemma KeysDiffer()
    ensures "global_deny" != "default_tool_mode" && "global_deny" != "production_mutations"
  {
    assert "global_deny"[0] != "default_tool_mode"[0] && "global_deny"[0] != "production_mutations"[0];
  }
}
