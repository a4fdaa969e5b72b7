/**
 * Configuration: the cross-reference checks of `validate`, and the look-ups that rely on them -
 * starting a workflow run, refreshing its bounds and resolving a role to a model.
 */
module Configuration {
  import opened Base
  import Workflow

  datatype Capability = Streaming | ToolCalling | StructuredOutput | SessionResume | Cancellation | Vision | Mcp | Acp

  datatype Model = Model(provider: string, runtimeModel: string)

  datatype Role = Role(
    model: string, tools: seq<string>, dataSources: seq<string>,
    requiredCapabilities: seq<Capability>, fallbackModels: seq<string>)

  datatype Step = Step(
    id: string, role: string, onFindings: Option<string>, maxIterations: Option<nat>,
    tools: seq<string>, fallbacks: seq<string>)

  datatype Config = Config(
    providers: set<string>, models: map<string, Model>, roles: map<string, Role>, tools: set<string>,
    dataSources: set<string>, workflows: map<string, seq<Step>>, defaultRole: string, globalDeny: seq<string>)

  // ---- Identifiers ----

  predicate IsLower(c: int) { 'a' as int <= c <= 'z' as int }

  predicate IsDigit(c: int) { '0' as int <= c <= '9' as int }

  predicate InRest(c: int) { IsLower(c) || IsDigit(c) || c == '-' as int }

  /** `validate_identifier`: by characters, with a length in bytes. */
  predicate ValidIdentifier(value: string) {
    && value != "" && IsLower(value[0] as int)
    && (forall i | 1 <= i < |value| :: InRest(value[i] as int))
    && Utf8Bytes(value) <= 63
  }

  /** The UTF-8 encoding. */
  function Encode(text: string): seq<int> {
    if text == [] then [] else EncodeChar(text[0]) + Encode(text[1..])
  }

  function EncodeChar(ch: char): (r: seq<int>)
    ensures |r| == Utf8Width(ch)
    ensures if ch as int < 0x80 then r == [ch as int] else forall i | 0 <= i < |r| :: r[i] >= 0x80
  {
    var c := ch as int;
    if c < 0x80 then [c]
    else if c < 0x800 then [0xC0 + c / 0x40, 0x80 + c % 0x40]
    else if c < 0x1_0000 then [0xE0 + c / 0x1000, 0x80 + c / 0x40 % 0x40, 0x80 + c % 0x40]
    else [0xF0 + c / 0x4_0000, 0x80 + c / 0x1000 % 0x40, 0x80 + c / 0x40 % 0x40, 0x80 + c % 0x40]
  }

  /** `WorkflowId::parse`: the same rule by bytes. */
  predicate ParsesAsId(bytes: seq<int>) {
    bytes != [] && IsLower(bytes[0]) && (forall i | 1 <= i < |bytes| :: InRest(bytes[i])) && |bytes| <= 63
  }

  predicate AllRest(bytes: seq<int>) { forall i | 0 <= i < |bytes| :: InRest(bytes[i]) }

  lemma {:induction false} EncodeRest(text: string)
    ensures |Encode(text)| == Utf8Bytes(text)
    ensures AllRest(Encode(text)) <==> forall i | 0 <= i < |text| :: InRest(text[i] as int)
  {
    if text != [] {
      EncodeRest(text[1..]);
      var head, tail := EncodeChar(text[0]), Encode(text[1..]);
      assert AllRest(head + tail) <==> AllRest(head) && AllRest(tail) by {
        if AllRest(head + tail) {
          assert forall i | 0 <= i < |head| :: (head + tail)[i] == head[i];
          assert forall i | 0 <= i < |tail| :: (head + tail)[|head| + i] == tail[i];
        }
      }
      assert AllRest(head) <==> InRest(text[0] as int) by {
        if AllRest(head) { assert InRest(head[0]); }
      }
      assert (forall i | 0 <= i < |text| :: InRest(text[i] as int)) <==>
             InRest(text[0] as int) && (forall i | 0 <= i < |text[1..]| :: InRest(text[1..][i] as int)) by {
        assert forall i | 1 <= i < |text| :: text[i] == text[1..][i - 1];
      }
    }
  }

  /** The two identifier parsers of the code base, one by characters and one by bytes, accept the same texts. */
  lemma IdentifierParsersAgree(value: string)
    ensures ParsesAsId(Encode(value)) <==> ValidIdentifier(value)
  {
    EncodeRest(value);
    if value != "" {
      var head, tail := EncodeChar(value[0]), Encode(value[1..]);
      EncodeRest(value[1..]);
      var bytes := Encode(value);
      assert bytes == head + tail;
      if ParsesAsId(bytes) {
        assert bytes[0] == head[0];
        assert AllRest(bytes);
      }
      if ValidIdentifier(value) {
        assert head == [value[0] as int];
        assert AllRest(tail) by { assert forall i | 0 <= i < |value[1..]| :: value[1..][i] == value[i + 1]; }
      }
    }
  }

  // ---- Uniqueness ----

  ghost predicate Distinct<T>(values: seq<T>) { forall i, j | 0 <= i < j < |values| :: values[i] != values[j] }

  function ToSet<T(==)>(values: seq<T>): set<T> { set v | v in values }

  /** `validate_unique` compares the size of the set of values with their number. */
  lemma {:induction false} SameSizeMeansDistinct<T>(values: seq<T>)
    ensures |ToSet(values)| <= |values|
    ensures |ToSet(values)| == |values| <==> Distinct(values)
  {
    if values != [] {
      var init, last := values[..|values| - 1], values[|values| - 1];
      SameSizeMeansDistinct(init);
      assert ToSet(values) == ToSet(init) + {last};
      if last in init {
        assert ToSet(values) == ToSet(init);
        var i :| 0 <= i < |init| && init[i] == last;
        assert values[i] == values[|values| - 1];
      } else {
        assert |ToSet(values)| == |ToSet(init)| + 1;
        if Distinct(init) {
          assert forall i | 0 <= i < |init| :: values[i] == init[i] && init[i] in init;
        }
        if Distinct(values) {
          assert forall i | 0 <= i < |init| :: init[i] == values[i];
        }
      }
    }
  }

  // ---- Validation ----

  ghost predicate Known(names: seq<string>, table: set<string>) { forall i | 0 <= i < |names| :: names[i] in table }

  ghost predicate ValidModel(c: Config, name: string, m: Model) {
    ValidIdentifier(name) && m.provider in c.providers && 1 <= Utf8Bytes(m.runtimeModel) <= 255
  }

  ghost predicate ValidRole(c: Config, name: string, r: Role) {
    && ValidIdentifier(name) && r.model in c.models
    && Distinct(r.tools) && Distinct(r.dataSources) && Distinct(r.fallbackModels) && Distinct(r.requiredCapabilities)
    && Known(r.tools, c.tools) && Known(r.dataSources, c.dataSources) && Known(r.fallbackModels, c.models.Keys)
  }

  ghost predicate ValidStep(c: Config, steps: seq<Step>, s: Step) {
    && ValidIdentifier(s.id) && s.role in c.roles
    && (s.onFindings.Some? ==> exists i | 0 <= i < |steps| :: steps[i].id == s.onFindings.value)
    && (s.maxIterations.Some? ==> 1 <= s.maxIterations.value <= 8)
    && Distinct(s.tools) && Known(s.tools, c.tools) && Distinct(s.fallbacks) && Known(s.fallbacks, c.models.Keys)
  }

  function Ids(steps: seq<Step>): seq<string> { seq(|steps|, i requires 0 <= i < |steps| => steps[i].id) }

  ghost predicate ValidWorkflow(c: Config, name: string, steps: seq<Step>) {
    && ValidIdentifier(name) && steps != [] && Distinct(Ids(steps))
    && forall i | 0 <= i < |steps| :: ValidStep(c, steps, steps[i])
  }

  /** What an accepted configuration guarantees. */
  ghost predicate ValidConfig(c: Config) {
    && c.providers != {} && c.models != map[] && c.roles != map[]
    && (forall name | name in c.providers :: ValidIdentifier(name))
    && (forall name | name in c.models :: ValidModel(c, name, c.models[name]))
    && (forall name | name in c.roles :: ValidRole(c, name, c.roles[name]))
    && c.defaultRole in c.roles && Known(c.globalDeny, c.tools)
    && (forall name | name in c.workflows :: ValidWorkflow(c, name, c.workflows[name]))
  }

  method AreUnique<T(==)>(values: seq<T>) returns (ok: bool)
    ensures ok <==> Distinct(values)
  {
    SameSizeMeansDistinct(values);
    ok := |ToSet(values)| == |values|;
  }

  method AreKnown(names: seq<string>, table: set<string>) returns (ok: bool)
    ensures ok <==> Known(names, table)
  {
    for i := 0 to |names|
      invariant forall k | 0 <= k < i :: names[k] in table
    {
      if names[i] !in table {
        return false;
      }
    }
    return true;
  }

  method CheckRole(c: Config, name: string, r: Role) returns (ok: bool)
    ensures ok <==> ValidRole(c, name, r)
  {
    if !ValidIdentifier(name) || r.model !in c.models {
      return false;
    }
    var unique := AreUnique(r.tools);
    if !unique { return false; }
    unique := AreUnique(r.dataSources);
    if !unique { return false; }
    unique := AreUnique(r.fallbackModels);
    if !unique { return false; }
    unique := AreUnique(r.requiredCapabilities);
    if !unique { return false; }
    var known := AreKnown(r.tools, c.tools);
    if !known { return false; }
    known := AreKnown(r.dataSources, c.dataSources);
    if !known { return false; }
    ok := AreKnown(r.fallbackModels, c.models.Keys);
  }

  method CheckStep(c: Config, steps: seq<Step>, s: Step) returns (ok: bool)
    ensures ok <==> ValidStep(c, steps, s)
  {
    if !ValidIdentifier(s.id) || s.role !in c.roles {
      return false;
    }
    if s.onFindings.Some? && Position(steps, s.onFindings.value).None? {
      return false;
    }
    if s.maxIterations.Some? && (s.maxIterations.value == 0 || s.maxIterations.value > 8) {
      return false;
    }
    var good := AreUnique(s.tools);
    if !good { return false; }
    good := AreKnown(s.tools, c.tools);
    if !good { return false; }
    good := AreUnique(s.fallbacks);
    if !good { return false; }
    ok := AreKnown(s.fallbacks, c.models.Keys);
  }

  method CheckWorkflow(c: Config, name: string, steps: seq<Step>) returns (ok: bool)
    ensures ok <==> ValidWorkflow(c, name, steps)
  {
    if !ValidIdentifier(name) || steps == [] {
      return false;
    }
    var unique := AreUnique(Ids(steps));
    if !unique {
      return false;
    }
    for i := 0 to |steps|
      invariant forall k | 0 <= k < i :: ValidStep(c, steps, steps[k])
    {
      var good := CheckStep(c, steps, steps[i]);
      if !good {
        return false;
      }
    }
    return true;
  }

  method Validate(c: Config) returns (ok: bool)
    ensures ok <==> ValidConfig(c)
  {
    if c.providers == {} || c.models == map[] || c.roles == map[] {
      return false;
    }
    var todo := c.providers;
    while todo != {}
      invariant todo <= c.providers && forall name | name in c.providers - todo :: ValidIdentifier(name)
      decreases |todo|
    {
      var name :| name in todo;
      if !ValidIdentifier(name) {
        return false;
      }
      todo := todo - {name};
    }
    todo := c.models.Keys;
    while todo != {}
      invariant todo <= c.models.Keys
      invariant forall name | name in c.models.Keys - todo :: ValidModel(c, name, c.models[name])
      decreases |todo|
    {
      var name :| name in todo;
      var m := c.models[name];
      if !ValidIdentifier(name) || m.provider !in c.providers || m.runtimeModel == "" ||
          Utf8Bytes(m.runtimeModel) > 255 {
        return false;
      }
      todo := todo - {name};
    }
    var rolesOk := CheckRoles(c);
    if !rolesOk || c.defaultRole !in c.roles {
      return false;
    }
    var denyOk := AreKnown(c.globalDeny, c.tools);
    if !denyOk {
      return false;
    }
    ok := CheckWorkflows(c);
  }

  method CheckRoles(c: Config) returns (ok: bool)
    ensures ok <==> forall name | name in c.roles :: ValidRole(c, name, c.roles[name])
  {
    var todo := c.roles.Keys;
    while todo != {}
      invariant todo <= c.roles.Keys && forall name | name in c.roles.Keys - todo :: ValidRole(c, name, c.roles[name])
      decreases |todo|
    {
      var name :| name in todo;
      var good := CheckRole(c, name, c.roles[name]);
      if !good {
        return false;
      }
      todo := todo - {name};
    }
    return true;
  }

  method CheckWorkflows(c: Config) returns (ok: bool)
    ensures ok <==> forall name | name in c.workflows :: ValidWorkflow(c, name, c.workflows[name])
  {
    var todo := c.workflows.Keys;
    while todo != {}
      invariant todo <= c.workflows.Keys
      invariant forall name | name in c.workflows.Keys - todo :: ValidWorkflow(c, name, c.workflows[name])
      decreases |todo|
    {
      var name :| name in todo;
      var good := CheckWorkflow(c, name, c.workflows[name]);
      if !good {
        return false;
      }
      todo := todo - {name};
    }
    return true;
  }

  // ---- Starting and refreshing a run ----

  function Position(steps: seq<Step>, target: string): (r: Option<nat>)
    ensures r.Some? ==> r.value < |steps| && steps[r.value].id == target
    ensures r.Some? ==> forall i | 0 <= i < r.value :: steps[i].id != target
    ensures r.None? ==> forall i | 0 <= i < |steps| :: steps[i].id != target
  {
    if steps == [] then None
    else if steps[0].id == target then Some(0)
    else
      var r := Position(steps[1..], target);
      assert forall i | 1 <= i < |steps| :: steps[i] == steps[1..][i - 1];
      if r.Some? then Some(r.value + 1) else None
  }

  function Clamped(max: Option<nat>): nat {
    if max.None? || max.value < 1 then 1 else if max.value > 8 then 8 else max.value
  }

  /** The correction bounds `refresh_step_bounds` copies from a step. */
  function BoundsOf(steps: seq<Step>, s: Step): Workflow.Step {
    Workflow.Step(if s.onFindings.Some? then Position(steps, s.onFindings.value) else None, Clamped(s.maxIterations))
  }

  function DriverSteps(steps: seq<Step>): seq<Workflow.Step> {
    seq(|steps|, i requires 0 <= i < |steps| => BoundsOf(steps, steps[i]))
  }

  datatype StartError = NotConfigured | NoSteps | EmptyStepId | InvalidId | InvalidBounds

  function StartRun(c: Config, workflowId: string): Result<Workflow.Run, StartError> {
    if workflowId !in c.workflows then Err(NotConfigured)
    else
      var steps := c.workflows[workflowId];
      if steps == [] then Err(NoSteps)
      else if exists i | 0 <= i < |steps| :: steps[i].id == "" then Err(EmptyStepId)
      else if !ParsesAsId(Encode(workflowId)) then Err(InvalidId)
      else
        var first := BoundsOf(steps, steps[0]);
        match Workflow.Start(|steps|, first.maxIterations, first.onFindings)
        case None => Err(InvalidBounds)
        case Some(run) => Ok(run)
  }

  /** Every bound a refresh can copy is in range, and a declared findings target is always found. */
  lemma RefreshIsInRange(c: Config, name: string, i: nat)
    requires ValidConfig(c) && name in c.workflows && i < |c.workflows[name]|
    ensures
      var steps := c.workflows[name];
      var b := BoundsOf(steps, steps[i]);
      && 1 <= b.maxIterations <= 8 && (b.onFindings.Some? <==> steps[i].onFindings.Some?)
      && (b.onFindings.Some? ==> b.onFindings.value < |steps|)
      && (b.onFindings.Some? ==> steps[b.onFindings.value].id == steps[i].onFindings.value)
  {
    assert ValidWorkflow(c, name, c.workflows[name]);
  }

  /** Validation is sufficient: every configured workflow of an accepted configuration starts. */
  lemma EveryWorkflowStarts(c: Config, name: string)
    requires ValidConfig(c) && name in c.workflows
    ensures StartRun(c, name) == Ok(Workflow.First(DriverSteps(c.workflows[name])))
    ensures DriverSteps(c.workflows[name]) != [] && Workflow.ValidSteps(DriverSteps(c.workflows[name]))
  {
    var steps := c.workflows[name];
    assert ValidWorkflow(c, name, steps);
    IdentifierParsersAgree(name);
    RefreshIsInRange(c, name, 0);
    NoEmptyStep(c, steps);
    DriverStepsAreValid(c, name);
  }

  lemma NoEmptyStep(c: Config, steps: seq<Step>)
    requires forall i | 0 <= i < |steps| :: ValidStep(c, steps, steps[i])
    ensures forall i | 0 <= i < |steps| :: steps[i].id != ""
  {
    forall i | 0 <= i < |steps| ensures steps[i].id != "" { assert ValidIdentifier(steps[i].id); }
  }

  lemma DriverStepsAreValid(c: Config, name: string)
    requires ValidConfig(c) && name in c.workflows
    ensures Workflow.ValidSteps(DriverSteps(c.workflows[name]))
  {
    var steps := c.workflows[name];
    forall i | 0 <= i < |steps|
      ensures
        var b := DriverSteps(steps)[i];
        1 <= b.maxIterations <= 8 && (b.onFindings.Some? ==> b.onFindings.value < |steps|)
    {
      RefreshIsInRange(c, name, i);
    }
  }

  /** The workflow ends within `limit` attempts, whatever they report. */
  ghost predicate EndsWithin(c: Config, name: string, limit: nat)
    requires name in c.workflows && StartRun(c, name).Ok?
  {
    forall verdicts: seq<bool> | |verdicts| >= limit ::
      !Workflow.Turns(DriverSteps(c.workflows[name]), StartRun(c, name).value, verdicts).phase.Running?
  }

  /**
   * Put together: a workflow of an accepted configuration starts, and it is sure to end if and only if no
   * reset lies inside a loop.
   */
  lemma AcceptedWorkflowEndsExactlyWhen(c: Config, name: string)
    requires ValidConfig(c) && name in c.workflows
    ensures StartRun(c, name).Ok?
    ensures (exists limit: nat :: EndsWithin(c, name, limit)) <==>
        Workflow.NoResetInsideALoop(DriverSteps(c.workflows[name]))
  {
    EveryWorkflowStarts(c, name);
    var w := DriverSteps(c.workflows[name]);
    Workflow.DriverStopsExactlyWhen(w);
    if limit: nat :| Workflow.StopsWithin(w, limit) { assert EndsWithin(c, name, limit); }
    if limit: nat :| EndsWithin(c, name, limit) { assert Workflow.StopsWithin(w, limit); }
  }

  /** Write, review, and a second review that may send the work back past the first. */
  function TwoReviews(n: string, x: string, y: string, z: string): seq<Step> {
    [Step(x, n, None, None, [], []), Step(y, n, Some(x), None, [], []), Step(z, n, Some(x), Some(2), [], [])]
  }

  function TwoReviewConfig(n: string, x: string, y: string, z: string): Config {
    var role := Role(n, [], [], [], []);
    Config({n}, map[n := Model(n, n)], map[n := role], {}, {}, map[n := TwoReviews(n, x, y, z)], n, [])
  }

  /** The configuration is accepted, the workflow starts, and no number of attempts is sure to end it. */
  ghost predicate NeedNeverEnd(c: Config, name: string) {
    && ValidConfig(c) && name in c.workflows && StartRun(c, name).Ok?
    && forall limit: nat :: !EndsWithin(c, name, limit)
  }

  /** Validation accepts workflows that need never end: this one, whatever the names. */
  lemma AcceptedWorkflowMayNeverEnd(n: string, x: string, y: string, z: string)
    requires ValidIdentifier(n) && ValidIdentifier(x) && ValidIdentifier(y) && ValidIdentifier(z) && Distinct([x, y, z])
    ensures NeedNeverEnd(TwoReviewConfig(n, x, y, z), n)
  {
    var c, steps := TwoReviewConfig(n, x, y, z), TwoReviews(n, x, y, z);
    assert c.workflows[n] == steps;
    TwoReviewsAreValid(n, x, y, z);
    AcceptedWorkflowEndsExactlyWhen(c, n);
    var w := DriverSteps(steps);
    assert steps[0].id == x;
    assert Position(steps, x) == Some(0);
    assert w[1].onFindings == Some(0) && w[2].onFindings == Some(0) && w[2].maxIterations == 2;
    assert !Workflow.NoResetInsideALoop(w);
  }

  /** One such configuration, spelt out: write, review, approve. */
  lemma OneWorkflowNeedNeverEnd()
    ensures NeedNeverEnd(TwoReviewConfig("f", "w", "r", "a"), "f")
  {
    ThereAreSuchNames();
    AcceptedWorkflowMayNeverEnd("f", "w", "r", "a");
  }

  lemma TwoReviewsAreValid(n: string, x: string, y: string, z: string)
    requires ValidIdentifier(n) && ValidIdentifier(x) && ValidIdentifier(y) && ValidIdentifier(z) && Distinct([x, y, z])
    ensures ValidConfig(TwoReviewConfig(n, x, y, z))
  {
    var c, steps := TwoReviewConfig(n, x, y, z), TwoReviews(n, x, y, z);
    assert Ids(steps) == [x, y, z];
    assert steps[0].id == x;
    assert forall i | 0 <= i < |steps| :: ValidStep(c, steps, steps[i]);
    assert ValidWorkflow(c, n, steps);
    assert ValidRole(c, n, c.roles[n]);
    IdentifierBytes(n);
    assert ValidModel(c, n, c.models[n]);
  }

  lemma IdentifierBytes(n: string)
    requires ValidIdentifier(n)
    ensures 1 <= Utf8Bytes(n) <= 255
  {
    assert Utf8Bytes(n) == Utf8Width(n[0]) + Utf8Bytes(n[1..]);
  }

  lemma ThereAreSuchNames()
    ensures ValidIdentifier("f") && ValidIdentifier("w") && ValidIdentifier("r") && ValidIdentifier("a")
    ensures Distinct(["w", "r", "a"])
  {
    assert Utf8Bytes("f"[1..]) == 0 && Utf8Bytes("w"[1..]) == 0 && Utf8Bytes("r"[1..]) == 0 && Utf8Bytes("a"[1..]) == 0;
    assert "w"[0] != "r"[0] && "w"[0] != "a"[0] && "r"[0] != "a"[0];
  }

  // ---- Resolving a role ----

  /** A catalog entry; `wellFormed` is the verdict of the entry's own validation. */
  datatype Entry = Entry(wellFormed: bool, available: bool, capabilities: set<Capability>)

  datatype Resolution =
    | Resolved(alias: string, provider: string, runtimeModel: string, usedFallback: bool)
    | InvalidRoleName | UnknownRole | BadCatalogEntry | CapabilityUnavailable
    | Panicked    // indexing a model that is not configured

  function Aliases(r: Role): seq<string> { [r.model] + r.fallbackModels }

  /** The alias's provider is in the catalog. */
  predicate Listed(c: Config, alias: string, catalog: map<string, Entry>) {
    alias in c.models && c.models[alias].provider in catalog
  }

  predicate Offers(entry: Entry, r: Role) {
    forall i | 0 <= i < |r.requiredCapabilities| :: r.requiredCapabilities[i] in entry.capabilities
  }

  predicate Usable(c: Config, r: Role, alias: string, catalog: map<string, Entry>) {
    && Listed(c, alias, catalog)
    && var entry := catalog[c.models[alias].provider];
       entry.available && Offers(entry, r)
  }

  /** Alias `k` ends the search: it is missing, its entry is malformed, or it is usable. */
  predicate Decisive(c: Config, r: Role, alias: string, catalog: map<string, Entry>) {
    || alias !in c.models
    || (Listed(c, alias, catalog) && (!catalog[c.models[alias].provider].wellFormed || Usable(c, r, alias, catalog)))
  }

  function Verdict(c: Config, r: Role, alias: string, catalog: map<string, Entry>, usedFallback: bool): Resolution
    requires Decisive(c, r, alias, catalog)
  {
    if alias !in c.models then Panicked
    else if !catalog[c.models[alias].provider].wellFormed then BadCatalogEntry
    else Resolved(alias, c.models[alias].provider, c.models[alias].runtimeModel, usedFallback)
  }

  /** Every alias a role of an accepted configuration can fall back to is a configured model. */
  lemma AliasesAreModels(c: Config, name: string)
    requires ValidConfig(c) && name in c.roles
    ensures forall i | 0 <= i < |Aliases(c.roles[name])| :: Aliases(c.roles[name])[i] in c.models
  {
    assert ValidRole(c, name, c.roles[name]);
  }

  method ResolveRole(c: Config, name: string, catalog: map<string, Entry>) returns (r: Resolution)
    ensures ValidConfig(c) ==> !r.Panicked?
    ensures !ValidIdentifier(name) ==> r == InvalidRoleName
    ensures ValidIdentifier(name) && name !in c.roles ==> r == UnknownRole
    ensures ValidIdentifier(name) && name in c.roles ==>
      var role := c.roles[name];
      var aliases := Aliases(role);
      if exists k | 0 <= k < |aliases| :: Decisive(c, role, aliases[k], catalog)
      then exists k | 0 <= k < |aliases| ::
             FirstDecisive(c, role, catalog, k) && r == Verdict(c, role, aliases[k], catalog, k > 0)
      else r == CapabilityUnavailable
  {
    if !ValidIdentifier(name) {
      return InvalidRoleName;
    }
    if name !in c.roles {
      return UnknownRole;
    }
    var role := c.roles[name];
    var aliases := Aliases(role);
    if ValidConfig(c) { AliasesAreModels(c, name); }
    for i := 0 to |aliases|
      invariant forall k | 0 <= k < i :: !Decisive(c, role, aliases[k], catalog)
    {
      var alias := aliases[i];
      if alias !in c.models {
        assert FirstDecisive(c, role, catalog, i);
        return Panicked;
      }
      var m := c.models[alias];
      if m.provider in catalog {
        var entry := catalog[m.provider];
        if !entry.wellFormed {
          assert FirstDecisive(c, role, catalog, i);
          return BadCatalogEntry;
        }
        if entry.available && Offers(entry, role) {
          assert FirstDecisive(c, role, catalog, i);
          return Resolved(alias, m.provider, m.runtimeModel, i > 0);
        }
      }
    }
    return CapabilityUnavailable;
  }

  predicate FirstDecisive(c: Config, role: Role, catalog: map<string, Entry>, k: nat) {
    && k < |Aliases(role)| && Decisive(c, role, Aliases(role)[k], catalog)
    && forall j | 0 <= j < k :: !Decisive(c, role, Aliases(role)[j], catalog)
  }

  /**
   * If the entries consulted up to `k` are well formed, the search stops at `k` exactly when it is the first
   * usable alias.
   */
  lemma FirstUsableAliasWins(c: Config, name: string, catalog: map<string, Entry>, k: nat)
    requires ValidConfig(c) && name in c.roles && k < |Aliases(c.roles[name])|
    requires forall j | 0 <= j <= k && Listed(c, Aliases(c.roles[name])[j], catalog) ::
      catalog[c.models[Aliases(c.roles[name])[j]].provider].wellFormed
    ensures FirstDecisive(c, c.roles[name], catalog, k) <==>
            Usable(c, c.roles[name], Aliases(c.roles[name])[k], catalog) &&
            forall j | 0 <= j < k :: !Usable(c, c.roles[name], Aliases(c.roles[name])[j], catalog)
  {
    AliasesAreModels(c, name);
  }
}
