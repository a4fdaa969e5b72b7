/** External attempts: their durable progress, crash recovery and human reconciliation. */
module Attempts {
  import opened Base

  datatype Policy = Policy(effectClass: EffectClass, explicitlyIdempotent: bool, materialCost: bool)
  {
    predicate Valid() {
      !(explicitlyIdempotent &&
        (effectClass.PaidInference? || effectClass.NonIdempotentWrite? || effectClass.Production? ||
            effectClass.Credential?))
    }
  }

  datatype Progress = Planned | Started | Acknowledged | Completed | Failed | OutcomeUnknown | Abandoned

  /** A fixed climb: no progress is ever followed by one of the same or a lower rank. */
  function Rank(p: Progress): nat {
    match p
    case Planned => 0
    case Started => 1
    case Acknowledged => 2
    case OutcomeUnknown => 3
    case _ => 4
  }

  datatype Mark = MarkStarted | MarkAcknowledged | MarkCompleted | MarkFailed | MarkOutcomeUnknown

  /** The progress after a mark; None for `invalid_transition`. */
  function Marked(p: Progress, mark: Mark): Option<Progress> {
    match mark
    case MarkStarted => if p.Planned? then Some(Started) else None
    case MarkAcknowledged => if p.Started? then Some(Acknowledged) else None
    case MarkCompleted => if p.Started? || p.Acknowledged? then Some(Completed) else None
    case MarkFailed => if p.Planned? || p.Started? || p.Acknowledged? then Some(Failed) else None
    case MarkOutcomeUnknown => if p.Started? || p.Acknowledged? then Some(OutcomeUnknown) else None
  }

  function Recovered(p: Progress): Progress {
    if p.Started? || p.Acknowledged? then OutcomeUnknown else p
  }

  /** What a resolution leaves of an uncertain attempt: a retry does not settle it. */
  function Settled(resolution: Resolution): Progress {
    match resolution
    case Retry => OutcomeUnknown
    case AcceptResult => Completed
    case Abandon => Abandoned
  }

  class Attempt {
    const id: AttemptId
    const operation: string
    const policy: Policy
    var progress: Progress
    var predecessor: Option<AttemptId>

    constructor (id: AttemptId, operation: string, policy: Policy)
      ensures this.id == id && this.operation == operation && this.policy == policy
      ensures progress == Planned && predecessor == None
    {
      this.id, this.operation, this.policy := id, operation, policy;
      progress, predecessor := Planned, None;
    }

    method Apply(mark: Mark) returns (ok: bool)
      modifies this`progress
      ensures ok == Marked(old(progress), mark).Some?
      ensures progress == if ok then Marked(old(progress), mark).value else old(progress)
    {
      match mark {
        case MarkStarted => ok := Advance(Planned, Started);
        case MarkAcknowledged => ok := Advance(Started, Acknowledged);
        case MarkCompleted =>
          ok := progress.Started? || progress.Acknowledged?;
          if ok { progress := Completed; }
        case MarkFailed =>
          ok := progress.Planned? || progress.Started? || progress.Acknowledged?;
          if ok { progress := Failed; }
        case MarkOutcomeUnknown =>
          ok := progress.Started? || progress.Acknowledged?;
          if ok { progress := OutcomeUnknown; }
      }
    }

    method Advance(expected: Progress, next: Progress) returns (ok: bool)
      modifies this`progress
      ensures ok == (old(progress) == expected) && progress == if ok then next else old(progress)
    {
      ok := progress == expected;
      if ok {
        progress := next;
      }
    }

    method Recover()
      modifies this`progress
      ensures progress == Recovered(old(progress))
    {
      if progress.Started? || progress.Acknowledged? {
        progress := OutcomeUnknown;
      }
    }

    /**
     * `reconcile`: refused unless the outcome is unknown; a retry is planned anew, so an attempt that could not
     * be planned is refused it. A retry yields a fresh planned attempt linked to this one.
     */
    method Reconcile(resolution: Resolution, newId: AttemptId) returns (r: Result<Option<Attempt>, ()>)
      modifies this`progress
      ensures r.Err? <==> !old(progress).OutcomeUnknown? || (resolution.Retry? && !MayPlan(operation, policy))
      ensures progress == if r.Ok? then Settled(resolution) else old(progress)
      ensures r.Ok? ==> (r.value.Some? <==> resolution.Retry?)
      ensures r.Ok? && resolution.Retry? ==>
        var a := r.value.value;
        a.id == newId && a.operation == operation && a.policy == policy && a.progress == Planned &&
            a.predecessor == Some(id)
    {
      if !progress.OutcomeUnknown? {
        return Err(());
      }
      match resolution {
        case Retry =>
          var planned := PlanAttempt(newId, operation, policy);
          if planned.Err? {
            return Err(());
          }
          planned.value.predecessor := Some(id);
          return Ok(Some(planned.value));
        case AcceptResult =>
          progress := Completed;
          return Ok(None);
        case Abandon =>
          progress := Abandoned;
          return Ok(None);
      }
    }
  }

  predicate MayPlan(operation: string, policy: Policy) { operation != "" && policy.Valid() }

  /** `Attempt::plan`: refuses an unsafe policy and an empty operation. */
  method PlanAttempt(id: AttemptId, operation: string, policy: Policy) returns (r: Result<Attempt, ()>)
    ensures r.Ok? <==> MayPlan(operation, policy)
    ensures r.Ok? ==> fresh(r.value) && r.value.progress == Planned && r.value.predecessor == None
    ensures r.Ok? ==> r.value.id == id && r.value.operation == operation && r.value.policy == policy
  {
    if !policy.Valid() || operation == "" {
      return Err(());
    }
    var attempt := new Attempt(id, operation, policy);
    return Ok(attempt);
  }

  // ---- The pool of all attempts of a deployment ----

  datatype Record = Record(operation: string, policy: Policy, progress: Progress, predecessor: Option<AttemptId>,
                           birth: nat)

  type Records = map<AttemptId, Record>

  /** Every attempt ever planned; `clock` dates births. */
  datatype Pool = Pool(records: Records, clock: nat)

  datatype Action =
    | Plan(id: AttemptId, operation: string, policy: Policy)
    | Apply(id: AttemptId, mark: Mark)
    | Crash                                  // every attempt goes through `recover`
    | Reconcile(id: AttemptId, resolution: Resolution, newId: AttemptId)

  function Born(pool: Pool, id: AttemptId, operation: string, policy: Policy, predecessor: Option<AttemptId>): Pool {
    Pool(pool.records[id := Record(operation, policy, Planned, predecessor, pool.clock)], pool.clock + 1)
  }

  function Moved(pool: Pool, id: AttemptId, progress: Progress): Pool
    requires id in pool.records
  {
    pool.(records := pool.records[id := pool.records[id].(progress := progress)])
  }

  function Step(pool: Pool, a: Action): Pool {
    var records := pool.records;
    match a
    case Plan(id, operation, policy) =>
      if id in records || !MayPlan(operation, policy) then pool else Born(pool, id, operation, policy, None)
    case Apply(id, mark) =>
      if id !in records || Marked(records[id].progress, mark).None? then pool
      else Moved(pool, id, Marked(records[id].progress, mark).value)
    case Crash =>
      pool.(records := map id | id in records :: records[id].(progress := Recovered(records[id].progress)))
    case Reconcile(id, resolution, newId) =>
      if id !in records || !records[id].progress.OutcomeUnknown? then pool
      else if !resolution.Retry? then Moved(pool, id, Settled(resolution))
      else if newId in records || !MayPlan(records[id].operation, records[id].policy) then pool
      else Born(pool, newId, records[id].operation, records[id].policy, Some(id))
  }

  /** The pool after the first `n` actions. */
  function After(actions: seq<Action>, n: nat): Pool
    requires n <= |actions|
  {
    if n == 0 then Pool(map[], 0) else Step(After(actions, n - 1), actions[n - 1])
  }

  /** A retried attempt is uncertain, or was settled by a human; it is never dispatchable. */
  predicate Retried(p: Progress) { p.OutcomeUnknown? || p.Completed? || p.Abandoned? }

  ghost predicate Linked(records: Records, r: Record) {
    r.predecessor.Some? ==>
      var q := r.predecessor.value;
      && q in records && records[q].birth < r.birth && Retried(records[q].progress)
      && records[q].operation == r.operation && records[q].policy == r.policy
  }

  ghost predicate Inv(pool: Pool) {
    forall id | id in pool.records ::
      && pool.records[id].birth < pool.clock
      && MayPlan(pool.records[id].operation, pool.records[id].policy)
      && Linked(pool.records, pool.records[id])
  }

  lemma BornKeeps(pool: Pool, id: AttemptId, operation: string, policy: Policy, predecessor: Option<AttemptId>)
    requires Inv(pool) && id !in pool.records && MayPlan(operation, policy)
    requires Linked(pool.records, Record(operation, policy, Planned, predecessor, pool.clock))
    ensures Inv(Born(pool, id, operation, policy, predecessor))
  {}

  lemma MovedKeeps(pool: Pool, id: AttemptId, progress: Progress)
    requires Inv(pool) && id in pool.records && (Retried(pool.records[id].progress) ==> Retried(progress))
    ensures Inv(Moved(pool, id, progress))
  {}

  lemma StepKeeps(pool: Pool, a: Action)
    requires Inv(pool)
    ensures Inv(Step(pool, a))
  {
    var records := pool.records;
    match a
    case Plan(id, operation, policy) =>
      if id !in records && MayPlan(operation, policy) { BornKeeps(pool, id, operation, policy, None); }
    case Apply(id, mark) =>
      if id in records && Marked(records[id].progress, mark).Some? {
        MovedKeeps(pool, id, Marked(records[id].progress, mark).value);
      }
    case Crash =>
    case Reconcile(id, resolution, newId) =>
      if id in records && records[id].progress.OutcomeUnknown? {
        if !resolution.Retry? {
          MovedKeeps(pool, id, Settled(resolution));
        } else if newId !in records {
          BornKeeps(pool, newId, records[id].operation, records[id].policy, Some(id));
        }
      }
  }

  lemma {:induction false} RunKeeps(actions: seq<Action>, n: nat)
    requires n <= |actions|
    ensures Inv(After(actions, n))
    decreases n
  {
    if n > 0 {
      RunKeeps(actions, n - 1);
      StepKeeps(After(actions, n - 1), actions[n - 1]);
    }
  }

  /** The same attempt later: nothing about it changed, or its progress climbed. */
  predicate Climbed(before: Record, after: Record) {
    after.(progress := before.progress) == before && (after == before || Rank(before.progress) < Rank(after.progress))
  }

  lemma StepClimbs(pool: Pool, a: Action, id: AttemptId)
    requires id in pool.records
    ensures id in Step(pool, a).records && Climbed(pool.records[id], Step(pool, a).records[id])
  {}

  /** Over every run no attempt is lost or altered, and its progress strictly climbs whenever it changes. */
  lemma {:induction false} ProgressClimbs(actions: seq<Action>, i: nat, j: nat, id: AttemptId)
    requires i <= j <= |actions| && id in After(actions, i).records
    ensures id in After(actions, j).records && Climbed(After(actions, i).records[id], After(actions, j).records[id])
    decreases j
  {
    if i < j {
      ProgressClimbs(actions, i, j - 1, id);
      StepClimbs(After(actions, j - 1), actions[j - 1], id);
    }
  }

  predicate StartsAt(actions: seq<Action>, i: nat, id: AttemptId)
    requires i < |actions|
  {
    var before, after := After(actions, i).records, After(actions, i + 1).records;
    id in before && before[id].progress.Planned? && id in after && after[id].progress.Started?
  }

  /** An attempt is dispatched at most once in any run, crashes and reconciliations included. */
  lemma StartsOnce(actions: seq<Action>, i: nat, j: nat, id: AttemptId)
    requires i <= j < |actions| && StartsAt(actions, i, id) && StartsAt(actions, j, id)
    ensures i == j
  {
    if i < j { ProgressClimbs(actions, i + 1, j, id); }
  }

  /** Follow the predecessor link `k` times. */
  function Ancestor(records: Records, id: AttemptId, k: nat): Option<AttemptId>
    decreases k
  {
    if id !in records then None
    else if k == 0 then Some(id)
    else if records[id].predecessor.None? then None
    else Ancestor(records, records[id].predecessor.value, k - 1)
  }

  /**
   * Retry chains: after every run an ancestor is another, older attempt with the same operation and
   * policy, and it is uncertain, completed or abandoned - never freshly dispatchable.
   */
  lemma {:induction false} RetryChains(actions: seq<Action>, id: AttemptId, k: nat)
    requires k > 0 && Ancestor(After(actions, |actions|).records, id, k).Some?
    ensures
      var records := After(actions, |actions|).records;
      var a := Ancestor(records, id, k).value;
      && a in records && a != id && records[a].birth < records[id].birth && Retried(records[a].progress)
      && records[a].operation == records[id].operation && records[a].policy == records[id].policy
    decreases k
  {
    RunKeeps(actions, |actions|);
    var records := After(actions, |actions|).records;
    assert Linked(records, records[id]);
    if k > 1 { RetryChains(actions, records[id].predecessor.value, k - 1); }
  }

  /** A retry does not settle its predecessor: it can be retried again and accepted beside its own retries. */
  lemma RetriesMayFork(pool: Pool, id: AttemptId, a: AttemptId, b: AttemptId)
    requires Inv(pool) && id in pool.records && pool.records[id].progress.OutcomeUnknown?
    requires a !in pool.records && b !in pool.records && a != b
    ensures
      var end := Step(Step(Step(pool, Reconcile(id, Retry, a)), Reconcile(id, Retry, b)),
          Reconcile(id, AcceptResult, 0)).records;
      && a in end && b in end && id in end && end[id].progress == Completed
      && end[a].predecessor == Some(id) && end[b].predecessor == Some(id) &&
          end[a].progress == end[b].progress == Planned
  {
    assert MayPlan(pool.records[id].operation, pool.records[id].policy);
  }
}
