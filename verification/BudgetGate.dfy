/** The budget gate of one session on top of the ledger: attempts, late or failing writes, and restarts. */
module BudgetGate {
  import opened Base
  import opened Budget

  datatype CostPolicy = CostPolicy(maxSession: nat, maxAttempt: Option<nat>)

  datatype Verdict = Allow(estimate: nat) | DenySession | DenyAttempt

  /** `evaluate_budget` for a session that has spent `spend`. */
  function Evaluate(policy: CostPolicy, spend: nat, estimate: nat): Verdict {
    if policy.maxAttempt.Some? && estimate > policy.maxAttempt.value then DenyAttempt
    else if Saturated(spend + estimate) > policy.maxSession then DenySession
    else Allow(estimate)
  }

  /** The session watched, its policy, and how many of its attempts may be open at a time. */
  datatype Setting = Setting(policy: CostPolicy, session: SessionId, limit: nat)

  /**
   * `open` are the true costs of the attempts that were let through and have not ended. Histories, over all
   * lifetimes: `admitted` is the true cost of every attempt let through, `recorded` what the ledger was told of
   * it, `unbilled` the cost of attempts that ended without being recorded or were open at a crash, and `lost`
   * what restarts forgot of `recorded`.
   */
  datatype Deployment =
    Deployment(ledger: State, open: seq<nat>, admitted: nat, recorded: nat, unbilled: nat, lost: nat)

  const START := Deployment(Initial(), [], 0, 0, 0, 0)

  datatype Event =
    | Admit(estimate: nat, actual: nat)
    | Settle(i: nat)                          // attempt `i` completed: its true cost is recorded
    | Drop(i: nat)                            // attempt `i` ended without a completion: nothing is recorded
    | Written(call: nat, ok: bool)            // the store half of a recording, at any later time
    | Other(session: SessionId, amount: nat)  // another session records
    | Crash                                   // the process dies and reads its rows back

  /** What the session spent by the ledger's own account, before saturation. */
  function Live(st: State, s: SessionId): nat { Spend(st.base, s) + Sum(st.log, s) }

  function Removed(open: seq<nat>, i: nat): seq<nat>
    requires i < |open|
  {
    open[..i] + open[i + 1..]
  }

  function Total(open: seq<nat>): nat { if open == [] then 0 else Total(open[..|open| - 1]) + open[|open| - 1] }

  function After(g: Setting, d: Deployment, e: Event): Deployment {
    var s, st := g.session, d.ledger;
    match e
    case Admit(estimate, actual) =>
      if |d.open| < g.limit && Evaluate(g.policy, Spend(st.memory, s), estimate).Allow? then
        d.(open := d.open + [actual], admitted := d.admitted + actual)
      else d
    case Settle(i) =>
      if i >= |d.open| then d
      else
        d.(ledger := Step(st, Add(s, d.open[i])), open := Removed(d.open, i), recorded := d.recorded + d.open[i])
    case Drop(i) =>
      if i < |d.open| then d.(open := Removed(d.open, i), unbilled := d.unbilled + d.open[i]) else d
    case Written(call, ok) => d.(ledger := Step(st, Persist(call, ok)))
    case Other(t, amount) => if t == s then d else d.(ledger := Step(st, Add(t, amount)))
    case Crash =>
      var lost := if Live(st, s) > Spend(st.rows, s) then Live(st, s) - Spend(st.rows, s) else 0;
      d.(ledger := Step(st, Restart), open := [], unbilled := d.unbilled + Total(d.open), lost := d.lost + lost)
  }

  /** Event `i` leads from state `i` of the run to the next. */
  predicate Leads(g: Setting, events: seq<Event>, run: seq<Deployment>, i: nat)
    requires i < |events| && |run| == |events| + 1
  {
    run[i + 1] == After(g, run[i], events[i])
  }

  /** `run` are the states from the start through all the events. */
  ghost predicate Runs(g: Setting, events: seq<Event>, run: seq<Deployment>) {
    |run| == |events| + 1 && run[0] == START && forall i | 0 <= i < |events| :: Leads(g, events, run, i)
  }

  /** Every sequence of events has a run. */
  lemma {:induction false} EveryEventsRun(g: Setting, events: seq<Event>) returns (run: seq<Deployment>)
    ensures Runs(g, events, run)
  {
    if events == [] {
      run := [START];
    } else {
      var n := |events| - 1;
      var earlier := EveryEventsRun(g, events[..n]);
      run := earlier + [After(g, earlier[n], events[n])];
      forall i | 0 <= i < |events| ensures Leads(g, events, run, i) {
        if i < n { assert Leads(g, events[..n], earlier, i); }
      }
    }
  }

  // ---- The ledger below ----

  lemma LedgerStep(g: Setting, d: Deployment, e: Event)
    requires Inv(d.ledger)
    ensures Inv(After(g, d, e).ledger)
  {
    match e
    case Admit(_, _) =>
    case Settle(i) => if i < |d.open| { StepKeeps(d.ledger, Add(g.session, d.open[i])); }
    case Drop(_) =>
    case Written(call, ok) => StepKeeps(d.ledger, Persist(call, ok));
    case Other(t, amount) => StepKeeps(d.ledger, Add(t, amount));
    case Crash => StepKeeps(d.ledger, Restart);
  }

  lemma {:induction false} LedgerKeeps(g: Setting, events: seq<Event>, run: seq<Deployment>, n: nat)
    requires Runs(g, events, run) && n <= |events|
    ensures Inv(run[n].ledger)
    decreases n
  {
    if n == 0 {
      RunKeeps([]);
    } else {
      LedgerKeeps(g, events, run, n - 1);
      assert Leads(g, events, run, n - 1);
      LedgerStep(g, run[n - 1], events[n - 1]);
    }
  }

  lemma SumOfMore(log: seq<(SessionId, nat)>, t: SessionId, amount: nat, s: SessionId)
    ensures Sum(log + [(t, amount)], s) == Sum(log, s) + if t == s then amount else 0
  {
    assert (log + [(t, amount)])[..|log|] == log;
  }

  lemma LiveAfterAdd(st: State, t: SessionId, amount: nat, s: SessionId)
    ensures Live(Step(st, Add(t, amount)), s) == Live(st, s) + if t == s then amount else 0
  {
    SumOfMore(st.log, t, amount, s);
  }

  lemma LiveAfterRestart(st: State, s: SessionId)
    requires Inv(st)
    ensures Live(Step(st, Restart), s) == Spend(st.rows, s) <= Spend(st.memory, s) <= Live(st, s)
  {
    assert Sum([], s) == 0;
    assert Spend(st.memory, s) == Saturated(Live(st, s));
  }

  // ---- The ceiling ----

  lemma {:induction false} TotalWithout(open: seq<nat>, i: nat)
    requires i < |open|
    ensures Total(Removed(open, i)) + open[i] == Total(open)
  {
    var n := |open| - 1;
    if i == n {
      assert Removed(open, i) == open[..n];
    } else {
      TotalWithout(open[..n], i);
      assert Removed(open, i)[..n - 1] == Removed(open[..n], i);
    }
  }

  lemma {:induction false} TotalIsBounded(open: seq<nat>, cost: nat, limit: nat)
    requires |open| <= limit && forall i | 0 <= i < |open| :: open[i] <= cost
    ensures Total(open) <= Times(limit, cost)
  {
    if open != [] {
      TotalIsBounded(open[..|open| - 1], cost, limit - 1);
    }
  }

  /** The attempt's true cost is at most `cost` and at most `overrun` above its estimate. */
  predicate PricedEvent(e: Event, cost: nat, overrun: nat) {
    e.Admit? ==> e.actual <= cost && e.actual <= e.estimate + overrun
  }

  predicate Priced(events: seq<Event>, cost: nat, overrun: nat) {
    forall i | 0 <= i < |events| :: PricedEvent(events[i], cost, overrun)
  }

  /** How far the session may get. */
  function Bound(g: Setting, cost: nat, overrun: nat): nat
    requires g.limit > 0
  {
    g.policy.maxSession + overrun + Times(g.limit - 1, cost)
  }

  ghost predicate OpenOk(g: Setting, cost: nat, open: seq<nat>) {
    |open| <= g.limit && forall i | 0 <= i < |open| :: open[i] <= cost
  }

  ghost predicate Bounded(g: Setting, cost: nat, overrun: nat, d: Deployment)
    requires g.limit > 0
  {
    && OpenOk(g, cost, d.open) && d.recorded == d.lost + Live(d.ledger, g.session)
    && d.admitted == d.recorded + Total(d.open) + d.unbilled
    && (g.policy.maxSession < U64_MAX ==> Live(d.ledger, g.session) + Total(d.open) <= Bound(g, cost, overrun))
  }

  lemma TotalOfMore(open: seq<nat>, cost: nat)
    ensures Total(open + [cost]) == Total(open) + cost
  {
    assert (open + [cost])[..|open|] == open;
  }

  lemma AdmitKeeps(g: Setting, cost: nat, overrun: nat, d: Deployment, e: Event)
    requires g.limit > 0 && Inv(d.ledger) && Bounded(g, cost, overrun, d) && e.Admit? && PricedEvent(e, cost, overrun)
    ensures Bounded(g, cost, overrun, After(g, d, e))
  {
    if |d.open| < g.limit && Evaluate(g.policy, Spend(d.ledger.memory, g.session), e.estimate).Allow? {
      TotalIsBounded(d.open, cost, g.limit - 1);
      TotalOfMore(d.open, e.actual);
      SpendForOne(d.ledger.memory, d.ledger.base, d.ledger.log, g.session);
    }
  }

  lemma StillOpen(g: Setting, cost: nat, open: seq<nat>, i: nat)
    requires OpenOk(g, cost, open) && i < |open|
    ensures OpenOk(g, cost, Removed(open, i)) && Total(Removed(open, i)) + open[i] == Total(open)
  {
    TotalWithout(open, i);
    StillCheap(open, cost, i);
  }

  lemma StillCheap(open: seq<nat>, cost: nat, i: nat)
    requires i < |open| && forall k | 0 <= k < |open| :: open[k] <= cost
    ensures var rest := Removed(open, i); |rest| == |open| - 1 && forall k | 0 <= k < |rest| :: rest[k] <= cost
  {
    var rest := Removed(open, i);
    forall k | 0 <= k < |rest| ensures rest[k] <= cost {
      assert rest[k] == if k < i then open[k] else open[k + 1];
    }
  }

  lemma SettleKeeps(g: Setting, cost: nat, overrun: nat, d: Deployment, i: nat)
    requires g.limit > 0 && Bounded(g, cost, overrun, d)
    ensures Bounded(g, cost, overrun, After(g, d, Settle(i)))
  {
    if i < |d.open| {
      StillOpen(g, cost, d.open, i);
      LiveAfterAdd(d.ledger, g.session, d.open[i], g.session);
    }
  }

  lemma DropKeeps(g: Setting, cost: nat, overrun: nat, d: Deployment, i: nat)
    requires g.limit > 0 && Bounded(g, cost, overrun, d)
    ensures Bounded(g, cost, overrun, After(g, d, Drop(i)))
  {
    if i < |d.open| { StillOpen(g, cost, d.open, i); }
  }

  lemma StoreKeeps(g: Setting, cost: nat, overrun: nat, d: Deployment, e: Event)
    requires g.limit > 0 && Inv(d.ledger) && Bounded(g, cost, overrun, d) && (e.Written? || e.Other? || e.Crash?)
    ensures Bounded(g, cost, overrun, After(g, d, e))
  {
    if e.Other? { LiveAfterAdd(d.ledger, e.session, e.amount, g.session); }
    if e.Crash? { LiveAfterRestart(d.ledger, g.session); }
  }

  lemma StepIsBounded(g: Setting, cost: nat, overrun: nat, d: Deployment, e: Event)
    requires g.limit > 0 && Inv(d.ledger) && Bounded(g, cost, overrun, d) && PricedEvent(e, cost, overrun)
    ensures Bounded(g, cost, overrun, After(g, d, e))
  {
    if e.Admit? {
      AdmitKeeps(g, cost, overrun, d, e);
    } else if e.Settle? {
      SettleKeeps(g, cost, overrun, d, e.i);
    } else if e.Drop? {
      DropKeeps(g, cost, overrun, d, e.i);
    } else {
      StoreKeeps(g, cost, overrun, d, e);
    }
  }

  lemma StartIsBounded(g: Setting, cost: nat, overrun: nat)
    requires g.limit > 0
    ensures Bounded(g, cost, overrun, START)
  {}

  lemma {:induction false} RunIsBounded(g: Setting, cost: nat, overrun: nat, events: seq<Event>,
                                        run: seq<Deployment>, n: nat)
    requires g.limit > 0 && Priced(events, cost, overrun) && Runs(g, events, run) && n <= |events|
    ensures Bounded(g, cost, overrun, run[n])
    decreases n
  {
    if n == 0 {
      StartIsBounded(g, cost, overrun);
    } else {
      RunIsBounded(g, cost, overrun, events, run, n - 1);
      LedgerKeeps(g, events, run, n - 1);
      assert Leads(g, events, run, n - 1);
      StepIsBounded(g, cost, overrun, run[n - 1], events[n - 1]);
    }
  }

  /**
   * At every moment of every interleaving, with late and failing writes and any number of restarts, the session's
   * spend passes the ceiling by at most the largest overrun plus the full cost of every further attempt that may be
   * open at once; all that was ever recorded passes it by at most that and what restarts lost; and the true cost of
   * all attempts ever let through by at most that, what restarts lost and what was never billed.
   */
  lemma SpendIsBounded(g: Setting, cost: nat, overrun: nat, events: seq<Event>, run: seq<Deployment>, n: nat)
    requires g.limit > 0 && Priced(events, cost, overrun) && Runs(g, events, run) && n <= |events|
    ensures
      var d := run[n];
      && Spend(d.ledger.memory, g.session) <= Bound(g, cost, overrun)
      && (g.policy.maxSession < U64_MAX ==> d.recorded <= Bound(g, cost, overrun) + d.lost)
      && (g.policy.maxSession < U64_MAX ==> d.admitted <= Bound(g, cost, overrun) + d.lost + d.unbilled)
  {
    RunIsBounded(g, cost, overrun, events, run, n);
    LedgerKeeps(g, events, run, n);
    var st := run[n].ledger;
    SpendForOne(st.memory, st.base, st.log, g.session);
  }

  /** One attempt at a time: only the overrun, and what restarts lost or left unbilled, remain. */
  lemma SequentialSpendIsBounded(g: Setting, cost: nat, overrun: nat, events: seq<Event>, run: seq<Deployment>, n: nat)
    requires g.limit == 1 && Priced(events, cost, overrun) && Runs(g, events, run) && n <= |events|
    ensures
      var d := run[n];
      && Spend(d.ledger.memory, g.session) <= g.policy.maxSession + overrun
      && (g.policy.maxSession < U64_MAX ==> d.recorded <= g.policy.maxSession + overrun + d.lost)
      && (g.policy.maxSession < U64_MAX ==> d.admitted <= g.policy.maxSession + overrun + d.lost + d.unbilled)
  {
    SpendIsBounded(g, cost, overrun, events, run, n);
    assert Times(0, cost) == 0;
  }

  // ---- The bound is reached, whatever the limit ----

  /** `limit` attempts are let through, then all are settled. */
  function Burst(g: Setting, cost: nat): seq<Event> {
    var admit := Admit(g.policy.maxSession, cost);
    seq(2 * g.limit, i requires 0 <= i < 2 * g.limit => if i < g.limit then admit else Settle(0))
  }

  function Copies(cost: nat, n: nat): seq<nat> { seq(n, i requires 0 <= i < n => cost) }

  lemma AdmitOne(g: Setting, d: Deployment, cost: nat, n: nat)
    requires g.policy.maxAttempt.None? && n < g.limit && g.policy.maxSession <= U64_MAX
    requires d.ledger == Initial() && d.open == Copies(cost, n)
    ensures
      var next := After(g, d, Admit(g.policy.maxSession, cost));
      next.ledger == Initial() && next.open == Copies(cost, n + 1)
  {
    assert Copies(cost, n) + [cost] == Copies(cost, n + 1);
  }

  lemma {:induction false} AllAdmitted(g: Setting, cost: nat, run: seq<Deployment>, n: nat)
    requires g.policy.maxAttempt.None? && n <= g.limit && g.policy.maxSession <= U64_MAX
    requires Runs(g, Burst(g, cost), run)
    ensures run[n].ledger == Initial() && run[n].open == Copies(cost, n)
    decreases n
  {
    if n > 0 {
      AllAdmitted(g, cost, run, n - 1);
      assert Leads(g, Burst(g, cost), run, n - 1);
      AdmitOne(g, run[n - 1], cost, n - 1);
    }
  }

  lemma SettleOne(g: Setting, d: Deployment, cost: nat, n: nat)
    requires d.open == Copies(cost, n) && n > 0 && cost > 0 && Spend(d.ledger.memory, g.session) + cost <= U64_MAX
    ensures
      var next := After(g, d, Settle(0));
      && next.open == Copies(cost, n - 1)
      && Spend(next.ledger.memory, g.session) == Spend(d.ledger.memory, g.session) + cost
  {
    assert Removed(Copies(cost, n), 0) == Copies(cost, n - 1);
  }

  lemma {:induction false} AllSettled(g: Setting, cost: nat, run: seq<Deployment>, k: nat)
    requires g.policy.maxAttempt.None? && g.policy.maxSession <= U64_MAX && k <= g.limit && cost > 0
    requires Times(g.limit, cost) <= U64_MAX && Runs(g, Burst(g, cost), run)
    ensures
      var d := run[g.limit + k];
      d.open == Copies(cost, g.limit - k) && Spend(d.ledger.memory, g.session) == Times(k, cost)
    decreases k
  {
    if k == 0 {
      AllAdmitted(g, cost, run, g.limit);
    } else {
      AllSettled(g, cost, run, k - 1);
      TimesGrows(k, g.limit, cost);
      assert Leads(g, Burst(g, cost), run, g.limit + k - 1);
      SettleOne(g, run[g.limit + k - 1], cost, g.limit - k + 1);
    }
  }

  /** Attempts that are all let through first, each over its estimate, reach the bound exactly, for every limit. */
  lemma BoundIsTight(g: Setting, overrun: nat) returns (run: seq<Deployment>)
    requires g.limit > 0 && g.policy.maxAttempt.None? && 0 < g.policy.maxSession
    requires Bound(g, g.policy.maxSession + overrun, overrun) <= U64_MAX
    ensures
      var cost := g.policy.maxSession + overrun;
      && Priced(Burst(g, cost), cost, overrun) && Runs(g, Burst(g, cost), run)
      && Spend(run[2 * g.limit].ledger.memory, g.session) == Bound(g, cost, overrun)
  {
    var cost := g.policy.maxSession + overrun;
    run := EveryEventsRun(g, Burst(g, cost));
    assert Times(g.limit, cost) == Bound(g, cost, overrun);
    AllSettled(g, cost, run, g.limit);
  }

  // ---- Denials ----

  predicate Denies(g: Setting, spend: nat, estimate: nat) { Evaluate(g.policy, spend, estimate).DenySession? }

  predicate DeniedIn(g: Setting, d: Deployment, estimate: nat) {
    Denies(g, Spend(d.ledger.memory, g.session), estimate)
  }

  /** If the event is a restart, the row it reads still denies the estimate. */
  predicate RowDenies(g: Setting, d: Deployment, e: Event, estimate: nat) {
    e.Crash? ==> Denies(g, Spend(d.ledger.rows, g.session), estimate)
  }

  lemma CrashReads(g: Setting, d: Deployment)
    ensures Spend(After(g, d, Crash).ledger.memory, g.session) == Spend(d.ledger.rows, g.session)
  {}

  lemma SpendGrows(g: Setting, d: Deployment, e: Event)
    requires Inv(d.ledger) && !e.Crash?
    ensures Spend(d.ledger.memory, g.session) <= Spend(After(g, d, e).ledger.memory, g.session)
  {
    SpendForOne(d.ledger.memory, d.ledger.base, d.ledger.log, g.session);
  }

  lemma MoreIsDenied(g: Setting, spend: nat, more: nat, estimate: nat)
    requires Denies(g, spend, estimate) && spend <= more
    ensures Denies(g, more, estimate)
  {}

  /** One event: a denial is forgotten exactly by a restart whose row would allow the estimate. */
  lemma DenialSurvivesExactlyWhen(g: Setting, events: seq<Event>, run: seq<Deployment>, n: nat, estimate: nat)
    requires Runs(g, events, run) && n < |events| && DeniedIn(g, run[n], estimate)
    ensures DeniedIn(g, run[n + 1], estimate) <==> RowDenies(g, run[n], events[n], estimate)
  {
    var d, e := run[n], events[n];
    LedgerKeeps(g, events, run, n);
    assert Leads(g, events, run, n);
    if e.Crash? {
      CrashReads(g, d);
    } else {
      SpendGrows(g, d, e);
      MoreIsDenied(g, Spend(d.ledger.memory, g.session), Spend(After(g, d, e).ledger.memory, g.session), estimate);
    }
  }

  /** Over every run: a denied estimate stays denied throughout if and only if every restart's row still denies it. */
  lemma DenialsPersistExactlyWhen(g: Setting, events: seq<Event>, run: seq<Deployment>, i: nat, estimate: nat)
    requires Runs(g, events, run) && i <= |events| && DeniedIn(g, run[i], estimate)
    ensures (forall j | i <= j <= |events| :: DeniedIn(g, run[j], estimate)) <==>
            (forall n | i <= n < |events| :: RowDenies(g, run[n], events[n], estimate))
  {
    if forall n | i <= n < |events| :: RowDenies(g, run[n], events[n], estimate) {
      forall j | i <= j <= |events| ensures DeniedIn(g, run[j], estimate) {
        StaysDenied(g, events, run, i, j, estimate);
      }
    }
    if forall j | i <= j <= |events| :: DeniedIn(g, run[j], estimate) {
      forall n | i <= n < |events| ensures RowDenies(g, run[n], events[n], estimate) {
        assert DeniedIn(g, run[n], estimate) && DeniedIn(g, run[n + 1], estimate);
        DenialSurvivesExactlyWhen(g, events, run, n, estimate);
      }
    }
  }

  lemma {:induction false} StaysDenied(g: Setting, events: seq<Event>, run: seq<Deployment>, i: nat, j: nat,
                                       estimate: nat)
    requires Runs(g, events, run) && i <= j <= |events| && DeniedIn(g, run[i], estimate)
    requires forall n | i <= n < |events| :: RowDenies(g, run[n], events[n], estimate)
    ensures DeniedIn(g, run[j], estimate)
    decreases j
  {
    if i < j {
      StaysDenied(g, events, run, i, j - 1, estimate);
      assert RowDenies(g, run[j - 1], events[j - 1], estimate);
      DenialSurvivesExactlyWhen(g, events, run, j - 1, estimate);
    }
  }

  /** A restart that loses nothing of the session keeps every denial. */
  lemma LosslessRestartsKeepDenials(g: Setting, events: seq<Event>, run: seq<Deployment>, n: nat, estimate: nat)
    requires Runs(g, events, run) && n < |events| && DeniedIn(g, run[n], estimate)
    requires
      var st := run[n].ledger;
      Spend(st.memory, g.session) == 0 || RowIsLatest(st, g.session) || Spend(st.rows, g.session) == U64_MAX
    ensures DeniedIn(g, run[n + 1], estimate)
  {
    LedgerKeeps(g, events, run, n);
    var st := run[n].ledger;
    RowForOne(st.memory, st.last, st.rows, st.wrote, st.held, g.session);
    DenialSurvivesExactlyWhen(g, events, run, n, estimate);
  }

  /** A failed write and a restart: what was denied is allowed again. */
  lemma DenialCanBeForgotten(s: SessionId, ceiling: nat) returns (run: seq<Deployment>)
    requires 0 < ceiling < U64_MAX
    ensures
      var g := Setting(CostPolicy(ceiling, None), s, 1);
      && Runs(g, [Admit(ceiling, ceiling), Settle(0), Written(0, false), Crash], run)
      && DeniedIn(g, run[3], 1) && !DeniedIn(g, run[4], 1)
  {
    var g := Setting(CostPolicy(ceiling, None), s, 1);
    var events := [Admit(ceiling, ceiling), Settle(0), Written(0, false), Crash];
    run := EveryEventsRun(g, events);
    assert Leads(g, events, run, 0) && Leads(g, events, run, 1) && Leads(g, events, run, 2) && Leads(g, events, run, 3);
    AdmittedOnce(g, ceiling);
    UnwrittenSpend(g, run[1], ceiling);
  }

  lemma AdmittedOnce(g: Setting, cost: nat)
    requires g.limit > 0 && g.policy == CostPolicy(cost, None) && cost <= U64_MAX
    ensures var d := After(g, START, Admit(cost, cost)); d.ledger == Initial() && d.open == [cost]
  {}

  lemma UnwrittenSpend(g: Setting, d: Deployment, cost: nat)
    requires 0 < cost < U64_MAX && d.ledger == Initial() && d.open == [cost]
    ensures
      var e := After(g, After(g, d, Settle(0)), Written(0, false));
      Spend(e.ledger.memory, g.session) == cost && Spend(After(g, e, Crash).ledger.memory, g.session) == 0
  {
    var added := Step(Initial(), Add(g.session, cost));
    AddedOnce(g.session, cost);
    assert After(g, d, Settle(0)).ledger == added;
    var unwritten := Step(added, Persist(0, false));
    assert unwritten.memory == added.memory && unwritten.rows == added.rows;
    var restarted := Step(unwritten, Restart);
    assert restarted.memory == Restored(map[]);
  }

  lemma AddedOnce(s: SessionId, cost: nat)
    requires 0 < cost < U64_MAX
    ensures var st := Step(Initial(), Add(s, cost)); Spend(st.memory, s) == cost && st.rows == map[]
  {}
}
