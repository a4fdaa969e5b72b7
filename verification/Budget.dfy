/** Paid inference: the per-session spend ledger and its durable copy. */
module Budget {
  import opened Base

  type SessionId = nat
  type Spends = map<SessionId, nat>

  function Saturated(n: nat): nat { if n > U64_MAX then U64_MAX else n }

  function Spend(spends: Spends, s: SessionId): nat { if s in spends then spends[s] else 0 }

  function Added(spends: Spends, s: SessionId, amount: nat): Spends {
    spends[s := Saturated(Spend(spends, s) + amount)]
  }

  /** What a restart reads back: the non-zero rows. */
  function Restored(rows: Spends): Spends { map s | s in rows && rows[s] > 0 :: rows[s] }

  class CostLedger {
    var memory: Spends
    var store: Option<Spends>

    constructor ()
      ensures memory == map[] && store == None
    {
      memory, store := map[], None;
    }

    /** `with_durable_store`, for a store that can be read. */
    constructor WithStore(rows: Spends)
      ensures store == Some(rows) && memory == Restored(rows)
    {
      store := Some(rows);
      new;
      var ok := Restore(true);
    }

    /** `restore_from_durable`: `readable` is the store's answer. */
    method Restore(readable: bool) returns (ok: bool)
      modifies this`memory
      ensures ok == (store.None? || readable)
      ensures memory == if store.Some? && readable then Restored(store.value) else old(memory)
    {
      if store.None? {
        return true;
      }
      if !readable {
        return false;
      }
      memory := map[];
      var rows, todo := store.value, store.value.Keys;
      while todo != {}
        invariant todo <= rows.Keys
        invariant forall s :: s in memory <==> s in rows && s !in todo && rows[s] > 0
        invariant forall s | s in memory :: memory[s] == rows[s]
        decreases |todo|
      {
        var s :| s in todo;
        if rows[s] > 0 {
          memory := memory[s := rows[s]];
        }
        todo := todo - {s};
      }
      assert memory == Restored(rows);
      return true;
    }

    /** The first half of `record_spend`, under the lock. */
    method AddSpend(s: SessionId, amount: nat) returns (total: nat)
      modifies this`memory
      ensures memory == Added(old(memory), s, amount) && total == Spend(memory, s)
    {
      total := Saturated(Spend(memory, s) + amount);
      memory := memory[s := total];
    }

    /** `record_spend` with no other caller in between; `writable` is the store's answer. */
    method RecordSpend(s: SessionId, amount: nat, writable: bool) returns (r: Result<nat, ()>)
      modifies this
      ensures r.Err? <==> amount > 0 && store.Some? && !writable
      ensures r.Ok? ==> r.value == Spend(memory, s)
      ensures memory == if amount == 0 then old(memory) else Added(old(memory), s, amount)
      ensures store == if amount == 0 || old(store).None? || !writable then old(store)
                       else Some(old(store).value[s := Spend(memory, s)])
    {
      if amount == 0 {
        return Ok(Spend(memory, s));
      }
      var total := AddSpend(s, amount);
      if store.Some? {
        if !writable {
          return Err(());
        }
        store := Some(store.value[s := total]);
      }
      return Ok(total);
    }
  }

  // ---- Concurrent recording, with restarts ----

  /** A recorded total on its way to the store; `stamp` numbers the additions. */
  datatype Write = Write(session: SessionId, total: nat, stamp: nat)

  /**
   * `base` and `log` say what memory started from and what was added since; `last` is the stamp of a
   * session's latest addition, `wrote` that of its row, and `held` every total memory ever had.
   */
  datatype State = State(
    memory: Spends, rows: Spends, writes: map<nat, Write>,
    base: Spends, log: seq<(SessionId, nat)>, last: Spends, wrote: Spends, held: set<(SessionId, nat)>, clock: nat)

  datatype Action =
    | Add(session: SessionId, amount: nat)    // the locked half of `record_spend`
    | Persist(call: nat, ok: bool)            // its store half, at any later time
    | Restart                                 // the process dies and reads its rows back

  function Initial(): State { State(map[], map[], map[], map[], [], map[], map[], {}, 0) }

  function Step(st: State, a: Action): State {
    match a
    case Add(s, amount) =>
      if amount == 0 then st
      else
        var memory := Added(st.memory, s, amount);
        var total := Spend(memory, s);
        st.(memory := memory, log := st.log + [(s, amount)], last := st.last[s := st.clock],
            writes := st.writes[st.clock := Write(s, total, st.clock)], held := st.held + {(s, total)},
            clock := st.clock + 1)
    case Persist(call, ok) =>
      if call !in st.writes then st
      else
        var w := st.writes[call];
        var writes := st.writes - {call};
        if ok then st.(rows := st.rows[w.session := w.total], wrote := st.wrote[w.session := w.stamp], writes := writes)
        else st.(writes := writes)
    case Restart =>
      st.(memory := Restored(st.rows), base := Restored(st.rows), log := [], writes := map[], last := st.wrote)
  }

  function Run(st: State, actions: seq<Action>): State {
    if actions == [] then st else Step(Run(st, actions[..|actions| - 1]), actions[|actions| - 1])
  }

  function Sum(log: seq<(SessionId, nat)>, s: SessionId): nat {
    if log == [] then 0
    else Sum(log[..|log| - 1], s) + if log[|log| - 1].0 == s then log[|log| - 1].1 else 0
  }

  /** A total written at `stamp` is the current one if nothing was added since, and otherwise smaller or saturated. */
  ghost predicate Dated(memory: Spends, last: Spends, s: SessionId, total: nat, stamp: nat) {
    && s in last && stamp <= last[s] && 0 < total <= Spend(memory, s) <= U64_MAX
    && (stamp == last[s] ==> total == Spend(memory, s))
    && (stamp < last[s] ==> total < Spend(memory, s) || Spend(memory, s) == U64_MAX)
  }

  ghost predicate Accounted(memory: Spends, base: Spends, log: seq<(SessionId, nat)>) {
    forall s: SessionId :: Spend(memory, s) == Saturated(Spend(base, s) + Sum(log, s))
  }

  ghost predicate RowsOk(memory: Spends, last: Spends, rows: Spends, wrote: Spends, held: set<(SessionId, nat)>) {
    && rows.Keys == wrote.Keys
    && forall s | s in rows :: (s, rows[s]) in held && Dated(memory, last, s, rows[s], wrote[s])
  }

  ghost predicate WritesOk(memory: Spends, last: Spends, writes: map<nat, Write>, held: set<(SessionId, nat)>) {
    forall c | c in writes ::
      (writes[c].session, writes[c].total) in held &&
          Dated(memory, last, writes[c].session, writes[c].total, writes[c].stamp)
  }

  ghost predicate Stamped(last: Spends, clock: nat) { forall s | s in last :: last[s] < clock }

  ghost predicate Inv(st: State) {
    && Accounted(st.memory, st.base, st.log) && Stamped(st.last, st.clock) && Stamped(st.wrote, st.clock)
    && RowsOk(st.memory, st.last, st.rows, st.wrote, st.held) && WritesOk(st.memory, st.last, st.writes, st.held)
  }

  lemma AddDates(memory: Spends, last: Spends, clock: nat, s: SessionId, amount: nat, t: SessionId, total: nat,
                 stamp: nat)
    requires Stamped(last, clock) && amount > 0 && Dated(memory, last, t, total, stamp)
    ensures Dated(Added(memory, s, amount), last[s := clock], t, total, stamp)
  {}

  lemma AddKeeps(st: State, s: SessionId, amount: nat)
    requires Inv(st) && amount > 0
    ensures Inv(Step(st, Add(s, amount)))
  {
    var next := Step(st, Add(s, amount));
    assert next.log[..|next.log| - 1] == st.log;
    forall t: SessionId, total: nat, stamp: nat | Dated(st.memory, st.last, t, total, stamp)
      ensures Dated(next.memory, next.last, t, total, stamp)
    {
      AddDates(st.memory, st.last, st.clock, s, amount, t, total, stamp);
    }
  }

  lemma RestartKeeps(st: State)
    requires Inv(st)
    ensures Inv(Step(st, Restart))
  {
    var next := Step(st, Restart);
    assert forall s: SessionId :: Sum([], s) == 0;
    assert forall s | s in st.rows :: Spend(next.memory, s) == st.rows[s];
  }

  lemma StepKeeps(st: State, a: Action)
    requires Inv(st)
    ensures Inv(Step(st, a))
  {
    match a
    case Add(s, amount) => if amount > 0 { AddKeeps(st, s, amount); }
    case Persist(call, ok) => {}
    case Restart => RestartKeeps(st);
  }

  lemma {:induction false} RunKeeps(actions: seq<Action>)
    ensures Inv(Run(Initial(), actions))
  {
    if actions != [] {
      RunKeeps(actions[..|actions| - 1]);
      StepKeeps(Run(Initial(), actions[..|actions| - 1]), actions[|actions| - 1]);
    }
  }

  /**
   * Every schedule of additions, late, reordered or failing writes, and restarts: memory is the saturated
   * sum of what was added since it was loaded; a row is a total memory once held and never exceeds memory.
   */
  lemma LedgerIsExact(actions: seq<Action>, s: SessionId)
    ensures
      var st := Run(Initial(), actions);
      && Spend(st.memory, s) == Saturated(Spend(st.base, s) + Sum(st.log, s))
      && Spend(st.rows, s) <= Spend(st.memory, s)
      && (s in st.rows ==> (s, st.rows[s]) in st.held)
  {
    RunKeeps(actions);
    var st := Run(Initial(), actions);
    RowForOne(st.memory, st.last, st.rows, st.wrote, st.held, s);
    SpendForOne(st.memory, st.base, st.log, s);
  }

  lemma RowForOne(memory: Spends, last: Spends, rows: Spends, wrote: Spends, held: set<(SessionId, nat)>, s: SessionId)
    requires RowsOk(memory, last, rows, wrote, held)
    ensures Spend(rows, s) <= Spend(memory, s) && (s in rows ==> (s, rows[s]) in held)
  {}

  lemma SpendForOne(memory: Spends, base: Spends, log: seq<(SessionId, nat)>, s: SessionId)
    requires Accounted(memory, base, log)
    ensures Spend(memory, s) == Saturated(Spend(base, s) + Sum(log, s))
  {}

  predicate RowIsLatest(st: State, s: SessionId) {
    s in st.rows && s in st.wrote && s in st.last && st.wrote[s] == st.last[s]
  }

  /** A restart loses nothing exactly when the row was written by the latest addition, or is saturated already. */
  lemma RestartIsLosslessExactlyWhen(actions: seq<Action>, s: SessionId)
    ensures
      var st := Run(Initial(), actions);
      Spend(Step(st, Restart).memory, s) == Spend(st.memory, s) <==>
      Spend(st.memory, s) == 0 || RowIsLatest(st, s) || Spend(st.rows, s) == U64_MAX
  {
    RunKeeps(actions);
  }

  /** Two recordings whose writes swap: the row stays below memory. */
  lemma SwappedWritesLoseSpend()
    ensures
      var st := Run(Initial(), [Add(7, 1), Add(7, 2), Persist(1, true), Persist(0, true)]);
      Spend(st.memory, 7) == 3 && Spend(Step(st, Restart).memory, 7) == 1 && st.writes == map[]
  {
    var one, two := [Add(7, 1)], [Add(7, 1), Add(7, 2)];
    var three, four := two + [Persist(1, true)], [Add(7, 1), Add(7, 2), Persist(1, true), Persist(0, true)];
    assert one[..0] == [] && two[..1] == one && three[..2] == two && four[..3] == three;
    var first := Run(Initial(), one);
    assert first == Step(Initial(), Add(7, 1));
    assert first.memory == map[7 := 1] && first.writes == map[0 := Write(7, 1, 0)] && first.clock == 1;
    var second := Run(Initial(), two);
    assert second == Step(first, Add(7, 2));
    assert second.memory == map[7 := 3] && second.writes == map[0 := Write(7, 1, 0), 1 := Write(7, 3, 1)];
    var third := Run(Initial(), three);
    assert third == Step(second, Persist(1, true));
    assert third.writes == map[0 := Write(7, 1, 0)];
  }

  /** One recording after the other, each written before the next. */
  function Sequential(log: seq<(SessionId, nat)>): seq<Action> {
    if log == [] then []
    else
      var n := |log| - 1;
      Sequential(log[..n]) + [Add(log[n].0, log[n].1), Persist(Run(Initial(), Sequential(log[..n])).clock, true)]
  }

  lemma {:induction false} RunTwoMore(st: State, actions: seq<Action>, a: Action, b: Action)
    ensures Run(st, actions + [a, b]) == Step(Step(Run(st, actions), a), b)
  {
    var whole := actions + [a, b];
    assert whole[..|whole| - 1] == actions + [a];
    assert (actions + [a])[..|actions|] == actions;
  }

  /** After any sequence of successful recordings the rows are the memory: a restart cannot be observed. */
  lemma {:induction false} SequentialRestartsAreInvisible(log: seq<(SessionId, nat)>)
    ensures
      var st := Run(Initial(), Sequential(log));
      st.rows == st.memory && st.writes == map[] && Step(st, Restart).memory == st.memory
  {
    var st := Run(Initial(), Sequential(log));
    if log != [] {
      var n := |log| - 1;
      var before := Run(Initial(), Sequential(log[..n]));
      SequentialRestartsAreInvisible(log[..n]);
      RunTwoMore(Initial(), Sequential(log[..n]), Add(log[n].0, log[n].1), Persist(before.clock, true));
      RecordedAndWritten(before, log[n].0, log[n].1);
    }
    RunKeeps(Sequential(log));
    NothingForgotten(st);
  }

  lemma RecordedAndWritten(st: State, s: SessionId, amount: nat)
    requires st.rows == st.memory && st.writes == map[]
    ensures
      var next := Step(Step(st, Add(s, amount)), Persist(st.clock, true));
      next.rows == next.memory && next.writes == map[]
  {}

  lemma NothingForgotten(st: State)
    requires Inv(st) && st.rows == st.memory
    ensures Step(st, Restart).memory == st.memory
  {
    assert forall s | s in st.rows :: st.rows[s] > 0;
    assert Restored(st.rows) == st.rows;
  }
}
