/** When a cancel on a Claude session is lost: exactly which attempts can still go active after it looked. */
module ClaudeCancel {
  import opened Base
  import opened ClaudeSession

  // ---- Runs ----

  lemma {:induction false} RunConcat(s: Session, x: seq<Action>, y: seq<Action>)
    ensures Run(s, x + y) == Run(Run(s, x), y)
    decreases |x|
  {
    if x == [] {
      assert x + y == y;
    } else {
      assert (x + y)[0] == x[0] && (x + y)[1..] == x[1..] + y;
      RunConcat(Step(s, x[0]), x[1..], y);
    }
  }

  lemma RunCons(s: Session, x: Action, rest: seq<Action>)
    ensures Run(s, [x] + rest) == Run(Step(s, x), rest)
  {
    assert ([x] + rest)[1..] == rest;
  }

  lemma RunOne(s: Session, x: Action)
    ensures Run(s, [x]) == Step(s, x)
  {
    assert [x][1..] == [];
  }

  // ---- A prompt that can still start, can ----

  /** The attempt's prompt is waiting for setup or was just given it, or may still arrive. */
  predicate CanStart(s: Session, a: AttemptId) {
    s.Is(a, Looking) || s.Is(a, Locked) || (a !in s.prompts && s.listed)
  }

  /** Whoever drops its guard while holding setup releases it. */
  lemma {:induction false} FinishDrop(s: Session, x: AttemptId, a: AttemptId) returns (more: seq<Action>)
    requires x in s.prompts && s.prompts[x].Dropping? && s.prompts[x].holdsSetup && a != x
    ensures
      var u := Run(s, more);
      u.setup.None? && (a !in s.pending ==> a !in u.pending) && (s.Is(a, Looking) ==> u.Is(a, Looking))
    decreases if s.prompts[x].done < 3 then 3 - s.prompts[x].done else 0
  {
    var t := Step(s, DropBlock(x));
    if s.prompts[x].done >= 3 {
      more := [DropBlock(x)];
      RunOne(s, DropBlock(x));
    } else {
      assert t.Is(x, Dropping(s.prompts[x].done + 1, true));
      var rest := FinishDrop(t, x, a);
      more := [DropBlock(x)] + rest;
      RunCons(s, DropBlock(x), rest);
    }
  }

  lemma AbortDrops(s: Session, x: AttemptId, a: AttemptId)
    requires x in s.prompts && s.prompts[x].BeforeInstall() && a != x
    ensures
      var u := Step(s, Abort(x));
      u.Is(x, Dropping(0, true)) && u.pending == s.pending && (s.Is(a, Looking) ==> u.Is(a, Looking))
  {}

  lemma LaunchOrGiveUp(s: Session, x: AttemptId, a: AttemptId)
    requires x in s.prompts && a != x
    ensures s.prompts[x].Installed? ==>
      var u := Step(s, Launch(x)); u.setup.None? && u.pending == s.pending && (s.Is(a, Looking) ==> u.Is(a, Looking))
    ensures s.prompts[x].Locked? ==>
      var u := Step(s, Abort(x)); u.setup.None? && u.pending == s.pending && (s.Is(a, Looking) ==> u.Is(a, Looking))
  {}

  lemma FreeSetup(s: Session, a: AttemptId) returns (more: seq<Action>)
    requires Inv(s) && s.Is(a, Looking) && a !in s.pending
    ensures var u := Run(s, more); u.setup.None? && u.Is(a, Looking) && a !in u.pending
  {
    if s.setup.None? {
      more := [];
    } else {
      var x := s.setup.value;
      var phase := s.prompts[x];
      assert PhaseOk(s.setup, s.active, x, phase) && PhaseOk(s.setup, s.active, a, Looking);
      if phase.Installed? {
        LaunchOrGiveUp(s, x, a);
        RunOne(s, Launch(x));
        more := [Launch(x)];
      } else if phase.Locked? {
        LaunchOrGiveUp(s, x, a);
        RunOne(s, Abort(x));
        more := [Abort(x)];
      } else if phase.Dropping? {
        more := FinishDrop(s, x, a);
      } else {
        AbortDrops(s, x, a);
        var rest := FinishDrop(Step(s, Abort(x)), x, a);
        RunCons(s, Abort(x), rest);
        more := [Abort(x)] + rest;
      }
    }
  }

  /** The attempt has setup within reach: nobody else holds it. */
  predicate HasTurn(s: Session, a: AttemptId) {
    (s.Is(a, Looking) && s.setup.None?) || (s.Is(a, Locked) && s.setup == Some(a))
  }

  lemma DropActive(s: Session, b: AttemptId, a: AttemptId)
    requires s.Is(b, Dropping(0, false)) && s.active == Some(b) && HasTurn(s, a) && a !in s.pending
    ensures var u := Step(s, DropBlock(b)); u.active.None? && HasTurn(u, a) && a !in u.pending
  {}

  lemma EndActive(s: Session, b: AttemptId, a: AttemptId)
    requires s.Is(b, Running) && s.active == Some(b) && HasTurn(s, a) && a !in s.pending
    ensures
      var u := Step(s, End(b));
      u.Is(b, Dropping(0, false)) && u.active == Some(b) && HasTurn(u, a) && a !in u.pending
  {}

  lemma ClearActive(s: Session, a: AttemptId) returns (more: seq<Action>)
    requires Inv(s) && HasTurn(s, a) && a !in s.pending
    ensures var u := Run(s, more); u.active.None? && HasTurn(u, a) && a !in u.pending
  {
    if s.active.None? {
      more := [];
    } else {
      var b := s.active.value;
      assert PhaseOk(s.setup, s.active, b, s.prompts[b]) && PhaseOk(s.setup, s.active, a, s.prompts[a]);
      if s.prompts[b].Running? {
        EndActive(s, b, a);
        DropActive(Step(s, End(b)), b, a);
        RunCons(s, End(b), [DropBlock(b)]);
        RunOne(Step(s, End(b)), DropBlock(b));
        more := [End(b)] + [DropBlock(b)];
      } else {
        DropActive(s, b, a);
        RunOne(s, DropBlock(b));
        more := [DropBlock(b)];
      }
    }
  }

  predicate Advancing(s: Session, a: AttemptId, phase: Phase) { s.Is(a, phase) && s.active.None? && a !in s.pending }

  lemma SetupSteps(s: Session, a: AttemptId)
    ensures HasTurn(s, a) && s.Is(a, Looking) && s.active.None? && a !in s.pending ==>
        Advancing(Step(s, Lock(a)), a, Locked)
    ensures Advancing(s, a, Locked) ==> Advancing(Step(s, CheckActive(a)), a, Guarded)
    ensures Advancing(s, a, Guarded) ==> Advancing(Step(s, TakeFirst(a)), a, Spawning)
  {}

  lemma InstallSteps(s: Session, a: AttemptId)
    ensures Advancing(s, a, Spawning) ==> Advancing(Step(s, Spawn(a)), a, Spawned)
    ensures Advancing(s, a, Spawned) ==> Advancing(Step(s, TakeSecond(a)), a, Writing)
    ensures Advancing(s, a, Writing) ==> Advancing(Step(s, Write(a)), a, Written)
    ensures Advancing(s, a, Written) ==> a in Step(s, InstallStep(a)).installed
  {}

  lemma FromSpawning(s: Session, a: AttemptId)
    requires Advancing(s, a, Spawning)
    ensures a in Run(s, [Spawn(a)] + ([TakeSecond(a)] + ([Write(a)] + [InstallStep(a)]))).installed
  {
    var s1 := Step(s, Spawn(a));
    var s2 := Step(s1, TakeSecond(a));
    var s3 := Step(s2, Write(a));
    InstallSteps(s, a);
    InstallSteps(s1, a);
    InstallSteps(s2, a);
    InstallSteps(s3, a);
    RunCons(s, Spawn(a), [TakeSecond(a)] + ([Write(a)] + [InstallStep(a)]));
    RunCons(s1, TakeSecond(a), [Write(a)] + [InstallStep(a)]);
    RunCons(s2, Write(a), [InstallStep(a)]);
    RunOne(s3, InstallStep(a));
  }

  lemma FromLocked(s: Session, a: AttemptId) returns (more: seq<Action>)
    requires Advancing(s, a, Locked)
    ensures a in Run(s, more).installed
  {
    var s1 := Step(s, CheckActive(a));
    var s2 := Step(s1, TakeFirst(a));
    SetupSteps(s, a);
    SetupSteps(s1, a);
    FromSpawning(s2, a);
    var rest := [Spawn(a)] + ([TakeSecond(a)] + ([Write(a)] + [InstallStep(a)]));
    RunCons(s, CheckActive(a), [TakeFirst(a)] + rest);
    RunCons(s1, TakeFirst(a), rest);
    more := [CheckActive(a)] + ([TakeFirst(a)] + rest);
  }

  lemma FromTurn(s: Session, a: AttemptId) returns (more: seq<Action>)
    requires HasTurn(s, a) && s.active.None? && a !in s.pending
    ensures a in Run(s, more).installed
  {
    if s.Is(a, Locked) {
      more := FromLocked(s, a);
    } else {
      SetupSteps(s, a);
      var rest := FromLocked(Step(s, Lock(a)), a);
      RunCons(s, Lock(a), rest);
      more := [Lock(a)] + rest;
    }
  }

  lemma FromWaiting(s: Session, a: AttemptId) returns (more: seq<Action>)
    requires Inv(s) && (s.Is(a, Looking) || s.Is(a, Locked)) && a !in s.pending
    ensures a in Run(s, more).installed
  {
    var free := [];
    if s.Is(a, Looking) { free := FreeSetup(s, a); }
    var t := Run(s, free);
    RunKeeps(s, free);
    assert PhaseOk(t.setup, t.active, a, t.prompts[a]);
    var clear := ClearActive(t, a);
    var u := Run(t, clear);
    var rest := FromTurn(u, a);
    RunConcat(s, free, clear + rest);
    RunConcat(t, clear, rest);
    more := free + (clear + rest);
  }

  /** From every state, an attempt that can start and has no cancellation waiting can still go active. */
  lemma UncancelledCanStart(s: Session, a: AttemptId) returns (more: seq<Action>)
    requires Inv(s) && CanStart(s, a) && a !in s.pending
    ensures a in Run(s, more).installed
  {
    if a in s.prompts {
      more := FromWaiting(s, a);
    } else {
      RunKeeps(s, [Enter(a)]);
      RunOne(s, Enter(a));
      var rest := FromWaiting(Step(s, Enter(a)), a);
      RunCons(s, Enter(a), rest);
      more := [Enter(a)] + rest;
    }
  }

  // ---- An attempt that cannot, never will ----

  /** The attempt has left without being installed, or can no longer arrive. */
  predicate Over(s: Session, a: AttemptId) {
    a !in s.installed && if a in s.prompts then s.prompts[a].Dropping? || s.prompts[a].Finished? else !s.listed
  }

  lemma EntryKeepsOver(s: Session, x: Action, a: AttemptId)
    requires Over(s, a) && (x.Enter? || x.Lock? || x.CheckActive? || x.TakeFirst? || x.Spawn? || x.TakeSecond?)
    ensures Over(PromptStep(s, x), a)
  {}

  lemma ExitKeepsOver(s: Session, x: Action, a: AttemptId)
    requires Over(s, a) && (x.Write? || x.InstallStep? || x.Launch? || x.End?)
    ensures Over(PromptStep(s, x), a)
  {}

  lemma AbortKeepsOver(s: Session, x: Action, a: AttemptId)
    requires Over(s, a) && x.Abort?
    ensures Over(PromptStep(s, x), a)
  {}

  lemma DropKeepsOver(s: Session, x: Action, a: AttemptId)
    requires Over(s, a) && x.DropBlock?
    ensures Over(PromptStep(s, x), a)
  {
    if x.a in s.prompts && s.prompts[x.a].Dropping? {
      DroppedIsOneDrop(s, x.a, s.prompts[x.a].done, s.prompts[x.a].holdsSetup);
    }
  }

  lemma StepKeepsOver(s: Session, x: Action, a: AttemptId)
    requires Over(s, a)
    ensures Over(Step(s, x), a)
  {
    if x.Enter? || x.Lock? || x.CheckActive? || x.TakeFirst? || x.Spawn? || x.TakeSecond? { EntryKeepsOver(s, x, a); }
    if x.Write? || x.InstallStep? || x.Launch? || x.End? { ExitKeepsOver(s, x, a); }
    if x.Abort? { AbortKeepsOver(s, x, a); }
    if x.DropBlock? { DropKeepsOver(s, x, a); }
    var t := PromptStep(s, x);
    assert CancelStep(t, x).prompts == t.prompts && CancelStep(t, x).installed == t.installed;
  }

  lemma {:induction false} OverForEver(s: Session, more: seq<Action>, a: AttemptId)
    requires Over(s, a)
    ensures a !in Run(s, more).installed
    decreases |more|
  {
    if more != [] {
      StepKeepsOver(s, more[0], a);
      OverForEver(Step(s, more[0]), more[1..], a);
    }
  }

  lemma StepKeepsDoomed(s: Session, x: Action)
    ensures s.doomed <= Step(s, x).doomed
  {
    PromptCalls(s, x);
    LookOnlyAdds(PromptStep(s, x), x);
  }

  lemma LookOnlyAdds(s: Session, x: Action)
    ensures s.doomed <= CancelStep(s, x).doomed
  {}

  lemma {:induction false} DoomedForEver(s: Session, more: seq<Action>, a: AttemptId)
    requires Inv(s) && a in s.doomed
    ensures a !in Run(s, more).installed
  {
    RunKeeps(s, more);
    StaysDoomed(s, more, a);
  }

  lemma {:induction false} StaysDoomed(s: Session, more: seq<Action>, a: AttemptId)
    requires a in s.doomed
    ensures a in Run(s, more).doomed
    decreases |more|
  {
    if more != [] {
      StepKeepsDoomed(s, more[0]);
      StaysDoomed(Step(s, more[0]), more[1..], a);
    }
  }

  /** A waiting cancellation was registered while nothing was active: its attempt is doomed, or was installed before. */
  ghost predicate Covered(s: Session) { forall a | a in s.pending :: a in s.doomed || a in s.installed }

  lemma StepKeepsCovered(s: Session, x: Action)
    requires Covered(s)
    ensures Covered(Step(s, x))
  {}

  lemma {:induction false} RunKeepsCovered(s: Session, schedule: seq<Action>)
    requires Covered(s)
    ensures Covered(Run(s, schedule))
    decreases |schedule|
  {
    if schedule != [] {
      StepKeepsCovered(s, schedule[0]);
      RunKeepsCovered(Step(s, schedule[0]), schedule[1..]);
    }
  }

  // ---- The exact condition ----

  /**
   * For every reachable state and every cancel call about to look: the attempt is kept from ever going active
   * if and only if nothing is active, or an earlier cancel of it is still waiting, or it cannot start any more.
   */
  lemma CancelHoldsExactlyWhen(schedule: seq<Action>, k: CallId)
    requires k in Run(FRESH, schedule).cancels && Run(FRESH, schedule).cancels[k].Called?
    requires Run(FRESH, schedule).cancels[k].attempt !in Run(FRESH, schedule).installed
    ensures
      var s := Run(FRESH, schedule);
      var a := s.cancels[k].attempt;
      (forall more :: a !in Run(Step(s, LookStep(k)), more).installed) <==>
      s.active.None? || a in s.pending || !CanStart(s, a)
  {
    RunKeeps(FRESH, schedule);
    RunKeepsCovered(FRESH, schedule);
    var s := Run(FRESH, schedule);
    var a, t := s.cancels[k].attempt, Step(s, LookStep(k));
    RunKeeps(s, [LookStep(k)]);
    RunOne(s, LookStep(k));
    if s.active.None? || a in s.pending {
      LookDooms(s, k);
      forall more ensures a !in Run(t, more).installed { DoomedForEver(t, more, a); }
    } else if CanStart(s, a) {
      LookMisses(s, k);
      var more := UncancelledCanStart(t, a);
    } else {
      LookMisses(s, k);
      CannotStartIsOver(s, a);
      forall more ensures a !in Run(t, more).installed { OverForEver(t, more, a); }
    }
  }

  lemma LookDooms(s: Session, k: CallId)
    requires Covered(s) && k in s.cancels && s.cancels[k].Called? && s.cancels[k].attempt !in s.installed
    requires s.active.None? || s.cancels[k].attempt in s.pending
    ensures s.cancels[k].attempt in Step(s, LookStep(k)).doomed
  {}

  lemma LookMisses(s: Session, k: CallId)
    requires k in s.cancels && s.cancels[k].Called? && s.active.Some?
    ensures
      var t := Step(s, LookStep(k));
      t.prompts == s.prompts && t.pending == s.pending && t.listed == s.listed && t.installed == s.installed
  {}

  lemma CannotStartIsOver(s: Session, a: AttemptId)
    requires Inv(s) && s.active.Some? && a !in s.installed && !CanStart(s, a)
    ensures Over(s, a)
  {
    if a in s.prompts { assert PhaseOk(s.setup, s.active, a, s.prompts[a]); }
  }

  // ---- A lost cancel, from the first step on ----

  /** Attempt `b` has come this far, alone. */
  predicate Alone(s: Session, b: AttemptId, phase: Phase) {
    && s.listed && s.pending == {} && s.cancels == map[] && (forall a | a in s.prompts :: a == b) && s.Is(b, phase)
    && s.setup == (if phase.HoldsSetup() then Some(b) else None) && s.active == if phase.Active() then Some(b) else None
  }

  lemma AloneSetup(s: Session, b: AttemptId)
    ensures Alone(Step(FRESH, Enter(b)), b, Looking)
    ensures Alone(s, b, Looking) ==> Alone(Step(s, Lock(b)), b, Locked)
    ensures Alone(s, b, Locked) ==> Alone(Step(s, CheckActive(b)), b, Guarded)
    ensures Alone(s, b, Guarded) ==> Alone(Step(s, TakeFirst(b)), b, Spawning)
  {}

  lemma AloneInstall(s: Session, b: AttemptId)
    ensures Alone(s, b, Spawning) ==> Alone(Step(s, Spawn(b)), b, Spawned)
    ensures Alone(s, b, Spawned) ==> Alone(Step(s, TakeSecond(b)), b, Writing)
    ensures Alone(s, b, Writing) ==> Alone(Step(s, Write(b)), b, Written)
    ensures Alone(s, b, Written) ==> Alone(Step(s, InstallStep(b)), b, Installed)
  {}

  function SetUp(b: AttemptId): seq<Action> { [Enter(b)] + ([Lock(b)] + ([CheckActive(b)] + [TakeFirst(b)])) }

  function GoActive(b: AttemptId): seq<Action> { [Spawn(b)] + ([TakeSecond(b)] + ([Write(b)] + [InstallStep(b)])) }

  lemma SetUpRuns(b: AttemptId)
    ensures Alone(Run(FRESH, SetUp(b)), b, Spawning)
  {
    var s1 := Step(FRESH, Enter(b));
    var s2 := Step(s1, Lock(b));
    var s3 := Step(s2, CheckActive(b));
    AloneSetup(s1, b);
    AloneSetup(s2, b);
    AloneSetup(s3, b);
    RunCons(FRESH, Enter(b), [Lock(b)] + ([CheckActive(b)] + [TakeFirst(b)]));
    RunCons(s1, Lock(b), [CheckActive(b)] + [TakeFirst(b)]);
    RunCons(s2, CheckActive(b), [TakeFirst(b)]);
    RunOne(s3, TakeFirst(b));
  }

  lemma GoActiveRuns(s: Session, b: AttemptId)
    requires Alone(s, b, Spawning)
    ensures Alone(Run(s, GoActive(b)), b, Installed)
  {
    var s1 := Step(s, Spawn(b));
    var s2 := Step(s1, TakeSecond(b));
    var s3 := Step(s2, Write(b));
    AloneInstall(s, b);
    AloneInstall(s1, b);
    AloneInstall(s2, b);
    AloneInstall(s3, b);
    RunCons(s, Spawn(b), [TakeSecond(b)] + ([Write(b)] + [InstallStep(b)]));
    RunCons(s1, TakeSecond(b), [Write(b)] + [InstallStep(b)]);
    RunCons(s2, Write(b), [InstallStep(b)]);
    RunOne(s3, InstallStep(b));
  }

  function CancelledMeanwhile(k: CallId, a: AttemptId): seq<Action> {
    [Enter(a)] + ([CallCancel(k, a)] + [LookStep(k)])
  }

  lemma MeanwhileRuns(s: Session, k: CallId, a: AttemptId, b: AttemptId)
    requires Alone(s, b, Installed) && a != b
    ensures
      var t := Run(s, CancelledMeanwhile(k, a));
      k in t.cancels && t.cancels[k] == Gone(a) && t.active == Some(b) && t.Is(a, Looking) && a !in t.pending
  {
    var s1 := Step(s, Enter(a));
    var s2 := Step(s1, CallCancel(k, a));
    assert s1.Is(a, Looking) && s1.listed && s1.active == Some(b) && s1.pending == {} && s1.cancels == map[];
    assert s2.Is(a, Looking) && s2.active == Some(b) && s2.pending == {} && k in s2.cancels &&
        s2.cancels[k] == Called(a);
    RunCons(s, Enter(a), [CallCancel(k, a)] + [LookStep(k)]);
    RunCons(s1, CallCancel(k, a), [LookStep(k)]);
    RunOne(s2, LookStep(k));
  }

  /** From the first step on: `b` goes active, `a` arrives and is cancelled, and `a` still goes active later. */
  lemma CancelCanBeLost(k: CallId, a: AttemptId, b: AttemptId) returns (more: seq<Action>)
    requires a != b
    ensures
      var looked := SetUp(b) + GoActive(b) + CancelledMeanwhile(k, a);
      && k in Run(FRESH, looked).cancels && Run(FRESH, looked).cancels[k] == Gone(a)
      && a in Run(FRESH, looked + more).installed
  {
    var active, looked := SetUp(b) + GoActive(b), SetUp(b) + GoActive(b) + CancelledMeanwhile(k, a);
    SetUpRuns(b);
    RunConcat(FRESH, SetUp(b), GoActive(b));
    GoActiveRuns(Run(FRESH, SetUp(b)), b);
    RunConcat(FRESH, active, CancelledMeanwhile(k, a));
    MeanwhileRuns(Run(FRESH, active), k, a, b);
    RunKeeps(FRESH, looked);
    more := UncancelledCanStart(Run(FRESH, looked), a);
    RunConcat(FRESH, looked, more);
  }
}
