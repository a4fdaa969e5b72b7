/**
 * The race between `prompt_stream` and `cancel` on one Claude provider session: three checks of
 * `pending_cancellations`, the last under the `active` lock, against a cancel that looks at the
 * active attempt and registers itself under that lock. Each locked block is one step; a step that
 * is not enabled leaves the state alone. There is one prompt call per attempt id.
 */
module ClaudeSession {
  import opened Base

  type CallId = nat

  /** Where one `prompt_stream` call, and after it the attempt it spawns, stands. */
  datatype Phase =
    | Looking                                  // has the session, waits for the setup lock
    | Locked                                   // holds setup, has not looked at `active`
    | Guarded                                  // its guard exists; first check to come
    | Spawning                                 // passed the first check
    | Spawned                                  // child started; second check to come
    | Writing                                  // passed the second check
    | Written                                  // message written; third check to come
    | Installed                                // is the active attempt, task not yet spawned
    | Running                                  // task running, setup released
    | Dropping(done: nat, holdsSetup: bool)    // guard being dropped, `done` of its three blocks run
    | Finished
  {
    predicate HoldsSetup() {
      Locked? || BeforeInstall() || Installed? || (Dropping? && holdsSetup)
    }

    predicate BeforeInstall() { Guarded? || Spawning? || Spawned? || Writing? || Written? }

    predicate Active() { Installed? || Running? }
  }

  /** Where one `cancel` call stands. `Replied` is one that sent its command. */
  datatype CancelPhase =
    | Called(attempt: AttemptId)
    | Found(attempt: AttemptId)
    | Sending(attempt: AttemptId)
    | Replied(attempt: AttemptId, status: CancelStatus)
    | Gone(attempt: AttemptId)

  /**
   * One `LocalSession` and its calls. `sent` are the attempts whose `cancellation_sent` flag is set.
   * Histories: `installed` attempts, `doomed` ones (cancelled while nothing was active and before
   * they were installed), who `sender` was for an attempt, whether an install ever `overwrote` one.
   */
  datatype Session = Session(
    listed: bool, setup: Option<AttemptId>, active: Option<AttemptId>, pending: set<AttemptId>,
    prompts: map<AttemptId, Phase>, cancels: map<CallId, CancelPhase>, sent: set<AttemptId>,
    installed: set<AttemptId>, doomed: set<AttemptId>, sender: map<AttemptId, CallId>, overwrote: bool)
  {
    function At(a: AttemptId, phase: Phase): Session { this.(prompts := prompts[a := phase]) }

    predicate Is(a: AttemptId, phase: Phase) { a in prompts && prompts[a] == phase }
  }

  const FRESH := Session(true, None, None, {}, map[], map[], {}, {}, {}, map[], false)

  // ---- The locked blocks ----

  /** `cancel`'s block: the new pending set, and whether the attempt was the active one. */
  function Look(active: Option<AttemptId>, pending: set<AttemptId>, a: AttemptId): (set<AttemptId>, bool) {
    if active == Some(a) then (pending, true)
    else if active.None? then (pending + {a}, false)
    else (pending, false)
  }

  /** The last check and the install, under the `active` lock: new active, new pending, installed or not. */
  function Install(active: Option<AttemptId>, pending: set<AttemptId>, a: AttemptId)
    : (Option<AttemptId>, set<AttemptId>, bool)
  {
    if a in pending then (active, pending - {a}, false) else (Some(a), pending, true)
  }

  class LocalSession {
    var active: Option<AttemptId>
    var pendingCancellations: set<AttemptId>

    constructor ()
      ensures active == None && pendingCancellations == {}
    {
      active, pendingCancellations := None, {};
    }

    method TakePendingCancellation(a: AttemptId) returns (taken: bool)
      modifies this
      ensures taken == (a in old(pendingCancellations))
      ensures pendingCancellations == old(pendingCancellations) - {a} && active == old(active)
    {
      taken := a in pendingCancellations;
      pendingCancellations := pendingCancellations - {a};
    }

    method InstallActive(a: AttemptId) returns (ok: bool)
      modifies this
      ensures (active, pendingCancellations, ok) == Install(old(active), old(pendingCancellations), a)
      ensures ok <==> a !in old(pendingCancellations)
    {
      var taken := TakePendingCancellation(a);
      if !taken {
        assert pendingCancellations == old(pendingCancellations);
        active := Some(a);
      }
      ok := !taken;
    }

    method RegisterCancel(a: AttemptId) returns (found: bool)
      modifies this
      ensures (pendingCancellations, found) == Look(old(active), old(pendingCancellations), a)
      ensures active == old(active)
      ensures active.None? ==> a in pendingCancellations
    {
      found := active == Some(a);
      if active.None? {
        pendingCancellations := pendingCancellations + {a};
      }
    }

    method ClearActive(a: AttemptId)
      modifies this
      ensures active == if old(active) == Some(a) then None else old(active)
      ensures pendingCancellations == old(pendingCancellations)
    {
      if active == Some(a) {
        active := None;
      }
    }
  }

  datatype Action =
    | Enter(a: AttemptId)
    | Lock(a: AttemptId)
    | CheckActive(a: AttemptId)
    | TakeFirst(a: AttemptId)
    | Spawn(a: AttemptId)
    | TakeSecond(a: AttemptId)
    | Write(a: AttemptId)
    | InstallStep(a: AttemptId)
    | Launch(a: AttemptId)
    | End(a: AttemptId)
    | Abort(a: AttemptId)         // any failure or dropped future before the install
    | DropBlock(a: AttemptId)
    | CallCancel(k: CallId, a: AttemptId)
    | LookStep(k: CallId)
    | Swap(k: CallId)
    | Reply(k: CallId, status: CancelStatus)

  function Checked(s: Session, a: AttemptId, next: Phase): Session {
    if a in s.pending then s.(pending := s.pending - {a}).At(a, Dropping(0, true)) else s.At(a, next)
  }

  /** The next block of a guard's drop: clear `active`, forget the cancellation, unlist, release setup. */
  function Dropped(s: Session, a: AttemptId, done: nat, holds: bool): Session {
    if done == 0 then s.(active := if s.active == Some(a) then None else s.active).At(a, Dropping(1, holds))
    else if done == 1 then s.(pending := s.pending - {a}).At(a, Dropping(2, holds))
    else if done == 2 then s.(listed := false).At(a, Dropping(3, holds))
    else s.(setup := if holds then None else s.setup).At(a, Finished)
  }

  function PromptStep(s: Session, x: Action): Session {
    match x
    case Enter(a) => if a !in s.prompts && s.listed then s.At(a, Looking) else s
    case Lock(a) => if s.Is(a, Looking) && s.setup.None? then s.(setup := Some(a)).At(a, Locked) else s
    case CheckActive(a) =>
      if !s.Is(a, Locked) then s
      else if s.active.Some? then s.(setup := None).At(a, Finished)
      else s.At(a, Guarded)
    case TakeFirst(a) => if s.Is(a, Guarded) then Checked(s, a, Spawning) else s
    case Spawn(a) => if s.Is(a, Spawning) then s.At(a, Spawned) else s
    case TakeSecond(a) => if s.Is(a, Spawned) then Checked(s, a, Writing) else s
    case Write(a) => if s.Is(a, Writing) then s.At(a, Written) else s
    case InstallStep(a) =>
      if !s.Is(a, Written) then s
      else
        var (active, pending, ok) := Install(s.active, s.pending, a);
        var t := s.(active := active, pending := pending);
        if ok then t.At(a, Installed).(installed := s.installed + {a}, overwrote := s.overwrote || s.active.Some?)
        else t.At(a, Dropping(0, true))
    case Launch(a) => if s.Is(a, Installed) then s.(setup := None).At(a, Running) else s
    case End(a) => if s.Is(a, Running) then s.At(a, Dropping(0, false)) else s
    case Abort(a) =>
      if s.Is(a, Looking) then s.At(a, Finished)
      else if s.Is(a, Locked) then s.(setup := None).At(a, Finished)
      else if a in s.prompts && s.prompts[a].BeforeInstall() then s.At(a, Dropping(0, true))
      else s
    case DropBlock(a) =>
      if a !in s.prompts || !s.prompts[a].Dropping? then s
      else Dropped(s, a, s.prompts[a].done, s.prompts[a].holdsSetup)
    case _ => s
  }

  function CancelStep(s: Session, x: Action): Session {
    match x
    case CallCancel(k, a) => if k !in s.cancels && s.listed then s.(cancels := s.cancels[k := Called(a)]) else s
    case LookStep(k) =>
      if k !in s.cancels || !s.cancels[k].Called? then s
      else
        var a := s.cancels[k].attempt;
        var (pending, found) := Look(s.active, s.pending, a);
        s.(pending := pending, cancels := s.cancels[k := if found then Found(a) else Gone(a)],
           doomed := if s.active.None? && a !in s.installed then s.doomed + {a} else s.doomed)
    case Swap(k) =>
      if k !in s.cancels || !s.cancels[k].Found? then s
      else
        var a := s.cancels[k].attempt;
        if a in s.sent then s.(cancels := s.cancels[k := Gone(a)])
        else s.(cancels := s.cancels[k := Sending(a)], sent := s.sent + {a}, sender := s.sender[a := k])
    case Reply(k, status) =>
      if k !in s.cancels || !s.cancels[k].Sending? then s
      else s.(cancels := s.cancels[k := Replied(s.cancels[k].attempt, status)])
    case _ => s
  }

  function Step(s: Session, x: Action): Session { CancelStep(PromptStep(s, x), x) }

  function Run(s: Session, schedule: seq<Action>): Session
    decreases |schedule|
  {
    if schedule == [] then s else Run(Step(s, schedule[0]), schedule[1..])
  }

  // ---- Invariants ----

  predicate PhaseOk(setup: Option<AttemptId>, active: Option<AttemptId>, a: AttemptId, phase: Phase) {
    && (phase.HoldsSetup() <==> setup == Some(a))
    && (phase.Active() ==> active == Some(a))
    && (phase.BeforeInstall() ==> active.None?)
    && (active == Some(a) ==> phase.Active() || phase == Dropping(0, false))
  }

  /** The setup lock has one holder, and the active attempt is the one installed or running. */
  ghost predicate Locks(setup: Option<AttemptId>, active: Option<AttemptId>, prompts: map<AttemptId, Phase>) {
    && (forall a | a in prompts :: PhaseOk(setup, active, a, prompts[a]))
    && (setup.Some? ==> setup.value in prompts)
    && (active.Some? ==> active.value in prompts)
  }

  predicate Past(phase: Phase) { phase.Active() || phase.Dropping? || phase.Finished? }

  /** A doomed attempt is never installed: its cancellation waits for it, or it has already failed. */
  ghost predicate Doomed(s: Session) {
    && (forall a | a in s.installed :: a in s.prompts && Past(s.prompts[a]))
    && (forall a | a in s.prompts && s.prompts[a].Active() :: a in s.installed)
    && (s.active.Some? ==> s.active.value in s.installed)
    && (forall a | a in s.doomed ::
          a !in s.installed && (a in s.pending ||
              (a in s.prompts && (s.prompts[a].Dropping? || s.prompts[a].Finished?))))
  }

  /** At most one cancel call per attempt gets past the flag, and only for an installed attempt. */
  ghost predicate Senders(s: Session) {
    && s.sender.Keys == s.sent
    && (forall k | k in s.cancels ::
          && (s.cancels[k].Sending? || s.cancels[k].Replied? ==>
                s.cancels[k].attempt in s.sent && s.sender[s.cancels[k].attempt] == k)
          && (s.cancels[k].Found? ==> s.cancels[k].attempt in s.installed))
    && s.sent <= s.installed
  }

  ghost predicate Inv(s: Session) {
    Locks(s.setup, s.active, s.prompts) && Doomed(s) && Senders(s) && !s.overwrote
  }

  ghost predicate PromptInv(s: Session) { Locks(s.setup, s.active, s.prompts) && Doomed(s) && !s.overwrote }

  lemma EntryKeeps(s: Session, x: Action)
    requires PromptInv(s) && (x.Enter? || x.Lock?)
    ensures PromptInv(PromptStep(s, x))
  {}

  lemma CheckActiveKeeps(s: Session, x: Action)
    requires PromptInv(s) && x.CheckActive?
    ensures PromptInv(PromptStep(s, x))
  {}

  lemma AbortKeeps(s: Session, a: AttemptId)
    requires PromptInv(s) && a in s.prompts
    ensures s.prompts[a].Looking? ==> PromptInv(s.At(a, Finished))
    ensures s.prompts[a].Locked? ==> PromptInv(s.(setup := None).At(a, Finished))
    ensures s.prompts[a].BeforeInstall() ==> PromptInv(s.At(a, Dropping(0, true)))
  {}

  lemma CheckKeeps(s: Session, a: AttemptId, next: Phase)
    requires PromptInv(s) && a in s.prompts && s.prompts[a].BeforeInstall() && next.BeforeInstall()
    ensures PromptInv(Checked(s, a, next))
  {
    if a in s.pending {
      GiveUpLocks(s.setup, s.active, s.prompts, a, Dropping(0, true));
      GiveUpDoomed(s, a);
    } else {
      GiveUpLocks(s.setup, s.active, s.prompts, a, next);
      MoveDoomed(s, a, next);
    }
  }

  lemma GiveUpLocks(setup: Option<AttemptId>, active: Option<AttemptId>, prompts: map<AttemptId, Phase>, a: AttemptId,
                    next: Phase)
    requires Locks(setup, active, prompts) && a in prompts && prompts[a].BeforeInstall()
    requires next.BeforeInstall() || next == Dropping(0, true)
    ensures Locks(setup, active, prompts[a := next])
  {
    assert PhaseOk(setup, active, a, prompts[a]);
  }

  lemma GiveUpDoomed(s: Session, a: AttemptId)
    requires Doomed(s) && a in s.prompts && s.prompts[a].BeforeInstall()
    ensures Doomed(s.(pending := s.pending - {a}).At(a, Dropping(0, true)))
  {}

  lemma MoveDoomed(s: Session, a: AttemptId, next: Phase)
    requires Doomed(s) && a in s.prompts && s.prompts[a].BeforeInstall() && next.BeforeInstall()
    ensures Doomed(s.At(a, next))
  {}

  lemma ProgressKeeps(s: Session, x: Action)
    requires PromptInv(s) && (x.Spawn? || x.Write? || x.Launch? || x.End?)
    ensures PromptInv(PromptStep(s, x))
  {}

  lemma InstallKeeps(s: Session, x: Action)
    requires PromptInv(s) && x.InstallStep?
    ensures PromptInv(PromptStep(s, x))
  {
    var a := x.a;
    if s.Is(a, Written) {
      assert PhaseOk(s.setup, s.active, a, Written);
      if a in s.pending {
        GiveUpLocks(s.setup, s.active, s.prompts, a, Dropping(0, true));
        GiveUpDoomed(s, a);
      } else {
        InstallLocks(s.setup, s.prompts, a);
        InstallDoomed(s, a);
      }
    }
  }

  lemma InstallLocks(setup: Option<AttemptId>, prompts: map<AttemptId, Phase>, a: AttemptId)
    requires Locks(setup, None, prompts) && a in prompts && prompts[a].Written?
    ensures Locks(setup, Some(a), prompts[a := Installed])
  {
    assert PhaseOk(setup, None, a, prompts[a]);
  }

  lemma InstallDoomed(s: Session, a: AttemptId)
    requires Doomed(s) && s.Is(a, Written) && a !in s.pending
    ensures Doomed(s.(active := Some(a), installed := s.installed + {a}).At(a, Installed))
  {}

  lemma ClearLocks(s: Session, a: AttemptId, holds: bool)
    requires Locks(s.setup, s.active, s.prompts) && s.Is(a, Dropping(0, holds))
    ensures var t := Dropped(s, a, 0, holds); Locks(t.setup, t.active, t.prompts)
  {}

  lemma ForgetLocks(s: Session, a: AttemptId, done: nat, holds: bool)
    requires Locks(s.setup, s.active, s.prompts) && s.Is(a, Dropping(done, holds)) && 1 <= done <= 2
    ensures Locks(s.setup, s.active, s.prompts[a := Dropping(done + 1, holds)])
  {}

  lemma ReleaseLocks(s: Session, a: AttemptId, done: nat, holds: bool)
    requires Locks(s.setup, s.active, s.prompts) && s.Is(a, Dropping(done, holds)) && done > 2
    ensures Locks(if holds then None else s.setup, s.active, s.prompts[a := Finished])
  {}

  /** What one more block of a drop may change, as far as dooming is concerned. */
  predicate OneDrop(s: Session, t: Session, a: AttemptId) {
    && a in t.prompts && (t.prompts[a].Dropping? || t.prompts[a].Finished?) && t.prompts == s.prompts[a := t.prompts[a]]
    && t.installed == s.installed && t.doomed == s.doomed && s.pending - {a} <= t.pending
    && (t.active.Some? ==> t.active == s.active)
  }

  lemma DroppedIsOneDrop(s: Session, a: AttemptId, done: nat, holds: bool)
    ensures OneDrop(s, Dropped(s, a, done, holds), a)
  {
    if done == 0 {
      assert OneDrop(s, Dropped(s, a, 0, holds), a);
    } else if done == 1 {
      assert OneDrop(s, Dropped(s, a, 1, holds), a);
    }
  }

  lemma DropDoomed(s: Session, t: Session, a: AttemptId)
    requires Doomed(s) && a in s.prompts && s.prompts[a].Dropping? && OneDrop(s, t, a)
    ensures Doomed(t)
  {}

  lemma DropKeeps(s: Session, a: AttemptId)
    requires PromptInv(s) && a in s.prompts && s.prompts[a].Dropping?
    ensures PromptInv(Dropped(s, a, s.prompts[a].done, s.prompts[a].holdsSetup))
  {
    var Dropping(done, holds) := s.prompts[a];
    DroppedIsOneDrop(s, a, done, holds);
    DropDoomed(s, Dropped(s, a, done, holds), a);
    if done == 0 {
      ClearLocks(s, a, holds);
    } else if done <= 2 {
      ForgetLocks(s, a, done, holds);
    } else {
      ReleaseLocks(s, a, done, holds);
    }
  }

  lemma PromptKeeps(s: Session, x: Action)
    requires Inv(s)
    ensures Inv(PromptStep(s, x))
  {
    if x.Enter? || x.Lock? { EntryKeeps(s, x); }
    if x.CheckActive? { CheckActiveKeeps(s, x); }
    if x.Abort? && x.a in s.prompts { AbortKeeps(s, x.a); }
    if x.TakeFirst? && s.Is(x.a, Guarded) { CheckKeeps(s, x.a, Spawning); }
    if x.TakeSecond? && s.Is(x.a, Spawned) { CheckKeeps(s, x.a, Writing); }
    if x.Spawn? || x.Write? || x.Launch? || x.End? { ProgressKeeps(s, x); }
    if x.InstallStep? { InstallKeeps(s, x); }
    if x.DropBlock? && x.a in s.prompts && s.prompts[x.a].Dropping? {
      DropKeeps(s, x.a);
    }
    SendersKept(s, x);
  }

  /** What the cancel calls look at, and a prompt leaves alone. */
  predicate SameCalls(s: Session, t: Session) {
    && t.cancels == s.cancels && t.sent == s.sent && t.sender == s.sender && t.doomed == s.doomed
    && s.installed <= t.installed
  }

  lemma EntryCalls(s: Session, x: Action)
    requires x.Enter? || x.Lock? || x.CheckActive? || x.TakeFirst? || x.Spawn? || x.TakeSecond? || x.Write?
    ensures SameCalls(s, PromptStep(s, x))
  {}

  lemma ExitCalls(s: Session, x: Action)
    requires x.InstallStep? || x.Launch? || x.End? || x.Abort?
    ensures SameCalls(s, PromptStep(s, x))
  {}

  lemma DropCalls(s: Session, a: AttemptId)
    ensures SameCalls(s, PromptStep(s, DropBlock(a)))
  {}

  lemma PromptCalls(s: Session, x: Action)
    ensures SameCalls(s, PromptStep(s, x))
  {
    match x
    case InstallStep(_) => ExitCalls(s, x);
    case Launch(_) => ExitCalls(s, x);
    case End(_) => ExitCalls(s, x);
    case Abort(_) => ExitCalls(s, x);
    case DropBlock(a) => DropCalls(s, a);
    case CallCancel(_, _) =>
    case LookStep(_) =>
    case Swap(_) =>
    case Reply(_, _) =>
    case _ => EntryCalls(s, x);
  }

  lemma SendersKept(s: Session, x: Action)
    requires Senders(s)
    ensures Senders(PromptStep(s, x))
  {
    PromptCalls(s, x);
    SameSenders(s, PromptStep(s, x));
  }

  lemma SameSenders(s: Session, t: Session)
    requires Senders(s) && SameCalls(s, t)
    ensures Senders(t)
  {}

  lemma LookKeeps(s: Session, k: CallId)
    requires Inv(s)
    ensures Inv(CancelStep(s, LookStep(k)))
  {}

  lemma SwapSenders(s: Session, k: CallId)
    requires Senders(s)
    ensures Senders(CancelStep(s, Swap(k)))
  {}

  lemma SwapKeeps(s: Session, k: CallId)
    requires Inv(s)
    ensures Inv(CancelStep(s, Swap(k)))
  {
    SwapSenders(s, k);
    SamePrompts(s, CancelStep(s, Swap(k)));
  }

  lemma SamePrompts(s: Session, t: Session)
    requires PromptInv(s) && t.setup == s.setup && t.active == s.active && t.prompts == s.prompts
    requires t.pending == s.pending && t.installed == s.installed && t.doomed == s.doomed && t.overwrote == s.overwrote
    ensures PromptInv(t)
  {}

  lemma CancelKeeps(s: Session, x: Action)
    requires Inv(s)
    ensures Inv(CancelStep(s, x))
  {
    match x
    case LookStep(k) => LookKeeps(s, k);
    case Swap(k) => SwapKeeps(s, k);
    case CallCancel(k, a) => CallKeeps(s, k, a);
    case Reply(k, status) => ReplyKeeps(s, k, status);
    case _ =>
  }

  lemma CallKeeps(s: Session, k: CallId, a: AttemptId)
    requires Inv(s)
    ensures Inv(CancelStep(s, CallCancel(k, a)))
  {}

  lemma ReplyKeeps(s: Session, k: CallId, status: CancelStatus)
    requires Inv(s)
    ensures Inv(CancelStep(s, Reply(k, status)))
  {}

  lemma {:induction false} RunKeeps(s: Session, schedule: seq<Action>)
    requires Inv(s)
    ensures Inv(Run(s, schedule))
    decreases |schedule|
  {
    if schedule != [] {
      var x := schedule[0];
      PromptKeeps(s, x);
      CancelKeeps(PromptStep(s, x), x);
      RunKeeps(Step(s, x), schedule[1..]);
    }
  }

  // ---- Theorems over all schedules ----

  /**
   * No lost cancellation: a cancel that looked while nothing was active keeps its attempt from ever being
   * installed.
   */
  lemma CancelledBeforeInstallNeverActive(schedule: seq<Action>, a: AttemptId)
    requires a in Run(FRESH, schedule).doomed
    ensures var s := Run(FRESH, schedule); a !in s.installed && s.active != Some(a)
  {
    RunKeeps(FRESH, schedule);
  }

  /** An install never replaces an active attempt, and whoever is installed or running is the active one. */
  lemma OneActiveAttempt(schedule: seq<Action>, a: AttemptId, b: AttemptId)
    requires var s := Run(FRESH, schedule);
        a in s.prompts && b in s.prompts && s.prompts[a].Active() && s.prompts[b].Active()
    ensures a == b && Run(FRESH, schedule).active == Some(a) && !Run(FRESH, schedule).overwrote
  {
    RunKeeps(FRESH, schedule);
    var s := Run(FRESH, schedule);
    assert PhaseOk(s.setup, s.active, a, s.prompts[a]) && PhaseOk(s.setup, s.active, b, s.prompts[b]);
  }

  predicate Commands(phase: CancelPhase, a: AttemptId) {
    (phase.Sending? || phase.Replied?) && phase.attempt == a
  }

  /** At most one cancel call per attempt sends a command, so at most one can return Confirmed. */
  lemma OneCancelCommand(schedule: seq<Action>, a: AttemptId, j: CallId, k: CallId)
    requires var s := Run(FRESH, schedule);
        j in s.cancels && k in s.cancels && Commands(s.cancels[j], a) && Commands(s.cancels[k], a)
    ensures j == k && a in Run(FRESH, schedule).installed
  {
    RunKeeps(FRESH, schedule);
  }
}
