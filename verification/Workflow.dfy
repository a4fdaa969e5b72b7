/**
 * Durable workflow runs: the bounded correction loop of `WorkflowRun`, and the daemon's driver that
 * refreshes the bounds, applies findings or success, and resets the iteration after a clean review.
 */
module Workflow {
  import opened Base

  const MAX_CORRECTION_ITERATIONS := 8

  datatype Phase = Planned | Running | Paused | AwaitingHuman | Completed | Cancelled | Failed
  {
    predicate PermitsDispatch() { Running? }
    predicate IsTerminal() { Completed? || Cancelled? || Failed? }
  }

  datatype Run = Run(steps: nat, index: nat, iteration: nat, phase: Phase, maxIterations: nat, onFindings: Option<nat>)
  {
    predicate Valid() {
      && index < steps && 1 <= iteration <= MAX_CORRECTION_ITERATIONS
      && 1 <= maxIterations <= MAX_CORRECTION_ITERATIONS && (onFindings.Some? ==> onFindings.value < steps)
    }
  }

  predicate InBounds(steps: nat, maxIterations: nat, onFindings: Option<nat>) {
    1 <= maxIterations <= MAX_CORRECTION_ITERATIONS && (onFindings.Some? ==> onFindings.value < steps)
  }

  /** `WorkflowRun::start`; None for `invalid_request`. */
  function Start(steps: nat, maxIterations: nat, onFindings: Option<nat>): (r: Option<Run>)
    ensures r.Some? <==> steps > 0 && InBounds(steps, maxIterations, onFindings)
    ensures r.Some? ==> r.value.Valid() && r.value.phase.Running?
  {
    if steps == 0 || maxIterations == 0 || maxIterations > MAX_CORRECTION_ITERATIONS then None
    else if onFindings.Some? && onFindings.value >= steps then None
    else Some(Run(steps, 0, 1, Running, maxIterations, onFindings))
  }

  datatype Move =
    | Success | Findings | Refresh(maxIterations: nat, onFindings: Option<nat>)
    | Pause | Resume | Cancel | Fail | ResetIteration

  /** The effect of a move; None for its error, which changes nothing. */
  function Moved(r: Run, move: Move): Option<Run> {
    match move
    case Success =>
      if !r.phase.PermitsDispatch() then None
      else if r.index + 1 >= r.steps then Some(r.(phase := Completed))
      else Some(r.(index := r.index + 1))
    case Findings =>
      if !r.phase.PermitsDispatch() || r.onFindings.None? then None
      else if r.iteration >= r.maxIterations then Some(r.(phase := AwaitingHuman))
      else
        var iteration := if r.iteration == U32_MAX then U32_MAX else r.iteration + 1;
        Some(r.(index := r.onFindings.value, iteration := iteration))
    case Refresh(max, target) => Some(r.(maxIterations := max, onFindings := target))
    case Pause => if r.phase.IsTerminal() then None else Some(r.(phase := Paused))
    case Resume => if r.phase.Paused? || r.phase.AwaitingHuman? then Some(r.(phase := Running)) else None
    case Cancel => if r.phase.Completed? || r.phase.Failed? then None else Some(r.(phase := Cancelled))
    case Fail => if r.phase.IsTerminal() then None else Some(r.(phase := Failed))
    case ResetIteration => Some(r.(iteration := 1))
  }

  class WorkflowRun {
    const steps: nat
    var activeStepIndex: nat
    var iteration: nat
    var phase: Phase
    var maxIterations: nat
    var onFindingsStepIndex: Option<nat>

    function View(): Run
      reads this
    {
      Run(steps, activeStepIndex, iteration, phase, maxIterations, onFindingsStepIndex)
    }

    constructor (run: Run)
      ensures View() == run
    {
      steps, activeStepIndex, iteration := run.steps, run.index, run.iteration;
      phase, maxIterations, onFindingsStepIndex := run.phase, run.maxIterations, run.onFindings;
    }

    /** Every error leaves the run untouched. */
    ghost predicate Obeys(before: Run, move: Move, ok: bool)
      reads this
    {
      ok == Moved(before, move).Some? && View() == if ok then Moved(before, move).value else before
    }

    method AdvanceAfterSuccess() returns (ok: bool)
      modifies this`activeStepIndex, this`phase
      ensures Obeys(old(View()), Success, ok)
    {
      if !phase.PermitsDispatch() {
        return false;
      }
      if activeStepIndex + 1 >= steps {
        phase := Completed;
      } else {
        activeStepIndex := activeStepIndex + 1;
      }
      return true;
    }

    method ApplyFindings() returns (ok: bool)
      modifies this`activeStepIndex, this`phase, this`iteration
      ensures Obeys(old(View()), Findings, ok)
    {
      if !phase.PermitsDispatch() || onFindingsStepIndex.None? {
        return false;
      }
      if iteration >= maxIterations {
        phase := AwaitingHuman;
      } else {
        activeStepIndex := onFindingsStepIndex.value;
        iteration := if iteration == U32_MAX then U32_MAX else iteration + 1;
      }
      return true;
    }

    method RefreshStepBounds(max: nat, target: Option<nat>)
      modifies this`maxIterations, this`onFindingsStepIndex
      ensures Obeys(old(View()), Refresh(max, target), true)
    {
      maxIterations, onFindingsStepIndex := max, target;
    }

    method PauseRun() returns (ok: bool)
      modifies this`phase
      ensures Obeys(old(View()), Pause, ok)
    {
      if phase.IsTerminal() {
        return false;
      }
      phase := Paused;
      return true;
    }

    method ResumeRun() returns (ok: bool)
      modifies this`phase
      ensures Obeys(old(View()), Resume, ok)
    {
      if phase.IsTerminal() || !(phase.Paused? || phase.AwaitingHuman?) {
        return false;
      }
      phase := Running;
      return true;
    }

    method CancelRun() returns (ok: bool)
      modifies this`phase
      ensures Obeys(old(View()), Cancel, ok)
    {
      if phase.Cancelled? {
        return true;
      }
      if phase.IsTerminal() {
        return false;
      }
      phase := Cancelled;
      return true;
    }

    method FailRun() returns (ok: bool)
      modifies this`phase
      ensures Obeys(old(View()), Fail, ok)
    {
      if phase.IsTerminal() {
        return false;
      }
      phase := Failed;
      return true;
    }

    method ResetRun()
      modifies this`iteration
      ensures Obeys(old(View()), ResetIteration, true)
    {
      iteration := 1;
    }

    method RefreshFrom(w: seq<Step>)
      modifies this`maxIterations, this`onFindingsStepIndex
      ensures View() == Refreshed(w, old(View()))
    {
      if activeStepIndex < |w| {
        RefreshStepBounds(w[activeStepIndex].maxIterations, w[activeStepIndex].onFindings);
      }
    }
  }

  /**
   * What the daemon makes of the durable run when an attempt ends, with or without findings: it works on a copy,
   * so an error - the run is neither running nor over - leaves what is durable alone.
   */
  method AdvanceAfterAttempt(durable: Run, w: seq<Step>, findings: bool) returns (r: Result<Run, ()>)
    ensures r.Err? <==> !durable.phase.Running? && !durable.phase.IsTerminal()
    ensures r.Ok? ==> r.value == Turn(w, durable, findings)
  {
    if durable.phase.IsTerminal() {
      return Ok(durable);
    }
    var run := new WorkflowRun(durable);
    run.RefreshFrom(w);
    if findings && run.onFindingsStepIndex.Some? {
      var applied := run.ApplyFindings();
      return if applied then Ok(run.View()) else Err(());
    }
    var reviewed := run.onFindingsStepIndex.Some?;
    var advanced := run.AdvanceAfterSuccess();
    if !advanced {
      return Err(());
    }
    if reviewed {
      run.ResetRun();
    }
    if !run.phase.Completed? {
      run.RefreshFrom(w);
    }
    return Ok(run.View());
  }

  // ---- The bound on automatic moves ----

  predicate Bounds(steps: nat, move: Move) {
    move.Refresh? ==> InBounds(steps, move.maxIterations, move.onFindings)
  }

  /** A schedule without a resume or an iteration reset, whose refreshes are in range. */
  ghost predicate Automatic(steps: nat, moves: seq<Move>) {
    forall i | 0 <= i < |moves| :: !moves[i].Resume? && !moves[i].ResetIteration? && Bounds(steps, moves[i])
  }

  /** The run after a schedule, moves that fail being no-ops. */
  function After(r: Run, moves: seq<Move>): Run
    decreases |moves|
  {
    if moves == [] then r else After(if Moved(r, moves[0]).Some? then Moved(r, moves[0]).value else r, moves[1..])
  }

  /** How many moves of the schedule advanced or corrected the run. */
  function Count(r: Run, moves: seq<Move>): nat
    decreases |moves|
  {
    if moves == [] then 0
    else
      var next := Moved(r, moves[0]);
      (if (moves[0].Success? || moves[0].Findings?) && next.Some? then 1 else 0) +
      Count(if next.Some? then next.value else r, moves[1..])
  }

  lemma {:induction false} TimesIsProduct(k: nat, n: nat)
    ensures Times(k, n) == k * n
    decreases k
  {
    if k > 0 {
      TimesIsProduct(k - 1, n);
      assert k * n == (k - 1) * n + n;
    }
  }

  /** (8 - iteration) * steps + (steps - index) */
  function Measure(r: Run): nat
    requires r.Valid()
  {
    Times(MAX_CORRECTION_ITERATIONS - r.iteration, r.steps) + (r.steps - r.index)
  }

  lemma MoveMeasure(r: Run, move: Move)
    requires r.Valid() && Bounds(r.steps, move) && Moved(r, move).Some? && !move.Resume? && !move.ResetIteration?
    ensures
      var t := Moved(r, move).value;
      && t.Valid() && t.steps == r.steps
      && (!r.phase.Running? ==> !t.phase.Running?)
      && (move.Success? || move.Findings? ==> r.phase.Running? && (t.phase.Running? ==> Measure(t) < Measure(r)))
      && (!move.Success? && !move.Findings? ==> Measure(t) == Measure(r))
  {}

  lemma {:induction false} CountIsBounded(r: Run, moves: seq<Move>)
    requires r.Valid() && Automatic(r.steps, moves)
    ensures Count(r, moves) <= if r.phase.Running? then Measure(r) else 0
    ensures After(r, moves).Valid()
    decreases |moves|
  {
    if moves != [] {
      var next := Moved(r, moves[0]);
      if next.Some? { MoveMeasure(r, moves[0]); }
      CountIsBounded(if next.Some? then next.value else r, moves[1..]);
    }
  }

  /**
   * Termination: from any start, every automatic mix of successes, findings, refreshes, pauses,
   * cancels and failures makes at most eight moves per step, and index, target and iteration stay
   * in range throughout.
   */
  lemma AutomaticMovesAreBounded(steps: nat, max: nat, target: Option<nat>, moves: seq<Move>)
    requires Start(steps, max, target).Some? && Automatic(steps, moves)
    ensures
      var r := Start(steps, max, target).value;
      Count(r, moves) <= MAX_CORRECTION_ITERATIONS * steps && After(r, moves).Valid()
  {
    CountIsBounded(Start(steps, max, target).value, moves);
    TimesIsProduct(8, steps);
  }

  function Repeat(move: Move, n: nat): seq<Move> { if n == 0 then [] else [move] + Repeat(move, n - 1) }

  /** One full pass over the steps from index 0, ending in findings: `steps` moves. */
  function Pass(steps: nat): seq<Move>
    requires steps > 0
  {
    Repeat(Success, steps - 1) + [Findings]
  }

  function Passes(steps: nat, n: nat): seq<Move>
    requires steps > 0
  {
    if n == 0 then Repeat(Success, steps) else Pass(steps) + Passes(steps, n - 1)
  }

  lemma {:induction false} CountConcat(r: Run, a: seq<Move>, b: seq<Move>)
    ensures After(r, a + b) == After(After(r, a), b) && Count(r, a + b) == Count(r, a) + Count(After(r, a), b)
    decreases |a|
  {
    if a == [] {
      assert a + b == b;
    } else {
      assert (a + b)[0] == a[0] && (a + b)[1..] == a[1..] + b;
      CountConcat(if Moved(r, a[0]).Some? then Moved(r, a[0]).value else r, a[1..], b);
    }
  }

  lemma {:induction false} Successes(r: Run, n: nat)
    requires r.Valid() && r.phase.Running? && n < r.steps - r.index
    ensures After(r, Repeat(Success, n)) == r.(index := r.index + n) && Count(r, Repeat(Success, n)) == n
    decreases n
  {
    if n > 0 {
      assert Repeat(Success, n)[1..] == Repeat(Success, n - 1);
      Successes(r.(index := r.index + 1), n - 1);
    }
  }

  lemma {:induction false} RepeatEnd(move: Move, n: nat)
    ensures Repeat(move, n + 1) == Repeat(move, n) + [move]
  {
    if n > 0 { RepeatEnd(move, n - 1); }
  }

  lemma OneFinding(r: Run)
    requires r.Valid() && r.phase.Running? && r.onFindings == Some(0) && r.iteration < r.maxIterations
    ensures After(r, [Findings]) == r.(index := 0, iteration := r.iteration + 1) && Count(r, [Findings]) == 1
  {
    assert [Findings][1..] == [];
  }

  lemma EndInFinding(r: Run, walk: seq<Move>)
    requires
      var end := After(r, walk);
      end.Valid() && end.phase.Running? && end.onFindings == Some(0) && end.iteration < end.maxIterations
    ensures After(r, walk + [Findings]) == After(r, walk).(index := 0, iteration := After(r, walk).iteration + 1)
    ensures Count(r, walk + [Findings]) == Count(r, walk) + 1
  {
    OneFinding(After(r, walk));
    CountConcat(r, walk, [Findings]);
  }

  lemma OnePass(r: Run)
    requires r.Valid() && r.phase.Running? && r.index == 0 && r.onFindings == Some(0) && r.iteration < r.maxIterations
    ensures After(r, Pass(r.steps)) == r.(iteration := r.iteration + 1) && Count(r, Pass(r.steps)) == r.steps
  {
    Successes(r, r.steps - 1);
    EndInFinding(r, Repeat(Success, r.steps - 1));
  }

  lemma LastPass(r: Run)
    requires r.Valid() && r.phase.Running? && r.index == 0
    ensures Count(r, Repeat(Success, r.steps)) == r.steps && After(r, Repeat(Success, r.steps)).phase.Completed?
  {
    Successes(r, r.steps - 1);
    RepeatEnd(Success, r.steps - 1);
    CountConcat(r, Repeat(Success, r.steps - 1), [Success]);
    assert [Success][1..] == [];
  }

  lemma {:induction false} PassesCount(r: Run, n: nat)
    requires r.Valid() && r.phase.Running? && r.index == 0 && r.onFindings == Some(0) && r.maxIterations == 8 &&
        r.iteration == 8 - n
    ensures Count(r, Passes(r.steps, n)) == Times(n + 1, r.steps) && After(r, Passes(r.steps, n)).phase.Completed?
    decreases n
  {
    if n == 0 {
      LastPass(r);
    } else {
      OnePass(r);
      CountConcat(r, Pass(r.steps), Passes(r.steps, n - 1));
      PassesCount(r.(iteration := r.iteration + 1), n - 1);
    }
  }

  lemma {:induction false} PassesAreAutomatic(steps: nat, n: nat)
    requires steps > 0
    ensures Automatic(steps, Passes(steps, n))
    decreases n
  {
    RepeatIsAutomatic(steps, steps);
    RepeatIsAutomatic(steps, steps - 1);
    if n > 0 { PassesAreAutomatic(steps, n - 1); }
  }

  lemma {:induction false} RepeatIsAutomatic(steps: nat, n: nat)
    ensures Automatic(steps, Repeat(Success, n))
    decreases n
  {
    if n > 0 { RepeatIsAutomatic(steps, n - 1); }
  }

  /** The bound is attained for every number of steps. */
  lemma BoundIsTight(steps: nat)
    requires steps > 0
    ensures Automatic(steps, Passes(steps, 7))
    ensures Count(Start(steps, 8, Some(0)).value, Passes(steps, 7)) == MAX_CORRECTION_ITERATIONS * steps
  {
    PassesAreAutomatic(steps, 7);
    PassesCount(Start(steps, 8, Some(0)).value, 7);
    TimesIsProduct(8, steps);
  }

  // ---- The daemon's driver ----

  /** A configured step as the driver sees it: its findings target resolved to an index, its bound defaulted. */
  datatype Step = Step(onFindings: Option<nat>, maxIterations: nat)

  ghost predicate ValidSteps(w: seq<Step>) {
    forall i | 0 <= i < |w| ::
      1 <= w[i].maxIterations <= MAX_CORRECTION_ITERATIONS && (w[i].onFindings.Some? ==> w[i].onFindings.value < |w|)
  }

  function Refreshed(w: seq<Step>, r: Run): Run {
    if r.index < |w| then r.(maxIterations := w[r.index].maxIterations, onFindings := w[r.index].onFindings) else r
  }

  /** One finished attempt: refresh, then correct or advance; a clean pass of a reviewing step resets the iteration. */
  function Turn(w: seq<Step>, r: Run, findings: bool): Run {
    if !r.phase.Running? then r
    else
      var s := Refreshed(w, r);
      if findings && s.onFindings.Some? then Moved(s, Findings).value
      else
        var t := Moved(s, Success).value;
        var u := if s.onFindings.Some? then t.(iteration := 1) else t;
        if u.phase.Completed? then u else Refreshed(w, u)
  }

  function Turns(w: seq<Step>, r: Run, verdicts: seq<bool>): Run
    decreases |verdicts|
  {
    if verdicts == [] then r else Turns(w, Turn(w, r, verdicts[0]), verdicts[1..])
  }

  /** No step that may send work back has another reviewing step on the stretch that is then repeated. */
  ghost predicate NoResetInsideALoop(w: seq<Step>) {
    forall i, k | 0 <= i < |w| && w[i].onFindings.Some? && w[i].maxIterations >= 2 && w[i].onFindings.value <= k < i ::
      w[k].onFindings.None?
  }

  /** Reviewing steps from `i` on. */
  function Reviews(w: seq<Step>, i: nat): nat
    decreases |w| - i
  {
    if i >= |w| then 0 else (if w[i].onFindings.Some? then 1 else 0) + Reviews(w, i + 1)
  }

  /** The state of a driven run. */
  ghost predicate Driven(w: seq<Step>, r: Run) { ValidSteps(w) && r.steps == |w| && r.Valid() }

  function DriverMeasure(w: seq<Step>, r: Run): nat
    requires r.Valid()
  {
    Times(Reviews(w, r.index), 8 * r.steps) + Measure(r)
  }

  lemma {:induction false} SameReviews(w: seq<Step>, i: nat, j: nat)
    requires i <= j <= |w| && forall k | i <= k < j :: w[k].onFindings.None?
    ensures Reviews(w, i) == Reviews(w, j)
    decreases j - i
  {
    if i < j { SameReviews(w, i + 1, j); }
  }

  lemma {:induction false} FewerReviews(w: seq<Step>, i: nat, j: nat)
    requires i <= j
    ensures Reviews(w, j) <= Reviews(w, i)
    decreases j - i
  {
    if i < j { FewerReviews(w, i + 1, j); }
  }

  lemma CorrectionDescends(w: seq<Step>, r: Run)
    requires Driven(w, r) && NoResetInsideALoop(w) && r.phase.Running? && w[r.index].onFindings.Some?
    ensures var t := Turn(w, r, true); Driven(w, t) && (t.phase.Running? ==> DriverMeasure(w, t) < DriverMeasure(w, r))
  {
    var j := w[r.index].onFindings.value;
    if Turn(w, r, true).phase.Running? {
      if j <= r.index { SameReviews(w, j, r.index); } else { FewerReviews(w, r.index, j); }
      TimesGrows(Reviews(w, j), Reviews(w, r.index), 8 * r.steps);
    }
  }

  lemma SuccessDescends(w: seq<Step>, r: Run, findings: bool)
    requires Driven(w, r) && r.phase.Running? && !(findings && w[r.index].onFindings.Some?)
    ensures var t := Turn(w, r, findings);
        Driven(w, t) && (t.phase.Running? ==> DriverMeasure(w, t) < DriverMeasure(w, r))
  {
    TimesIsProduct(7, r.steps);
  }

  lemma {:induction false} TurnsDescend(w: seq<Step>, r: Run, verdicts: seq<bool>)
    requires Driven(w, r) && NoResetInsideALoop(w)
    ensures var t := Turns(w, r, verdicts);
      Driven(w, t) && (t.phase.Running? ==> r.phase.Running? && DriverMeasure(w, t) + |verdicts| <= DriverMeasure(w, r))
    decreases |verdicts|
  {
    if verdicts != [] {
      if r.phase.Running? {
        if verdicts[0] && w[r.index].onFindings.Some? {
          CorrectionDescends(w, r);
        } else {
          SuccessDescends(w, r, verdicts[0]);
        }
      }
      TurnsDescend(w, Turn(w, r, verdicts[0]), verdicts[1..]);
    }
  }

  /** The most turns a workflow without a resetting loop can take. */
  function TurnLimit(w: seq<Step>): nat { Times(Reviews(w, 0) + 1, 8 * |w|) }

  function First(w: seq<Step>): Run
    requires w != []
  {
    Run(|w|, 0, 1, Running, w[0].maxIterations, w[0].onFindings)
  }

  /** Without a reset inside a loop, every driven workflow stops within its turn limit, whatever the verdicts. */
  lemma DriverStops(w: seq<Step>, verdicts: seq<bool>)
    requires w != [] && ValidSteps(w) && NoResetInsideALoop(w) && |verdicts| >= TurnLimit(w)
    ensures !Turns(w, First(w), verdicts).phase.Running?
  {
    TurnsDescend(w, First(w), verdicts);
    TimesIsProduct(7, |w|);
  }

  // ---- The condition is exact ----

  function Clean(n: nat): seq<bool> { if n == 0 then [] else [false] + Clean(n - 1) }

  predicate ReviewIn(w: seq<Step>, i: nat, j: nat)
    requires i <= j <= |w|
  {
    exists k | i <= k < j :: w[k].onFindings.Some?
  }

  /** Clean turns walk forward; passing a review resets the iteration. */
  lemma {:induction false} CleanWalk(w: seq<Step>, r: Run, n: nat)
    requires Driven(w, r) && r.phase.Running? && r.index + n < |w|
    ensures
      var t := Turns(w, r, Clean(n));
      && Driven(w, t) && t.phase.Running? && t.index == r.index + n
      && t.iteration == (if ReviewIn(w, r.index, r.index + n) then 1 else r.iteration)
    decreases n
  {
    if n > 0 {
      assert Clean(n)[1..] == Clean(n - 1);
      CleanTurn(w, r);
      CleanWalk(w, Turn(w, r, false), n - 1);
      FirstReview(w, r.index, r.index + n);
    }
  }

  lemma CleanTurn(w: seq<Step>, r: Run)
    requires Driven(w, r) && r.phase.Running? && r.index + 1 < |w|
    ensures
      var u := Turn(w, r, false);
      && Driven(w, u) && u.phase.Running? && u.index == r.index + 1
      && u.iteration == if w[r.index].onFindings.Some? then 1 else r.iteration
  {
    SuccessDescends(w, r, false);
  }

  lemma FirstReview(w: seq<Step>, i: nat, j: nat)
    requires i < j <= |w|
    ensures ReviewIn(w, i, j) <==> w[i].onFindings.Some? || ReviewIn(w, i + 1, j)
  {}

  lemma {:induction false} TurnsConcat(w: seq<Step>, r: Run, a: seq<bool>, b: seq<bool>)
    ensures Turns(w, r, a + b) == Turns(w, Turns(w, r, a), b)
    decreases |a|
  {
    if a == [] {
      assert a + b == b;
    } else {
      assert (a + b)[0] == a[0] && (a + b)[1..] == a[1..] + b;
      TurnsConcat(w, Turn(w, r, a[0]), a[1..], b);
    }
  }

  /** One round: findings at `i`, then a clean walk from its target back to `i`. */
  function Round(i: nat, j: nat): seq<bool>
    requires j <= i
  {
    [true] + Clean(i - j)
  }

  function Rounds(i: nat, j: nat, n: nat): seq<bool>
    requires j <= i
  {
    if n == 0 then [] else Round(i, j) + Rounds(i, j, n - 1)
  }

  ghost predicate Loop(w: seq<Step>, i: nat, j: nat) {
    j < i < |w| && w[i].onFindings == Some(j) && w[i].maxIterations >= 2 && ReviewIn(w, j, i)
  }

  lemma RoundReturns(w: seq<Step>, r: Run, i: nat, j: nat)
    requires Driven(w, r) && Loop(w, i, j) && r.phase.Running? && r.index == i && r.iteration == 1
    ensures var t := Turns(w, r, Round(i, j)); Driven(w, t) && t.phase.Running? && t.index == i && t.iteration == 1
  {
    var u := Turn(w, r, true);
    assert Driven(w, u) && u.phase.Running? && u.index == j;
    assert Round(i, j)[1..] == Clean(i - j);
    CleanWalk(w, u, i - j);
  }

  lemma {:induction false} RoundsReturn(w: seq<Step>, r: Run, i: nat, j: nat, n: nat)
    requires Driven(w, r) && Loop(w, i, j) && r.phase.Running? && r.index == i && r.iteration == 1
    ensures Turns(w, r, Rounds(i, j, n)).phase.Running? && |Rounds(i, j, n)| >= n
    decreases n
  {
    if n > 0 {
      RoundReturns(w, r, i, j);
      TurnsConcat(w, r, Round(i, j), Rounds(i, j, n - 1));
      RoundsReturn(w, Turns(w, r, Round(i, j)), i, j, n - 1);
    }
  }

  /** With a reset inside a loop some verdicts keep the workflow running for as long as one likes. */
  lemma DriverMayNeverStop(w: seq<Step>, n: nat) returns (verdicts: seq<bool>)
    requires w != [] && ValidSteps(w) && !NoResetInsideALoop(w)
    ensures |verdicts| >= n && Turns(w, First(w), verdicts).phase.Running?
  {
    var i, k :| 0 <= i < |w| && w[i].onFindings.Some? && w[i].maxIterations >= 2 && w[i].onFindings.value <= k < i &&
        w[k].onFindings.Some?;
    var j := w[i].onFindings.value;
    assert ReviewIn(w, j, i);
    CleanWalk(w, First(w), i);
    var at := Turns(w, First(w), Clean(i));
    verdicts := Clean(i) + Rounds(i, j, n);
    TurnsConcat(w, First(w), Clean(i), Rounds(i, j, n));
    RoundsReturn(w, at, i, j, n);
  }

  /** The driver's correction loop is bounded if and only if no reset lies inside a loop. */
  lemma DriverStopsExactlyWhen(w: seq<Step>)
    requires w != [] && ValidSteps(w)
    ensures NoResetInsideALoop(w) <==>
            exists limit: nat :: StopsWithin(w, limit)
  {
    if NoResetInsideALoop(w) {
      forall verdicts: seq<bool> | |verdicts| >= TurnLimit(w) ensures !Turns(w, First(w), verdicts).phase.Running? {
        DriverStops(w, verdicts);
      }
      assert StopsWithin(w, TurnLimit(w));
    } else {
      forall limit: nat ensures !StopsWithin(w, limit) {
        var verdicts := DriverMayNeverStop(w, limit);
      }
    }
  }

  ghost predicate StopsWithin(w: seq<Step>, limit: nat)
    requires w != []
  {
    forall verdicts: seq<bool> | |verdicts| >= limit :: !Turns(w, First(w), verdicts).phase.Running?
  }
}
