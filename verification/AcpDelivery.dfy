/** Delivery on an ACP connection, the other half: a consumer that keeps calling `next` gets everything. */
module AcpDelivery {
  import opened Base
  import opened AcpConnection

  // ---- What everyone else may do to a prompt ----

  /**
   * `r` is `q` after moves of others: more may be queued until it is finished, and nothing the consumer owns
   * changes.
   */
  ghost predicate Grew(q: Prompt, r: Prompt) {
    && r.consumer == q.consumer && r.seen == q.seen && r.finished == q.finished && r.receiverAlive == q.receiverAlive
    && q.queue <= r.queue && q.enqueued <= r.enqueued && (q.stage.ReturnedOk() ==> r.stage.ReturnedOk())
    && (q.terminals != [] ==> r.terminals == q.terminals && r.queue == q.queue && r.enqueued == q.enqueued)
  }

  predicate Consumes(a: Action, p: PromptId) { a == Poll(p) || a == AbandonNext(p) || a == DropReceiver(p) }

  lemma SameGrows(q: Prompt, r: Prompt)
    requires r == q.(stage := r.stage, mailbox := r.mailbox) && (q.stage.ReturnedOk() ==> r.stage.ReturnedOk())
    ensures Grew(q, r)
  {}

  lemma TerminalGrows(q: Prompt, stage: Stage, t: Terminal)
    requires q.terminals == [] && (q.stage.ReturnedOk() ==> stage.ReturnedOk())
    ensures Grew(q, Finished(q.(stage := stage), t))
  {}

  lemma FinishRecord(c: Conn, session: SessionId, t: Terminal, p: PromptId)
    requires p in c.records
    ensures
      var next := FinishSession(c, session, t);
      && p in next.records
      && next.records[p] ==
         if session in c.prompts && c.prompts[session] == p then Finished(c.records[p], t) else c.records[p]
  {}

  lemma AtRecord(c: Conn, q: PromptId, stage: Stage, p: PromptId)
    requires p in c.records && q in c.records
    ensures
      var d := c.At(q, stage);
      p in d.records && d.records[p] == c.records[p].(stage := if p == q then stage else c.records[p].stage)
  {}

  /** `q` leaves and finishes its session key, which any prompt of that session may hold. */
  lemma LeaveGrows(c: Conn, q: PromptId, stage: Stage, t: Terminal, p: PromptId)
    requires Slots(c.prompts, c.records) && p in c.records && q in c.records
    requires c.records[q].stage.ReturnedOk() ==> stage.ReturnedOk()
    ensures
      var next := FinishSession(c.At(q, stage), c.records[q].session, t);
      p in next.records && Grew(c.records[p], next.records[p])
  {
    var d, session, r := c.At(q, stage), c.records[q].session, c.records[p];
    AtRecord(c, q, stage, p);
    FinishRecord(d, session, t, p);
    if session in c.prompts && c.prompts[session] == p {
      TerminalGrows(r, d.records[p].stage, t);
    } else {
      SameGrows(r, d.records[p]);
    }
  }

  lemma LeavingGrows(c: Conn, a: Action, p: PromptId)
    requires Slots(c.prompts, c.records) && p in c.records && (a.Refuse? || a.Resolve?)
    ensures p in StartStep(c, a).records && Grew(c.records[p], StartStep(c, a).records[p])
  {
    if a.p in c.records {
      var r := c.records[a.p];
      if a.Refuse? && r.stage.Refusing? {
        LeaveGrows(c, a.p, Refused(r.stage.error), Terminal(Err(r.stage.error), ByStart(a.p)), p);
      }
      if a.Resolve? && r.stage.Resolving? {
        var stage := Resolved(r.stage.id, r.stage.delivery);
        LeaveGrows(c, a.p, stage, Terminal(OutcomeOf(r.stage.delivery), ByTask(a.p)), p);
      }
    }
  }

  lemma AtGrows(c: Conn, q: PromptId, stage: Stage, p: PromptId)
    requires p in c.records && q in c.records && (c.records[q].stage.ReturnedOk() ==> stage.ReturnedOk())
    ensures Grew(c.records[p], c.At(q, stage).records[p])
  {
    SameGrows(c.records[p], c.At(q, stage).records[p]);
  }

  lemma EnteringGrows(c: Conn, a: Action, p: PromptId)
    requires p in c.records && (a.CheckClosed? || a.EncodeFails?)
    ensures p in StartStep(c, a).records && Grew(c.records[p], StartStep(c, a).records[p])
  {
    SameGrows(c.records[p], c.records[p]);
    if a.p in c.records && !c.records[a.p].stage.ReturnedOk() {
      var checked := if c.closed then Refusing(ShuttingDown) else CheckedOpen;
      AtGrows(c, a.p, if a.EncodeFails? then Refusing(a.error) else checked, p);
    }
  }

  lemma RegisterGrows(c: Conn, q: PromptId, id: RequestId, p: PromptId)
    requires p in c.records
    ensures
      var next := StartStep(c, Register(q, id));
      p in next.records && Grew(c.records[p], next.records[p])
  {
    SameGrows(c.records[p], c.records[p]);
    if q in c.records && !c.records[q].stage.ReturnedOk() { AtGrows(c, q, Sending(id), p); }
  }

  lemma QueueingGrows(c: Conn, a: Action, p: PromptId)
    requires p in c.records && (a.FrameQueued? || a.QueueFails?)
    ensures p in StartStep(c, a).records && Grew(c.records[p], StartStep(c, a).records[p])
  {
    SameGrows(c.records[p], c.records[p]);
    if a.p in c.records && c.records[a.p].stage.Sending? {
      var id := c.records[a.p].stage.id;
      AtGrows(c, a.p, if a.FrameQueued? then Waiting(id) else Withdrawing(id, a.error), p);
    }
  }

  lemma ReceivingGrows(c: Conn, a: Action, p: PromptId)
    requires p in c.records && (a.Withdraw? || a.Receive?)
    ensures p in StartStep(c, a).records && Grew(c.records[p], StartStep(c, a).records[p])
  {
    SameGrows(c.records[p], c.records[p]);
    if a.p in c.records {
      var r := c.records[a.p];
      if a.Withdraw? && r.stage.Withdrawing? { AtGrows(c, a.p, Refusing(r.stage.error), p); }
      if a.Receive? && r.stage.Waiting? && r.mailbox.Some? {
        AtGrows(c, a.p, Resolving(r.stage.id, r.mailbox.value), p);
      }
    }
  }

  lemma StartGrows(c: Conn, a: Action, p: PromptId)
    requires Slots(c.prompts, c.records) && p in c.records
    ensures p in StartStep(c, a).records && Grew(c.records[p], StartStep(c, a).records[p])
  {
    if a.Refuse? || a.Resolve? {
      LeavingGrows(c, a, p);
    } else if a.CheckClosed? || a.EncodeFails? {
      EnteringGrows(c, a, p);
    } else if a.Register? {
      RegisterGrows(c, a.p, a.id, p);
    } else if a.FrameQueued? || a.QueueFails? {
      QueueingGrows(c, a, p);
    } else if a.Withdraw? || a.Receive? {
      ReceivingGrows(c, a, p);
    } else {
      SameGrows(c.records[p], c.records[p]);
    }
  }

  lemma NotifyGrows(c: Conn, a: Action, p: PromptId)
    requires Slots(c.prompts, c.records) && p in c.records && a.Notify?
    ensures p in PeerStep(c, a).records && Grew(c.records[p], PeerStep(c, a).records[p])
  {}

  lemma DrainGrows(c: Conn, a: Action, p: PromptId)
    requires Slots(c.prompts, c.records) && p in c.records && (a.DrainPending? || a.DrainPrompts?)
    ensures p in PeerStep(c, a).records && Grew(c.records[p], PeerStep(c, a).records[p])
  {}

  lemma PeerGrows(c: Conn, a: Action, p: PromptId)
    requires p in c.records && !Consumes(a, p) && !a.Notify? && !a.DrainPending? && !a.DrainPrompts?
    ensures p in PeerStep(c, a).records && Grew(c.records[p], PeerStep(c, a).records[p])
  {
    if a.Respond? {
      RespondGrows(c, a.id, a.reply, p);
    } else {
      assert PeerStep(c, a).records == c.records || (a.Poll? || a.AbandonNext? || a.DropReceiver?);
      assert PeerStep(c, a).records[p] == c.records[p];
      SameGrows(c.records[p], c.records[p]);
    }
  }

  lemma RespondGrows(c: Conn, id: RequestId, reply: Reply, p: PromptId)
    requires p in c.records
    ensures
      var next := PeerStep(c, Respond(id, reply));
      p in next.records && Grew(c.records[p], next.records[p])
  {
    var next := PeerStep(c, Respond(id, reply));
    assert next.records[p] == c.records[p].(mailbox := next.records[p].mailbox);
    SameGrows(c.records[p], next.records[p]);
  }

  lemma OthersOnlyAdd(c: Conn, a: Action, p: PromptId)
    requires Inv(c) && p in c.records && !Consumes(a, p)
    ensures p in Step(c, a).records && Grew(c.records[p], Step(c, a).records[p])
  {
    StartGrows(c, a, p);
    StartKeeps(c, a);
    var d := StartStep(c, a);
    if a.Notify? {
      NotifyGrows(d, a, p);
    } else if a.DrainPending? || a.DrainPrompts? {
      DrainGrows(d, a, p);
    } else {
      PeerGrows(d, a, p);
    }
  }

  lemma ConsumerKeepsTheRest(c: Conn, a: Action, p: PromptId)
    requires p in c.records && Consumes(a, p)
    ensures p in Step(c, a).records && OnlyStream(c.records[p], Step(c, a).records[p])
  {
    assert StartStep(c, a) == c;
    PolledSame(c.records[p], InSlot(c.prompts, p, c.records[p]));
  }

  // ---- Counting the consumer's moves ----

  predicate Undisturbed(schedule: seq<Action>, p: PromptId) {
    forall i | 0 <= i < |schedule| :: schedule[i] != AbandonNext(p) && schedule[i] != DropReceiver(p)
  }

  function Polls(schedule: seq<Action>, p: PromptId): nat {
    if schedule == [] then 0 else (if schedule[0] == Poll(p) then 1 else 0) + Polls(schedule[1..], p)
  }

  /** How many more moves a finished prompt's consumer needs to have been told so. */
  function Work(r: Prompt): nat {
    if r.finished then 0
    else if r.consumer.Idle? then 2 * |r.queue| + 2
    else if r.queue == [] && r.consumer.SawPending? then 3
    else 2 * |r.queue| + 1
  }

  /** How many things it will then have seen. */
  function Length(r: Prompt): nat { if r.finished then |r.seen| else |r.enqueued| + 1 }

  /** `next` is `r` after `k` moves of its consumer, the prompt being finished. */
  ghost predicate Told(r: Prompt, next: Prompt, k: nat) {
    && next.terminals == r.terminals && next.enqueued == r.enqueued && (next.finished <==> k >= Work(r))
    && (if k < Work(r) then Work(next) == Work(r) - k && Length(next) == Length(r)
        else |next.seen| == Length(r) + k - Work(r))
  }

  lemma ToldMore(r: Prompt, s: Prompt, t: Prompt, j: nat, k: nat)
    requires Told(r, s, j) && Told(s, t, k)
    ensures Told(r, t, j + k)
  {}

  lemma PollTells(r: Prompt, inSlot: bool)
    requires StreamOk(r) && r.State().Some?
    ensures Told(r, Polled(r, inSlot), 1)
  {}

  lemma GrowthTellsNothing(r: Prompt, next: Prompt)
    requires Grew(r, next) && r.State().Some?
    ensures Told(r, next, 0)
  {}

  lemma StepInv(c: Conn, a: Action)
    requires Inv(c)
    ensures Inv(Step(c, a))
  {
    StartKeeps(c, a);
    PeerKeeps(StartStep(c, a), a);
  }

  lemma PollStep(c: Conn, p: PromptId)
    requires p in c.records && Reading(c.records[p])
    ensures
      var next := Step(c, Poll(p));
      && p in next.records && Reading(next.records[p])
      && next.records[p] == Polled(c.records[p], InSlot(c.prompts, p, c.records[p]))
  {}

  lemma StepTells(c: Conn, a: Action, p: PromptId)
    requires Inv(c) && p in c.records && Reading(c.records[p]) && c.records[p].State().Some?
    requires a != AbandonNext(p) && a != DropReceiver(p)
    ensures
      var next := Step(c, a);
      && p in next.records && Reading(next.records[p])
      && Told(c.records[p], next.records[p], if a == Poll(p) then 1 else 0)
  {
    var r := c.records[p];
    if a == Poll(p) {
      assert StreamOk(r);
      PollStep(c, p);
      PollTells(r, InSlot(c.prompts, p, r));
    } else {
      OthersOnlyAdd(c, a, p);
      GrowthTellsNothing(r, Step(c, a).records[p]);
    }
  }

  function Polled1(schedule: seq<Action>, p: PromptId): nat
    requires schedule != []
  {
    if schedule[0] == Poll(p) then 1 else 0
  }

  /** The first move of a schedule, for a prompt that has ended. */
  lemma TellingMove(c: Conn, schedule: seq<Action>, p: PromptId) returns (next: Conn)
    requires Inv(c) && p in c.records && Reading(c.records[p]) && c.records[p].State().Some?
    requires schedule != [] && Undisturbed(schedule, p)
    ensures Inv(next) && p in next.records && Reading(next.records[p]) && Undisturbed(schedule[1..], p)
    ensures Told(c.records[p], next.records[p], Polled1(schedule, p)) && Run(c, schedule) == Run(next, schedule[1..])
  {
    next := Step(c, schedule[0]);
    StepTells(c, schedule[0], p);
    StepInv(c, schedule[0]);
  }

  /** Once a prompt is finished, its consumer is told by its own moves alone, whatever else happens between them. */
  lemma {:induction false} ConsumerIsTold(c: Conn, schedule: seq<Action>, p: PromptId)
    requires Inv(c) && p in c.records && Reading(c.records[p]) && c.records[p].State().Some? && Undisturbed(schedule, p)
    ensures p in Run(c, schedule).records && Told(c.records[p], Run(c, schedule).records[p], Polls(schedule, p))
    decreases |schedule|
  {
    if schedule != [] {
      var next := TellingMove(c, schedule, p);
      var rest := schedule[1..];
      ConsumerIsTold(next, rest, p);
      ToldMore(c.records[p], next.records[p], Run(next, rest).records[p], Polled1(schedule, p), Polls(rest, p));
    }
  }

  /**
   * Exact delivery, complete: from every reachable state in which a prompt is finished, its consumer has seen
   * all enqueued updates and then the result after exactly `Work` moves, with any other actions in between;
   * every move after that is one more None.
   */
  lemma EverythingArrives(before: seq<Action>, schedule: seq<Action>, p: PromptId)
    requires p in Run(FRESH, before).records && Undisturbed(schedule, p)
    requires var r := Run(FRESH, before).records[p]; Reading(r) && r.State().Some? && !r.finished
    ensures
      var r := Run(FRESH, before).records[p];
      var k := Polls(schedule, p);
      && p in Run(Run(FRESH, before), schedule).records
      && var next := Run(Run(FRESH, before), schedule).records[p];
      && (next.finished <==> k >= Work(r))
      && (k >= Work(r) ==>
            && |next.seen| == |r.enqueued| + 1 + (k - Work(r))
            && (forall i | 0 <= i < |r.enqueued| :: next.seen[i] == GotUpdate(r.enqueued[i]))
            && next.seen[|r.enqueued|] == GotFinished(r.State().value)
            && (forall i | |r.enqueued| < i < |next.seen| :: next.seen[i] == GotNone))
  {
    RunKeeps(FRESH, before);
    var c := Run(FRESH, before);
    ConsumerIsTold(c, schedule, p);
    RunKeeps(c, schedule);
    var next := Run(c, schedule).records[p];
    assert StreamOk(next);
    if next.finished { AllOfIt(next); }
  }

  lemma AllOfIt(r: Prompt)
    requires StreamOk(r) && r.finished
    ensures forall i | 0 <= i < |r.enqueued| :: r.seen[i] == GotUpdate(r.enqueued[i])
    ensures r.seen[|r.enqueued|] == GotFinished(r.State().value)
    ensures forall i | |r.enqueued| < i < |r.seen| :: r.seen[i] == GotNone
  {}

  // ---- The next event, finished or not ----

  /** There is something to hand out. */
  predicate Ready(r: Prompt) { !r.finished && (r.queue != [] || r.State().Some?) }

  /** How many moves until it is handed out: at most three. */
  function Need(r: Prompt): (n: nat)
    ensures n <= 3
  {
    if r.consumer.Idle? then 2 else if r.consumer.SawPending? && r.queue == [] then 3 else 1
  }

  /** After `k` moves the next event was handed out, or is `k` moves closer. */
  ghost predicate Closer(r: Prompt, next: Prompt, k: nat) {
    r.seen <= next.seen && (|next.seen| > |r.seen| || (Ready(next) && Need(next) + k <= Need(r)))
  }

  lemma CloserStill(r: Prompt, s: Prompt, t: Prompt, j: nat, k: nat)
    requires Closer(r, s, j) && s.seen <= t.seen && (Ready(s) ==> Closer(s, t, k))
    ensures Closer(r, t, j + k)
  {}

  lemma PollCloser(r: Prompt, inSlot: bool)
    requires StreamOk(r) && Ready(r)
    ensures Closer(r, Polled(r, inSlot), 1)
  {}

  lemma GrowthKeepsClose(r: Prompt, next: Prompt)
    requires Grew(r, next) && Ready(r)
    ensures Closer(r, next, 0)
  {}

  /** What no move of anyone takes back. */
  ghost predicate Later(r: Prompt, next: Prompt) {
    && r.seen <= next.seen && r.enqueued <= next.enqueued
    && (r.terminals != [] ==> next.terminals == r.terminals && next.enqueued == r.enqueued)
  }

  lemma PolledLater(r: Prompt, inSlot: bool)
    ensures Later(r, Polled(r, inSlot))
  {}

  lemma StepLater(c: Conn, a: Action, p: PromptId)
    requires Inv(c) && p in c.records && Reading(c.records[p]) && a != AbandonNext(p) && a != DropReceiver(p)
    ensures
      var next := Step(c, a);
      && p in next.records && Reading(next.records[p]) && Later(c.records[p], next.records[p])
      && (Ready(c.records[p]) ==> Closer(c.records[p], next.records[p], if a == Poll(p) then 1 else 0))
  {
    var r := c.records[p];
    assert StreamOk(r);
    if a == Poll(p) {
      PollStep(c, p);
      PolledLater(r, InSlot(c.prompts, p, r));
      if Ready(r) { PollCloser(r, InSlot(c.prompts, p, r)); }
    } else {
      OthersOnlyAdd(c, a, p);
      if Ready(r) { GrowthKeepsClose(r, Step(c, a).records[p]); }
    }
  }

  /** The first move of a schedule. */
  lemma LaterMove(c: Conn, schedule: seq<Action>, p: PromptId) returns (next: Conn)
    requires Inv(c) && p in c.records && Reading(c.records[p]) && schedule != [] && Undisturbed(schedule, p)
    ensures Inv(next) && p in next.records && Reading(next.records[p]) && Undisturbed(schedule[1..], p)
    ensures Later(c.records[p], next.records[p]) && Run(c, schedule) == Run(next, schedule[1..])
    ensures Ready(c.records[p]) ==> Closer(c.records[p], next.records[p], Polled1(schedule, p))
  {
    next := Step(c, schedule[0]);
    StepLater(c, schedule[0], p);
    StepInv(c, schedule[0]);
  }

  lemma {:induction false} RunLater(c: Conn, schedule: seq<Action>, p: PromptId)
    requires Inv(c) && p in c.records && Reading(c.records[p]) && Undisturbed(schedule, p)
    ensures p in Run(c, schedule).records && Later(c.records[p], Run(c, schedule).records[p])
    decreases |schedule|
  {
    if schedule != [] {
      var next := LaterMove(c, schedule, p);
      RunLater(next, schedule[1..], p);
    }
  }

  lemma {:induction false} RunCloser(c: Conn, schedule: seq<Action>, p: PromptId)
    requires Inv(c) && p in c.records && Reading(c.records[p]) && Ready(c.records[p]) && Undisturbed(schedule, p)
    ensures p in Run(c, schedule).records && Closer(c.records[p], Run(c, schedule).records[p], Polls(schedule, p))
    decreases |schedule|
  {
    if schedule != [] {
      var next := LaterMove(c, schedule, p);
      var rest := schedule[1..];
      RunLater(next, rest, p);
      if Ready(next.records[p]) { RunCloser(next, rest, p); }
      CloserStill(c.records[p], next.records[p], Run(next, rest).records[p], Polled1(schedule, p), Polls(rest, p));
    }
  }

  lemma SameExpected(r: Prompt, next: Prompt)
    requires StreamOk(r) && Ready(r) && Later(r, next)
    ensures Expected(next, |r.seen|) == Expected(r, |r.seen|) != GotNone
  {}

  /**
   * Progress: from every reachable state in which an update is queued or the prompt is finished, three moves
   * of the consumer - one, if it has already looked - hand out exactly the next expected event, with any other
   * actions in between.
   */
  lemma NextArrives(before: seq<Action>, schedule: seq<Action>, p: PromptId)
    requires p in Run(FRESH, before).records && Undisturbed(schedule, p)
    requires var r := Run(FRESH, before).records[p]; Reading(r) && Ready(r) && Polls(schedule, p) >= Need(r)
    ensures
      var r := Run(FRESH, before).records[p];
      && p in Run(Run(FRESH, before), schedule).records
      && var next := Run(Run(FRESH, before), schedule).records[p];
      |next.seen| > |r.seen| && next.seen[|r.seen|] == Expected(r, |r.seen|)
  {
    RunKeeps(FRESH, before);
    NextArrivesFrom(Run(FRESH, before), schedule, p);
  }

  lemma NextArrivesFrom(c: Conn, schedule: seq<Action>, p: PromptId)
    requires Inv(c) && p in c.records && Reading(c.records[p]) && Ready(c.records[p]) && Undisturbed(schedule, p)
    requires Polls(schedule, p) >= Need(c.records[p])
    ensures
      var r := c.records[p];
      && p in Run(c, schedule).records
      && var next := Run(c, schedule).records[p];
      |next.seen| > |r.seen| && next.seen[|r.seen|] == Expected(r, |r.seen|)
  {
    RunCloser(c, schedule, p);
    RunLater(c, schedule, p);
    RunKeeps(c, schedule);
    var r, next := c.records[p], Run(c, schedule).records[p];
    assert StreamOk(r) && StreamOk(next);
    HandedOut(r, next, Polls(schedule, p));
  }

  lemma HandedOut(r: Prompt, next: Prompt, k: nat)
    requires StreamOk(r) && StreamOk(next) && Ready(r) && Later(r, next) && Closer(r, next, k) && k >= Need(r)
    ensures |next.seen| > |r.seen| && next.seen[|r.seen|] == Expected(r, |r.seen|)
  {
    SameExpected(r, next);
  }
}
