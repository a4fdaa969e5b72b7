/** Cancelling an ACP prompt: `PromptControl::cancel`, any number of calls beside everything else. */
module AcpCancel {
  import opened Base
  import opened AcpConnection
  import AcpDelivery

  type CallId = nat

  /** Where one `cancel` call stands. */
  datatype Phase = Called | Notifying | Watching | Done(status: CancelStatus)

  datatype CancelCall = CancelCall(prompt: PromptId, phase: Phase)

  /**
   * A queued `session/cancel`. It names the session only; `sender` is the prompt it was meant for, and `reaches`
   * the prompt that holds the session when it is queued.
   */
  datatype Notice = Notice(session: SessionId, sender: PromptId, reaches: Option<PromptId>)

  /** `sent` are the prompts whose `cancel_sent` flag is set; `notices` the notifications queued so far. */
  datatype Control = Control(conn: Conn, sent: set<PromptId>, calls: map<CallId, CancelCall>, notices: seq<Notice>)
  {
    function At(k: CallId, phase: Phase): Control
      requires k in calls
    {
      this.(calls := calls[k := calls[k].(phase := phase)])
    }
  }

  const START := Control(FRESH, {}, map[], [])

  datatype Move =
    | Other(a: Action)
    | Call(k: CallId, p: PromptId)
    | Swap(k: CallId)
    | Queue(k: CallId, ok: bool)      // the notification is queued, or the connection is gone or closed
    | Watch(k: CallId)
    | Expire(k: CallId)               // the deadline

  function Verdict(outcome: Outcome): CancelStatus { if outcome == Ok(Cancelled) then Confirmed else Unconfirmed }

  function NoticeFor(c: Conn, p: PromptId): Notice
    requires p in c.records
  {
    var session := c.records[p].session;
    Notice(session, p, if session in c.prompts then Some(c.prompts[session]) else None)
  }

  function Moved(s: Control, m: Move): Control {
    match m
    case Other(a) => s.(conn := Step(s.conn, a))
    case Call(k, p) =>
      if k in s.calls || p !in s.conn.records || !s.conn.records[p].stage.ReturnedOk() then s
      else s.(calls := s.calls[k := CancelCall(p, Called)])
    case Swap(k) =>
      if k !in s.calls || !s.calls[k].phase.Called? then s
      else if s.calls[k].prompt in s.sent then s.At(k, Watching)
      else s.At(k, Notifying).(sent := s.sent + {s.calls[k].prompt})
    case Queue(k, ok) =>
      if k !in s.calls || !s.calls[k].phase.Notifying? || s.calls[k].prompt !in s.conn.records then s
      else if ok then s.At(k, Watching).(notices := s.notices + [NoticeFor(s.conn, s.calls[k].prompt)])
      else s.At(k, Done(Unconfirmed))
    case Watch(k) =>
      if k !in s.calls || !s.calls[k].phase.Watching? || s.calls[k].prompt !in s.conn.records then s
      else
        var state := s.conn.records[s.calls[k].prompt].State();
        if state.None? then s else s.At(k, Done(Verdict(state.value)))
    case Expire(k) => if k !in s.calls || s.calls[k].phase.Done? then s else s.At(k, Done(Unconfirmed))
  }

  function After(moves: seq<Move>): Control {
    if moves == [] then START else Moved(After(moves[..|moves| - 1]), moves[|moves| - 1])
  }

  /** What the connection itself went through. */
  function Others(moves: seq<Move>): seq<Action> {
    if moves == [] then []
    else Others(moves[..|moves| - 1]) + if moves[|moves| - 1].Other? then [moves[|moves| - 1].a] else []
  }

  lemma {:induction false} RunOneMore(c: Conn, schedule: seq<Action>, a: Action)
    ensures Run(c, schedule + [a]) == Step(Run(c, schedule), a)
    decreases |schedule|
  {
    if schedule == [] {
      assert Run(c, [a]) == Run(Step(c, a), [a][1..]);
    } else {
      assert (schedule + [a])[1..] == schedule[1..] + [a];
      RunOneMore(Step(c, schedule[0]), schedule[1..], a);
    }
  }

  lemma {:induction false} ConnectionRuns(moves: seq<Move>)
    ensures After(moves).conn == Run(FRESH, Others(moves))
  {
    if moves != [] {
      var front, m := moves[..|moves| - 1], moves[|moves| - 1];
      ConnectionRuns(front);
      if m.Other? { RunOneMore(FRESH, Others(front), m.a); } else { assert Others(front) + [] == Others(front); }
    }
  }

  /** Its prompt ended cancelled. */
  predicate EndedCancelled(c: Conn, p: PromptId) {
    p in c.records && c.records[p].stage.ReturnedOk() && c.records[p].State() == Some(Ok(Cancelled))
  }

  ghost predicate Inv(s: Control) {
    && (forall k | k in s.calls ::
          var call := s.calls[k];
          && call.prompt in s.conn.records && s.conn.records[call.prompt].stage.ReturnedOk()
          && (call.phase.Notifying? ==> call.prompt in s.sent && Unsent(s.notices, call.prompt))
          && (call.phase == Done(Confirmed) ==> EndedCancelled(s.conn, call.prompt)))
    && (forall j, k | j in s.calls && k in s.calls && s.calls[j].phase.Notifying? && s.calls[k].phase.Notifying?
                      && s.calls[j].prompt == s.calls[k].prompt :: j == k)
    && (forall i | 0 <= i < |s.notices| :: s.notices[i].sender in s.sent)
    && (forall i, j | 0 <= i < j < |s.notices| :: s.notices[i].sender != s.notices[j].sender)
  }

  predicate Unsent(notices: seq<Notice>, p: PromptId) { forall i | 0 <= i < |notices| :: notices[i].sender != p }

  /** No step takes back that a prompt's start returned Ok, or how it ended. */
  lemma Steady(c: Conn, a: Action, p: PromptId)
    requires AcpConnection.Inv(c) && p in c.records && c.records[p].stage.ReturnedOk()
    ensures
      var next := Step(c, a);
      && p in next.records && next.records[p].stage.ReturnedOk()
      && (c.records[p].terminals != [] ==> next.records[p].terminals == c.records[p].terminals)
  {
    if !AcpDelivery.Consumes(a, p) { AcpDelivery.OthersOnlyAdd(c, a, p); }
    if AcpDelivery.Consumes(a, p) { AcpDelivery.ConsumerKeepsTheRest(c, a, p); }
  }

  lemma OtherKeeps(s: Control, a: Action)
    requires Inv(s) && AcpConnection.Inv(s.conn)
    ensures Inv(Moved(s, Other(a)))
  {
    forall k | k in s.calls
      ensures
        var p := s.calls[k].prompt;
        var next := Step(s.conn, a);
        && p in next.records && next.records[p].stage.ReturnedOk()
        && (EndedCancelled(s.conn, p) ==> EndedCancelled(next, p))
    {
      Steady(s.conn, a, s.calls[k].prompt);
    }
  }

  lemma CallKeeps(s: Control, m: Move)
    requires Inv(s) && (m.Call? || m.Swap?)
    ensures Inv(Moved(s, m))
  {}

  lemma QueueKeeps(s: Control, m: Move)
    requires Inv(s) && m.Queue?
    ensures Inv(Moved(s, m))
  {}

  lemma WatchKeeps(s: Control, m: Move)
    requires Inv(s) && (m.Watch? || m.Expire?)
    ensures Inv(Moved(s, m))
  {}

  lemma {:induction false} RunKeepsControl(moves: seq<Move>)
    ensures Inv(After(moves))
  {
    if moves != [] {
      var front, m := moves[..|moves| - 1], moves[|moves| - 1];
      RunKeepsControl(front);
      if m.Other? {
        ConnectionRuns(front);
        RunKeeps(FRESH, Others(front));
        OtherKeeps(After(front), m.a);
      } else if m.Call? || m.Swap? {
        CallKeeps(After(front), m);
      } else if m.Queue? {
        QueueKeeps(After(front), m);
      } else {
        WatchKeeps(After(front), m);
      }
    }
  }

  /** However many calls cancel a prompt, at most one notification is queued on its behalf. */
  lemma OneNotification(moves: seq<Move>, i: nat, j: nat)
    requires i < |After(moves).notices| && j < |After(moves).notices|
    requires After(moves).notices[i].sender == After(moves).notices[j].sender
    ensures i == j
  {
    RunKeepsControl(moves);
  }

  /** A cancel call reports Confirmed only if the peer answered the prompt's own request with "cancelled". */
  lemma ConfirmedByOwnReply(moves: seq<Move>, k: CallId)
    requires k in After(moves).calls && After(moves).calls[k].phase == Done(Confirmed)
    ensures
      var s := After(moves);
      var p := s.calls[k].prompt;
      && p in s.conn.records && s.conn.records[p].stage.Resolved?
      && s.conn.records[p].stage.id in s.conn.replies
      && s.conn.replies[s.conn.records[p].stage.id] == Returned(Some("cancelled"))
  {
    RunKeepsControl(moves);
    ConnectionRuns(moves);
    CancelConfirmedByOwnReply(Others(moves), After(moves).calls[k].prompt);
  }

  /**
   * A call still watching reports Confirmed exactly when its prompt ended cancelled, and waits exactly while
   * it has not ended.
   */
  lemma WatchDecides(moves: seq<Move>, k: CallId)
    requires k in After(moves).calls && After(moves).calls[k].phase.Watching?
    ensures
      var s := After(moves);
      var next := Moved(s, Watch(k)).calls[k].phase;
      && (next == Done(Confirmed) <==> EndedCancelled(s.conn, s.calls[k].prompt))
      && s.calls[k].prompt in s.conn.records
      && (next == Watching <==> InSlot(s.conn.prompts, s.calls[k].prompt, s.conn.records[s.calls[k].prompt]))
  {
    RunKeepsControl(moves);
    ConnectionRuns(moves);
    SlotOrTerminal(Others(moves), After(moves).calls[k].prompt);
  }

  // ---- Whom a notification reaches ----

  /**
   * For every reachable state and call about to notify: the notification reaches its own prompt exactly while that
   * has not ended, and another prompt exactly when its own has ended and the session has a next one.
   */
  lemma NotificationReachesExactly(moves: seq<Move>, k: CallId)
    requires k in After(moves).calls && After(moves).calls[k].phase.Notifying?
    ensures
      var s := After(moves);
      var p := s.calls[k].prompt;
      && p in s.conn.records
      && var r := s.conn.records[p];
      var n := NoticeFor(s.conn, p);
      && Moved(s, Queue(k, true)).notices == s.notices + [n] && n.session == r.session
      && (n.reaches == Some(p) <==> r.State().None?)
      && (n.reaches.Some? && n.reaches.value != p <==> r.State().Some? && r.session in s.conn.prompts)
  {
    RunKeepsControl(moves);
    ConnectionRuns(moves);
    SlotOrTerminal(Others(moves), After(moves).calls[k].prompt);
  }

  /** `start_prompt` of `p` on a free session, up to its return. */
  function Starting(p: PromptId, session: SessionId, id: RequestId): seq<Action> {
    [Insert(p, session)] + ([CheckClosed(p)] + ([Register(p, id)] + [FrameQueued(p)]))
  }

  /** The reply to `p`, and its completion task. */
  function Ending(p: PromptId, id: RequestId, reply: Reply): seq<Action> {
    [Respond(id, reply)] + ([Receive(p)] + [Resolve(p)])
  }

  lemma RunFirst(c: Conn, a: Action, rest: seq<Action>)
    ensures Run(c, [a] + rest) == Run(Step(c, a), rest)
  {
    assert ([a] + rest)[1..] == rest;
  }

  lemma RunLast(c: Conn, a: Action)
    ensures Run(c, [a]) == Step(c, a)
  {
    assert [a][1..] == [];
  }

  predicate Startable(c: Conn, p: PromptId, session: SessionId, id: RequestId) {
    !c.closed && session !in c.prompts && p !in c.records && id !in c.used
  }

  /** The state after `Starting`. */
  function Started(c: Conn, p: PromptId, session: SessionId, id: RequestId): Conn {
    c.(records := c.records[p := NewPrompt(session, false).(stage := Waiting(id))], prompts := c.prompts[session := p],
       pending := c.pending[id := ForPrompt(p)], used := c.used + {id})
  }

  lemma StartingRuns(c: Conn, p: PromptId, session: SessionId, id: RequestId)
    requires Startable(c, p, session, id)
    ensures Run(c, Starting(p, session, id)) == Started(c, p, session, id)
  {
    var c1 := Step(c, Insert(p, session));
    assert c1 == c.Put(p, NewPrompt(session, false)).(prompts := c.prompts[session := p]);
    var c2 := Step(c1, CheckClosed(p));
    assert c2 == c1.At(p, CheckedOpen);
    var c3 := Step(c2, Register(p, id));
    assert c3 == c2.At(p, Sending(id)).(pending := c.pending[id := ForPrompt(p)], used := c.used + {id});
    var c4 := Step(c3, FrameQueued(p));
    assert c4 == c3.At(p, Waiting(id));
    assert c4.records == Started(c, p, session, id).records;
    RunFirst(c, Insert(p, session), [CheckClosed(p)] + ([Register(p, id)] + [FrameQueued(p)]));
    RunFirst(c1, CheckClosed(p), [Register(p, id)] + [FrameQueued(p)]);
    RunFirst(c2, Register(p, id), [FrameQueued(p)]);
    RunLast(c3, FrameQueued(p));
  }

  /** Waiting for its reply, in its slot. */
  predicate Waits(c: Conn, p: PromptId, session: SessionId, id: RequestId) {
    && p in c.records && c.records[p].stage == Waiting(id) && c.records[p].session == session
    && session in c.prompts && c.prompts[session] == p && id in c.pending && c.pending[id] == ForPrompt(p)
  }

  lemma RespondRuns(c: Conn, p: PromptId, id: RequestId, reply: Reply)
    requires p in c.records && id in c.pending && c.pending[id] == ForPrompt(p)
    ensures
      var e := Step(c, Respond(id, reply));
      && e.closed == c.closed && e.prompts == c.prompts && e.used == c.used
      && e.records == c.records[p := c.records[p].(mailbox := Some(Peer(reply)))]
  {}

  lemma ResolveRuns(c: Conn, p: PromptId, session: SessionId)
    requires p in c.records && c.records[p].stage.Resolving? && c.records[p].session == session
    requires session in c.prompts && c.prompts[session] == p
    ensures
      var e := Step(c, Resolve(p));
      && e.closed == c.closed && e.prompts == c.prompts - {session} && e.used == c.used
      && e.records.Keys == c.records.Keys && e.records[p].stage.Resolved? && e.records[p].session == session
      && e.records[p].State().Some?
  {}

  lemma EndingRuns(c: Conn, p: PromptId, session: SessionId, id: RequestId, reply: Reply)
    requires Waits(c, p, session, id)
    ensures
      var e := Run(c, Ending(p, id, reply));
      && e.closed == c.closed && e.prompts == c.prompts - {session} && e.used == c.used
      && e.records.Keys == c.records.Keys && e.records[p].stage.Resolved? && e.records[p].session == session
      && e.records[p].State().Some?
  {
    var c1 := Step(c, Respond(id, reply));
    RespondRuns(c, p, id, reply);
    var c2 := Step(c1, Receive(p));
    assert c2 == c1.At(p, Resolving(id, Peer(reply)));
    ResolveRuns(c2, p, session);
    RunFirst(c, Respond(id, reply), [Receive(p)] + [Resolve(p)]);
    RunFirst(c1, Receive(p), [Resolve(p)]);
    RunLast(c2, Resolve(p));
  }

  /** The two prompts: the first has ended, the second holds the session. */
  function Succession(session: SessionId, p: PromptId, q: PromptId, i: RequestId, j: RequestId, reply: Reply)
    : seq<Action>
  {
    Starting(p, session, i) + (Ending(p, i, reply) + Starting(q, session, j))
  }

  lemma {:induction false} RunConcat(c: Conn, x: seq<Action>, y: seq<Action>)
    ensures Run(c, x + y) == Run(Run(c, x), y)
    decreases |x|
  {
    if x == [] {
      assert x + y == y;
    } else {
      assert (x + y)[1..] == x[1..] + y;
      RunConcat(Step(c, x[0]), x[1..], y);
    }
  }

  lemma SuccessionRuns(session: SessionId, p: PromptId, q: PromptId, i: RequestId, j: RequestId, reply: Reply)
    requires p != q && i != j
    ensures
      var c := Run(FRESH, Succession(session, p, q, i, j, reply));
      && p in c.records && c.records[p].stage.Resolved? && c.records[p].session == session
      && session in c.prompts && c.prompts[session] == q
  {
    StartingRuns(FRESH, p, session, i);
    var c := Started(FRESH, p, session, i);
    EndingRuns(c, p, session, i, reply);
    var e := Run(c, Ending(p, i, reply));
    StartingRuns(e, q, session, j);
    RunConcat(FRESH, Starting(p, session, i), Ending(p, i, reply) + Starting(q, session, j));
    RunConcat(c, Ending(p, i, reply), Starting(q, session, j));
  }

  function AsMoves(actions: seq<Action>): seq<Move> {
    if actions == [] then [] else AsMoves(actions[..|actions| - 1]) + [Other(actions[|actions| - 1])]
  }

  lemma AfterOneMore(moves: seq<Move>, m: Move)
    ensures After(moves + [m]) == Moved(After(moves), m)
  {
    assert (moves + [m])[..|moves|] == moves;
  }

  lemma {:induction false} OnlyOthers(actions: seq<Action>)
    ensures After(AsMoves(actions)) == START.(conn := Run(FRESH, actions))
  {
    if actions != [] {
      var front, a := actions[..|actions| - 1], actions[|actions| - 1];
      OnlyOthers(front);
      AfterOneMore(AsMoves(front), Other(a));
      RunOneMore(FRESH, front, a);
      assert front + [a] == actions;
    }
  }

  lemma CancelEnded(s: Control, k: CallId, p: PromptId)
    requires k !in s.calls && p !in s.sent && p in s.conn.records && s.conn.records[p].stage.ReturnedOk()
    ensures Moved(Moved(Moved(s, Call(k, p)), Swap(k)), Queue(k, true)).notices == s.notices + [NoticeFor(s.conn, p)]
  {
    var s1 := Moved(s, Call(k, p));
    assert s1.calls[k] == CancelCall(p, Called) && s1.conn == s.conn && s1.sent == s.sent && s1.notices == s.notices;
    var s2 := Moved(s1, Swap(k));
    assert s2.calls[k] == CancelCall(p, Notifying) && s2.conn == s.conn && s2.notices == s.notices;
  }

  /** From the first step on: cancelling a prompt that has ended notifies the session's next prompt. */
  lemma LateCancelReachesTheNextPrompt(session: SessionId, p: PromptId, q: PromptId, i: RequestId, j: RequestId,
                                       reply: Reply, k: CallId)
    requires p != q && i != j
    ensures
      var moves := AsMoves(Succession(session, p, q, i, j, reply)) + [Call(k, p)] + [Swap(k)] + [Queue(k, true)];
      After(moves).notices == [Notice(session, p, Some(q))]
  {
    var before := AsMoves(Succession(session, p, q, i, j, reply));
    SuccessionRuns(session, p, q, i, j, reply);
    OnlyOthers(Succession(session, p, q, i, j, reply));
    AfterOneMore(before, Call(k, p));
    AfterOneMore(before + [Call(k, p)], Swap(k));
    AfterOneMore(before + [Call(k, p)] + [Swap(k)], Queue(k, true));
    CancelEnded(After(before), k, p);
  }
}
