/**
 * The ACP `Connection`: requests, session-keyed prompts and connection failure, with the
 * callers, the completion tasks, the reader and any number of `fail` calls interleaved.
 * Every critical section is one step; a step that is not enabled leaves the state alone.
 */
module AcpConnection {
  import opened Base

  const UPDATE_QUEUE_DEPTH := 256

  type SessionId = string
  type PromptId = nat
  type RequestId = nat

  datatype Update = Acknowledged | Content(body: string)
  datatype StopReason = EndTurn | MaxTokens | MaxTurnRequests | Refusal | Cancelled
  datatype Failure = TransportClosed | Timeout | ShuttingDown | ProtocolViolation | RequestFailed

  /** A correlated reply: a result with its `stopReason` text if it has one, or an error object. */
  datatype Reply = Returned(stopReason: Option<string>) | Rejected

  type Outcome = Result<StopReason, Failure>

  /** What travels through a request's one-shot channel. */
  datatype Delivery = Peer(reply: Reply) | Failed(error: Failure)

  function ParseOutcome(stopReason: Option<string>): Outcome {
    match stopReason
    case Some("end_turn") => Ok(EndTurn)
    case Some("max_tokens") => Ok(MaxTokens)
    case Some("max_turn_requests") => Ok(MaxTurnRequests)
    case Some("refusal") => Ok(Refusal)
    case Some("cancelled") => Ok(Cancelled)
    case _ => Err(ProtocolViolation)
  }

  function OutcomeOf(delivery: Delivery): Outcome {
    match delivery
    case Peer(Returned(stopReason)) => ParseOutcome(stopReason)
    case Peer(Rejected) => Err(RequestFailed)
    case Failed(error) => Err(error)
  }

  /** Where a `start_prompt` call, and after it the completion task it spawns, stands. */
  datatype Stage =
    | Inserted                                      // holds a slot, has not yet read `closed`
    | CheckedOpen                                   // read `closed` as false
    | Sending(id: RequestId)                        // its request is registered, the frame is being queued
    | Withdrawing(id: RequestId, error: Failure)    // queueing failed, the request is to be withdrawn
    | Refusing(error: Failure)                      // about to finish its slot and return the error
    | Refused(error: Failure)                       // `start_prompt` returned the error
    | Waiting(id: RequestId)                        // `start_prompt` returned Ok, its spawned half waits
    | Resolving(id: RequestId, delivery: Delivery)  // the spawned half has its delivery
    | Resolved(id: RequestId, delivery: Delivery)   // the spawned half has run `finish_prompt`
  {
    /** A `finish_prompt` call on this prompt's session key is still to come. */
    predicate Live() { !Refused? && !Resolved? }

    predicate ReturnedOk() { Waiting? || Resolving? || Resolved? }
  }

  datatype Cause = ByTask(prompt: PromptId) | ByStart(prompt: PromptId) | ByFail
  datatype Terminal = Terminal(outcome: Outcome, cause: Cause)

  datatype Seen = GotUpdate(update: Update) | GotFinished(outcome: Outcome) | GotNone | StateUnavailable
  datatype Consumer = Idle | SawTerminal(outcome: Outcome) | SawPending

  /**
   * One prompt: its sink, its execution handle and what happened to it. `late`: it took its slot
   * after the connection had closed. `enqueued`, `seen` and `terminals` are histories.
   */
  datatype Prompt = Prompt(
    session: SessionId, stage: Stage, late: bool, mailbox: Option<Delivery>,
    acknowledged: bool, queue: seq<Update>, receiverAlive: bool,
    consumer: Consumer, finished: bool,
    enqueued: seq<Update>, seen: seq<Seen>, terminals: seq<Terminal>)
  {
    /** The watch channel: pending until the first terminal value. */
    function State(): Option<Outcome> { if terminals == [] then None else Some(terminals[0].outcome) }

    function Sent(update: Update): Prompt {
      this.(queue := queue + [update], enqueued := enqueued + [update])
    }

    predicate CanSend() { receiverAlive && |queue| < UPDATE_QUEUE_DEPTH }
  }

  type Records = map<PromptId, Prompt>

  /** Prompt `p`, with record `r`, holds its session's slot. */
  predicate InSlot(prompts: map<SessionId, PromptId>, p: PromptId, r: Prompt) {
    r.session in prompts && prompts[r.session] == p
  }

  datatype Owner = ForPrompt(prompt: PromptId) | ForCaller

  /** A `fail` call between setting `closed` and draining, and between its two drains. */
  datatype Failing = Marked(error: Failure) | Drained(error: Failure)

  /** `replies` and `errors` are histories: replies taken per request, errors given to `fail`. */
  datatype Conn = Conn(
    pending: map<RequestId, Owner>, prompts: map<SessionId, PromptId>, closed: bool,
    records: Records, failing: map<nat, Failing>, used: set<RequestId>,
    replies: map<RequestId, Reply>, errors: set<Failure>)
  {
    function Put(p: PromptId, prompt: Prompt): Conn { this.(records := records[p := prompt]) }

    function At(p: PromptId, stage: Stage): Conn
      requires p in records
    {
      Put(p, records[p].(stage := stage))
    }
  }

  const FRESH := Conn(map[], map[], false, map[], map[], {}, map[], {})

  datatype Action =
    | Insert(p: PromptId, session: SessionId)
    | CheckClosed(p: PromptId)
    | EncodeFails(p: PromptId, error: Failure)
    | Register(p: PromptId, id: RequestId)
    | FrameQueued(p: PromptId)
    | QueueFails(p: PromptId, error: Failure)
    | Withdraw(p: PromptId)
    | Refuse(p: PromptId)
    | Receive(p: PromptId)
    | Resolve(p: PromptId)
    | RegisterCaller(id: RequestId)
    | ForgetCaller(id: RequestId)
    | Respond(id: RequestId, reply: Reply)
    | Notify(session: SessionId, update: Option<string>)
    | CloseFlag
    | BeginFail(f: nat, error: Failure)
    | DrainPending(f: nat)
    | DrainPrompts(f: nat)
    | Poll(p: PromptId)           // the consumer's next move inside `next`
    | AbandonNext(p: PromptId)        // a `next` call dropped where it waits
    | DropReceiver(p: PromptId)

  // ---- The critical sections ----

  function NewPrompt(session: SessionId, closed: bool): Prompt {
    Prompt(session, Inserted, closed, None, false, [], true, Idle, false, [], [], [])
  }

  /** The sink's part of `finish_prompt`: acknowledge if that was never done, then publish. */
  function Finished(prompt: Prompt, terminal: Terminal): Prompt {
    var acked := if !prompt.acknowledged && prompt.CanSend() then prompt.Sent(Acknowledged) else prompt;
    acked.(acknowledged := true, terminals := prompt.terminals + [terminal])
  }

  /** `finish_prompt`: by session key, so it reaches whichever prompt holds the slot. */
  function FinishSession(c: Conn, session: SessionId, terminal: Terminal): Conn {
    if session in c.prompts && c.prompts[session] in c.records then
      var p := c.prompts[session];
      c.Put(p, Finished(c.records[p], terminal)).(prompts := c.prompts - {session})
    else c
  }

  /** The sink's part of `handle_notification`; a full or dropped queue stops it part way. */
  function Notified(prompt: Prompt, update: Option<string>): Prompt {
    if !prompt.acknowledged && !prompt.CanSend() then prompt
    else
      var acked := if prompt.acknowledged then prompt else prompt.Sent(Acknowledged).(acknowledged := true);
      if update.Some? && acked.CanSend() then acked.Sent(Content(update.value)) else acked
  }

  /** What `next` returns once it has looked and need not wait, and the prompt after it. */
  function Handed(r: Prompt): (Prompt, Seen) {
    var idle := r.(consumer := Idle);
    if r.queue != [] then
      (idle.(queue := r.queue[1..], seen := r.seen + [GotUpdate(r.queue[0])]), GotUpdate(r.queue[0]))
    else if r.consumer.SawTerminal? then
      (idle.(finished := true, seen := r.seen + [GotFinished(r.consumer.outcome)]), GotFinished(r.consumer.outcome))
    else (idle.(seen := r.seen + [StateUnavailable]), StateUnavailable)
  }

  /** One move of `PromptExecution::next`: look at the state, then act on what was seen. */
  function Polled(r: Prompt, inSlot: bool): Prompt {
    if r.finished then r.(seen := r.seen + [GotNone])
    else match r.consumer
      case Idle => r.(consumer := if r.State().Some? then SawTerminal(r.State().value) else SawPending)
      case SawTerminal(_) => Handed(r).0
      case SawPending =>
        if r.queue == [] && r.State().Some? then r.(consumer := Idle)
        else if r.queue == [] && inSlot then r
        else Handed(r).0
  }

  /** `n` moves of the consumer with nothing else in between. */
  function PolledBy(r: Prompt, inSlot: bool, n: nat): Prompt {
    if n == 0 then r else Polled(PolledBy(r, inSlot, n - 1), inSlot)
  }

  /** The execution handle exists: `start_prompt` returned it and it was not dropped. */
  predicate Reading(r: Prompt) { r.stage.ReturnedOk() && r.receiverAlive }

  /** The prompts among `owners` find the error in their mailbox. */
  function Answered(records: Records, owners: set<Owner>, error: Failure): Records {
    map p | p in records :: if ForPrompt(p) in owners then records[p].(mailbox := Some(Failed(error))) else records[p]
  }

  function DrainedPending(c: Conn, error: Failure): Conn {
    c.(pending := map[], records := Answered(c.records, c.pending.Values, error))
  }

  function WithTerminal(r: Prompt, error: Failure): Prompt {
    r.(terminals := r.terminals + [Terminal(Err(error), ByFail)])
  }

  function DrainedPrompts(c: Conn, error: Failure): Conn {
    c.(prompts := map[],
       records := map p | p in c.records ::
         if InSlot(c.prompts, p, c.records[p]) then WithTerminal(c.records[p], error) else c.records[p])
  }

  function StartStep(c: Conn, a: Action): Conn {
    match a
    case Insert(p, session) =>
      if p in c.records || session in c.prompts then c
      else c.Put(p, NewPrompt(session, c.closed)).(prompts := c.prompts[session := p])
    case CheckClosed(p) =>
      if p !in c.records || c.records[p].stage != Inserted then c
      else c.At(p, if c.closed then Refusing(ShuttingDown) else CheckedOpen)
    case EncodeFails(p, error) =>
      if p !in c.records || c.records[p].stage != CheckedOpen then c else c.At(p, Refusing(error))
    case Register(p, id) =>
      if p !in c.records || c.records[p].stage != CheckedOpen || id in c.used then c
      else c.At(p, Sending(id)).(pending := c.pending[id := ForPrompt(p)], used := c.used + {id})
    case FrameQueued(p) =>
      if p !in c.records || !c.records[p].stage.Sending? then c else c.At(p, Waiting(c.records[p].stage.id))
    case QueueFails(p, error) =>
      if p !in c.records || !c.records[p].stage.Sending? then c else c.At(p, Withdrawing(c.records[p].stage.id, error))
    case Withdraw(p) =>
      if p !in c.records || !c.records[p].stage.Withdrawing? then c
      else c.At(p, Refusing(c.records[p].stage.error)).(pending := c.pending - {c.records[p].stage.id})
    case Refuse(p) =>
      if p !in c.records || !c.records[p].stage.Refusing? then c
      else
        var r := c.records[p];
        FinishSession(c.At(p, Refused(r.stage.error)), r.session, Terminal(Err(r.stage.error), ByStart(p)))
    case Receive(p) =>
      if p !in c.records || !c.records[p].stage.Waiting? || c.records[p].mailbox.None? then c
      else c.At(p, Resolving(c.records[p].stage.id, c.records[p].mailbox.value))
    case Resolve(p) =>
      if p !in c.records || !c.records[p].stage.Resolving? then c
      else
        var r := c.records[p];
        FinishSession(c.At(p, Resolved(r.stage.id, r.stage.delivery)), r.session,
                      Terminal(OutcomeOf(r.stage.delivery), ByTask(p)))
    case _ => c
  }

  function PeerStep(c: Conn, a: Action): Conn {
    match a
    case RegisterCaller(id) =>
      if id in c.used then c else c.(pending := c.pending[id := ForCaller], used := c.used + {id})
    case ForgetCaller(id) =>
      if id in c.pending && c.pending[id] == ForCaller then c.(pending := c.pending - {id}) else c
    case Respond(id, reply) =>
      if id !in c.pending then c
      else
        var taken := c.(pending := c.pending - {id}, replies := c.replies[id := reply]);
        if c.pending[id].ForPrompt? && c.pending[id].prompt in c.records then
          var p := c.pending[id].prompt;
          taken.Put(p, c.records[p].(mailbox := Some(Peer(reply))))
        else taken
    case Notify(session, update) =>
      if session in c.prompts && c.prompts[session] in c.records then
        c.Put(c.prompts[session], Notified(c.records[c.prompts[session]], update))
      else c
    case CloseFlag => c.(closed := true)
    case BeginFail(f, error) =>
      if f in c.failing then c
      else c.(closed := true, failing := c.failing[f := Marked(error)], errors := c.errors + {error})
    case DrainPending(f) =>
      if f !in c.failing || !c.failing[f].Marked? then c
      else DrainedPending(c, c.failing[f].error).(failing := c.failing[f := Drained(c.failing[f].error)])
    case DrainPrompts(f) =>
      if f !in c.failing || !c.failing[f].Drained? then c
      else DrainedPrompts(c, c.failing[f].error).(failing := c.failing - {f})
    case Poll(p) =>
      if p !in c.records || !Reading(c.records[p]) then c
      else c.Put(p, Polled(c.records[p], InSlot(c.prompts, p, c.records[p])))
    case AbandonNext(p) =>
      if p !in c.records || !c.records[p].consumer.SawPending? then c
      else c.Put(p, c.records[p].(consumer := Idle))
    case DropReceiver(p) =>
      if p !in c.records then c else c.Put(p, c.records[p].(receiverAlive := false))
    case _ => c
  }

  function Step(c: Conn, a: Action): Conn { PeerStep(StartStep(c, a), a) }

  // ---- The connection object ----

  class Connection {
    var pending: map<RequestId, Owner>
    var prompts: map<SessionId, PromptId>
    var closed: bool
    var records: Records
    ghost var failing: map<nat, Failing>
    ghost var used: set<RequestId>
    ghost var replies: map<RequestId, Reply>
    ghost var errors: set<Failure>

    ghost function View(): Conn
      reads this
    {
      Conn(pending, prompts, closed, records, failing, used, replies, errors)
    }

    constructor ()
      ensures View() == FRESH
    {
      pending, prompts, closed, records := map[], map[], false, map[];
      failing, used, replies, errors := map[], {}, map[], {};
    }

    /** The locked block at the head of `start_prompt`; `taken` is its "already active" error. */
    method TakeSlot(p: PromptId, session: SessionId) returns (taken: bool)
      requires p !in records
      modifies this
      ensures taken == (session in old(prompts))
      ensures View() == Step(old(View()), Insert(p, session))
    {
      taken := session in prompts;
      if !taken {
        prompts := prompts[session := p];
        records := records[p := NewPrompt(session, closed)];
      }
    }

    method FinishPrompt(session: SessionId, terminal: Terminal)
      requires session in prompts ==> prompts[session] in records
      modifies this
      ensures View() == FinishSession(old(View()), session, terminal)
    {
      if session in prompts {
        var p := prompts[session];
        prompts := prompts - {session};
        var sink := records[p];
        if !sink.acknowledged {
          if sink.CanSend() {
            sink := sink.Sent(Acknowledged);
          }
          sink := sink.(acknowledged := true);
        }
        records := records[p := sink.(terminals := sink.terminals + [terminal])];
      }
    }

    method HandleResponse(id: RequestId, reply: Reply) returns (known: bool)
      requires id in pending && pending[id].ForPrompt? ==> pending[id].prompt in records
      modifies this
      ensures known == (id in old(pending))
      ensures View() == Step(old(View()), Respond(id, reply))
    {
      known := id in pending;
      if known {
        var owner := pending[id];
        pending := pending - {id};
        replies := replies[id := reply];
        if owner.ForPrompt? {
          records := records[owner.prompt := records[owner.prompt].(mailbox := Some(Peer(reply)))];
        }
      }
    }

    /** `accepted` is false when the queue is full or its reader gone: the reader task then fails the connection. */
    method HandleNotification(session: SessionId, update: Option<string>) returns (accepted: bool)
      requires session in prompts ==> prompts[session] in records
      modifies this
      ensures View() == Step(old(View()), Notify(session, update))
      ensures accepted && session in old(prompts) && update.Some? ==>
        var p := old(prompts)[session];
        records[p].acknowledged && records[p].enqueued != [] &&
        records[p].enqueued[|records[p].enqueued| - 1] == Content(update.value)
      ensures !accepted ==> session in old(prompts) && !records[old(prompts)[session]].CanSend()
    {
      if session !in prompts {
        return true;
      }
      var p := prompts[session];
      var sink := records[p];
      if !sink.acknowledged {
        if !sink.CanSend() {
          return false;
        }
        sink := sink.Sent(Acknowledged).(acknowledged := true);
      }
      accepted := update.None? || sink.CanSend();
      if update.Some? && accepted {
        sink := sink.Sent(Content(update.value));
      }
      records := records[p := sink];
    }

    /** `next`, from where it was left until it returns or has to wait; None means it waits. */
    method PollNext(p: PromptId) returns (ready: Option<Seen>, ghost polls: nat)
      requires p in records && Reading(records[p])
      requires records[p].consumer.SawTerminal? ==> records[p].State().Some?
      modifies this`records
      ensures var r := old(records[p]); records == old(records)[p := PolledBy(r, InSlot(prompts, p, r), polls)]
      ensures ready.Some? ==> records[p].seen == old(records[p]).seen + [ready.value] && 1 <= polls <= 3
      ensures ready.None? ==> records[p].seen == old(records[p]).seen
      ensures ready.None? <==>
        var r := old(records[p]);
        !r.finished && r.queue == [] && r.State().None? && InSlot(prompts, p, r)
    {
      var r, inSlot := records[p], InSlot(prompts, p, records[p]);
      if r.finished {
        records, polls := records[p := r.(seen := r.seen + [GotNone])], 1;
        return Some(GotNone), polls;
      }
      var waits;
      r, waits, polls := LookUntilReady(r, inSlot);
      if waits {
        records := records[p := r];
        return None, polls;
      }
      var got := Handed(r);
      records := records[p := got.0];
      return Some(got.1), polls + 1;
    }

    /** First drain of `fail`: every waiting request is answered with the error. */
    method DrainPendingWith(error: Failure)
      requires forall id | id in pending && pending[id].ForPrompt? :: pending[id].prompt in records
      modifies this
      ensures View() == DrainedPending(old(View()), error)
    {
      records := AnswerAll(pending, records, error);
      pending := map[];
    }

    /** Second drain of `fail`: every prompt still holding a slot gets the error as its terminal state. */
    method DrainPromptsWith(error: Failure)
      requires forall s | s in prompts :: prompts[s] in records && records[prompts[s]].session == s
      modifies this
      ensures View() == DrainedPrompts(old(View()), error)
    {
      ghost var before := View();
      var after := TerminateAll(prompts, records, error);
      assert after == DrainedPrompts(before, error).records;
      records, prompts := after, map[];
    }
  }

  /** The loop of `next`: look at the state, and look again when it changed, until there is something to hand out. */
  method LookUntilReady(start: Prompt, inSlot: bool) returns (r: Prompt, waits: bool, ghost polls: nat)
    requires !start.finished && (start.consumer.SawTerminal? ==> start.State().Some?)
    ensures r == PolledBy(start, inSlot, polls) && polls <= 2
    ensures r == start.(consumer := r.consumer) && !r.consumer.Idle?
    ensures waits <==> r.queue == [] && r.State().None? && inSlot
    ensures !waits ==> Polled(r, inSlot) == Handed(r).0
  {
    r, polls := start, 0;
    while true
      invariant r == PolledBy(start, inSlot, polls) && r == start.(consumer := r.consumer)
      invariant polls <= if r.consumer.SawPending? then 0 else 1
      invariant r.consumer.SawTerminal? ==> r.State().Some?
      decreases r.consumer.SawPending?
    {
      if r.consumer.Idle? {
        r := r.(consumer := if r.State().Some? then SawTerminal(r.State().value) else SawPending);
        polls := polls + 1;
      }
      if r.queue != [] || r.consumer.SawTerminal? {
        return r, false, polls;
      }
      if r.State().None? {
        return r, inSlot, polls;
      }
      r := r.(consumer := Idle);
      polls := polls + 1;
    }
  }

  lemma AnswerOne(records: Records, owners: set<Owner>, owner: Owner, error: Failure)
    requires owner.ForPrompt? ==> owner.prompt in records
    ensures
      var after := Answered(records, owners, error);
      Answered(records, owners + {owner}, error) ==
        if owner.ForPrompt? then after[owner.prompt := after[owner.prompt].(mailbox := Some(Failed(error)))] else after
  {}

  method AnswerAll(pending: map<RequestId, Owner>, records: Records, error: Failure) returns (after: Records)
    requires forall id | id in pending && pending[id].ForPrompt? :: pending[id].prompt in records
    ensures after == Answered(records, pending.Values, error)
  {
    after := records;
    var todo := pending.Keys;
    ghost var done: set<Owner> := {};
    while todo != {}
      invariant todo <= pending.Keys
      invariant done == set id | id in pending.Keys - todo :: pending[id]
      invariant after == Answered(records, done, error)
      decreases |todo|
    {
      var id :| id in todo;
      todo := todo - {id};
      AnswerOne(records, done, pending[id], error);
      if pending[id].ForPrompt? {
        var p := pending[id].prompt;
        after := after[p := after[p].(mailbox := Some(Failed(error)))];
      }
      done := done + {pending[id]};
    }
    assert done == pending.Values;
  }

  method TerminateAll(prompts: map<SessionId, PromptId>, records: Records, error: Failure) returns (after: Records)
    requires forall s | s in prompts :: prompts[s] in records && records[prompts[s]].session == s
    ensures after.Keys == records.Keys
    ensures forall p | p in records ::
      after[p] == if InSlot(prompts, p, records[p]) then WithTerminal(records[p], error) else records[p]
  {
    after := records;
    var todo := prompts.Keys;
    while todo != {}
      invariant todo <= prompts.Keys && after.Keys == records.Keys
      invariant forall p | p in records ::
        after[p] == if InSlot(prompts, p, records[p]) && records[p].session !in todo
                    then WithTerminal(records[p], error) else records[p]
      decreases |todo|
    {
      var session :| session in todo;
      todo := todo - {session};
      var p := prompts[session];
      after := after[p := WithTerminal(after[p], error)];
    }
  }

  // ---- Invariants ----

  /** A slot names a prompt of that session that is unfinished and whose finisher is still to come. */
  ghost predicate Slots(prompts: map<SessionId, PromptId>, records: Records) {
    forall s | s in prompts ::
      var p := prompts[s];
      p in records && records[p].session == s && records[p].stage.Live() && records[p].terminals == []
  }

  predicate LateStage(stage: Stage) { stage.Inserted? || stage.Refusing? || stage.Refused? }

  /** A prompt leaves its slot exactly when it is finished, and early only after the connection closed. */
  ghost predicate Claims(prompts: map<SessionId, PromptId>, closed: bool, records: Records) {
    forall p | p in records :: ClaimOk(InSlot(prompts, p, records[p]), closed, records[p])
  }

  predicate ClaimOk(inSlot: bool, closed: bool, r: Prompt) {
    && (!inSlot ==> |r.terminals| == 1)
    && (r.stage.Live() && !inSlot ==> closed)
    && (r.late ==> closed && LateStage(r.stage))
  }

  /** No other call can still finish the slot of a prompt that took it while the connection was open. */
  ghost predicate Exclusive(prompts: map<SessionId, PromptId>, records: Records) {
    forall p, r | p in records && r in records && InSlot(prompts, p, records[p]) && !records[p].late
                  && records[r].stage.Live() && records[r].session == records[p].session :: r == p
  }

  ghost predicate Table(prompts: map<SessionId, PromptId>, closed: bool, records: Records) {
    Slots(prompts, records) && Claims(prompts, closed, records) && Exclusive(prompts, records)
  }

  predicate Registered(stage: Stage, id: RequestId) {
    (stage.Sending? || stage.Withdrawing? || stage.Waiting?) && stage.id == id
  }

  /** Every waiting request is fresh and unanswered, and knows the prompt that waits for it. */
  ghost predicate Requests(pending: map<RequestId, Owner>, used: set<RequestId>, replies: map<RequestId, Reply>,
                           records: Records) {
    && (forall id | id in pending ::
          && id in used && id !in replies
          && (pending[id].ForPrompt? ==>
                var p := pending[id].prompt;
                p in records && Registered(records[p].stage, id) && records[p].mailbox.None?))
    && (forall id | id in replies :: id in used)
  }

  ghost predicate DeliveryOk(replies: map<RequestId, Reply>, errors: set<Failure>, id: RequestId, delivery: Delivery) {
    match delivery
    case Peer(reply) => id in replies && replies[id] == reply
    case Failed(error) => error in errors
  }

  /** A prompt's mailbox only ever holds the reply to its own request, or a connection failure. */
  ghost predicate MailOk(replies: map<RequestId, Reply>, errors: set<Failure>, r: Prompt) {
    && (r.stage.Inserted? || r.stage.CheckedOpen? ==> r.mailbox.None?)
    && (r.mailbox.Some? && (r.stage.Sending? || r.stage.Withdrawing? || r.stage.Waiting?) ==>
          DeliveryOk(replies, errors, r.stage.id, r.mailbox.value))
    && (r.stage.Resolving? || r.stage.Resolved? ==> DeliveryOk(replies, errors, r.stage.id, r.stage.delivery))
  }

  ghost predicate Mail(replies: map<RequestId, Reply>, errors: set<Failure>, records: Records) {
    forall p | p in records :: MailOk(replies, errors, records[p])
  }

  ghost predicate Failures(failing: map<nat, Failing>, closed: bool, errors: set<Failure>) {
    && (forall f | f in failing :: failing[f].error in errors)
    && (errors != {} ==> closed)
  }

  /** Why a prompt may have been finished: the connection failed, or its own call or task did it. */
  ghost predicate CauseOk(errors: set<Failure>, p: PromptId, r: Prompt, terminal: Terminal) {
    match terminal.cause
    case ByFail => terminal.outcome.Err? && terminal.outcome.error in errors
    case ByTask(q) => r.late || (q == p && r.stage.Resolved? && terminal.outcome == OutcomeOf(r.stage.delivery))
    case ByStart(q) => r.late || (q == p && r.stage.Refused?)
  }

  ghost predicate Causes(errors: set<Failure>, records: Records) {
    forall p, i | p in records && 0 <= i < |records[p].terminals| ::
      CauseOk(errors, p, records[p], records[p].terminals[i])
  }

  /** The `i`-th thing a consumer of this prompt is to see. */
  function Expected(r: Prompt, i: nat): Seen {
    if i < |r.enqueued| then GotUpdate(r.enqueued[i])
    else if i == |r.enqueued| && r.State().Some? then GotFinished(r.State().value)
    else GotNone
  }

  /** Exact delivery, as an invariant of one prompt. */
  ghost predicate StreamOk(r: Prompt) {
    && |r.queue| <= UPDATE_QUEUE_DEPTH && |r.queue| <= |r.enqueued|
    && (forall i | 0 <= i < |r.queue| :: r.queue[i] == r.enqueued[|r.enqueued| - |r.queue| + i])
    && (r.enqueued != [] ==> r.enqueued[0] == Acknowledged)
    && (forall i | 1 <= i < |r.enqueued| :: r.enqueued[i] != Acknowledged)
    && (!r.acknowledged ==> r.enqueued == [])
    && (r.receiverAlive && r.acknowledged ==> r.enqueued != [])
    && (r.consumer.SawTerminal? ==> r.State() == Some(r.consumer.outcome))
    && (forall i | 0 <= i < |r.seen| :: r.seen[i] == Expected(r, i))
    && (if r.finished then r.queue == [] && r.State().Some? && |r.seen| > |r.enqueued|
        else |r.seen| + |r.queue| == |r.enqueued|)
  }

  ghost predicate Streams(records: Records) { forall p | p in records :: StreamOk(records[p]) }

  ghost predicate Inv(c: Conn) {
    && Table(c.prompts, c.closed, c.records)
    && Requests(c.pending, c.used, c.replies, c.records)
    && Mail(c.replies, c.errors, c.records)
    && Failures(c.failing, c.closed, c.errors)
    && Causes(c.errors, c.records)
    && Streams(c.records)
  }

  // ---- Preservation: one prompt ----

  lemma SentStream(r: Prompt, update: Update)
    requires StreamOk(r) && !r.finished && r.terminals == [] && r.CanSend()
    requires update == Acknowledged <==> r.enqueued == []
    ensures StreamOk(r.Sent(update).(acknowledged := true))
  {}

  lemma FinishedStream(r: Prompt, t: Terminal)
    requires StreamOk(r) && r.terminals == []
    ensures StreamOk(Finished(r, t))
  {
    if !r.acknowledged && r.CanSend() { SentStream(r, Acknowledged); }
  }

  lemma NotifiedStream(r: Prompt, update: Option<string>)
    requires StreamOk(r) && r.terminals == []
    ensures StreamOk(Notified(r, update))
  {
    if r.acknowledged || r.CanSend() {
      if !r.acknowledged { SentStream(r, Acknowledged); }
      var acked := if r.acknowledged then r else r.Sent(Acknowledged).(acknowledged := true);
      if update.Some? && acked.CanSend() { SentStream(acked, Content(update.value)); }
    }
  }

  /** The stream does not depend on where the call stands or what its mailbox holds. */
  lemma OtherStream(r: Prompt, stage: Stage, mailbox: Option<Delivery>)
    requires StreamOk(r)
    ensures StreamOk(r.(stage := stage, mailbox := mailbox))
  {
    var r' := r.(stage := stage, mailbox := mailbox);
    assert forall i | 0 <= i < |r.seen| :: Expected(r, i) == Expected(r', i);
  }

  lemma PopStream(r: Prompt)
    requires StreamOk(r) && !r.finished && r.queue != []
    ensures StreamOk(r.(consumer := Idle, queue := r.queue[1..], seen := r.seen + [GotUpdate(r.queue[0])]))
  {}

  lemma EndStream(r: Prompt)
    requires StreamOk(r) && !r.finished && r.queue == [] && r.State().Some?
    ensures StreamOk(r.(consumer := Idle, finished := true, seen := r.seen + [GotFinished(r.State().value)]))
  {}

  lemma AfterStream(r: Prompt)
    requires StreamOk(r) && r.finished
    ensures StreamOk(r.(seen := r.seen + [GotNone]))
  {}

  lemma ConsumerStream(r: Prompt, consumer: Consumer)
    requires StreamOk(r) && (consumer.SawTerminal? ==> r.State() == Some(consumer.outcome))
    ensures StreamOk(r.(consumer := consumer))
  {
    var r' := r.(consumer := consumer);
    assert forall i | 0 <= i < |r.seen| :: Expected(r, i) == Expected(r', i);
  }

  lemma PolledStream(r: Prompt, inSlot: bool)
    requires StreamOk(r) && (!inSlot ==> |r.terminals| == 1)
    ensures StreamOk(Polled(r, inSlot))
  {
    if r.finished {
      AfterStream(r);
    } else if r.consumer.Idle? {
      ConsumerStream(r, if r.State().Some? then SawTerminal(r.State().value) else SawPending);
    } else if r.queue != [] {
      PopStream(r);
    } else if r.State().Some? {
      EndStream(r);
      ConsumerStream(r, Idle);
    }
  }

  // ---- Preservation: replacing one record ----

  /** `r` may replace `q`: same identity and history, and no finisher is gained or lost. */
  predicate SameClaim(q: Prompt, r: Prompt) {
    && r.session == q.session && r.late == q.late && r.terminals == q.terminals
    && r.stage.Live() == q.stage.Live() && (r.late ==> LateStage(r.stage))
  }

  lemma PutTable(prompts: map<SessionId, PromptId>, closed: bool, records: Records, p: PromptId, r: Prompt)
    requires Table(prompts, closed, records) && p in records && SameClaim(records[p], r)
    ensures Table(prompts, closed, records[p := r])
  {}

  lemma PutCauses(errors: set<Failure>, records: Records, p: PromptId, r: Prompt)
    requires Causes(errors, records) && p in records && SameClaim(records[p], r)
    requires records[p].stage.Live() || r.stage == records[p].stage
    ensures Causes(errors, records[p := r])
  {}

  lemma PutRequests(c: Conn, p: PromptId, r: Prompt)
    requires Requests(c.pending, c.used, c.replies, c.records) && p in c.records && r.mailbox == c.records[p].mailbox
    requires forall id | Registered(c.records[p].stage, id) :: Registered(r.stage, id)
    ensures Requests(c.pending, c.used, c.replies, c.records[p := r])
  {}

  lemma PutMail(c: Conn, p: PromptId, r: Prompt)
    requires Mail(c.replies, c.errors, c.records) && MailOk(c.replies, c.errors, r)
    ensures Mail(c.replies, c.errors, c.records[p := r])
  {}

  lemma PutStreams(records: Records, p: PromptId, r: Prompt)
    requires Streams(records) && StreamOk(r)
    ensures Streams(records[p := r])
  {}

  lemma PutRest(c: Conn, p: PromptId, r: Prompt)
    requires Table(c.prompts, c.closed, c.records) && Causes(c.errors, c.records)
    requires Mail(c.replies, c.errors, c.records) && Streams(c.records)
    requires p in c.records && SameClaim(c.records[p], r) && MailOk(c.replies, c.errors, r) && StreamOk(r)
    requires c.records[p].stage.Live() || r.stage == c.records[p].stage
    ensures
      var records := c.records[p := r];
      && Table(c.prompts, c.closed, records) && Causes(c.errors, records)
      && Mail(c.replies, c.errors, records) && Streams(records)
  {
    PutTable(c.prompts, c.closed, c.records, p, r);
    PutCauses(c.errors, c.records, p, r);
    PutMail(c, p, r);
    PutStreams(c.records, p, r);
  }

  lemma PutKeeps(c: Conn, p: PromptId, r: Prompt)
    requires Inv(c) && p in c.records && SameClaim(c.records[p], r) && r.mailbox == c.records[p].mailbox
    requires c.records[p].stage.Live() || r.stage == c.records[p].stage
    requires forall id | Registered(c.records[p].stage, id) :: Registered(r.stage, id)
    requires MailOk(c.replies, c.errors, r) && StreamOk(r)
    ensures Inv(c.Put(p, r))
  {
    PutRest(c, p, r);
    PutRequests(c, p, r);
  }

  // ---- Preservation: the critical sections ----

  lemma InsertKeeps(c: Conn, p: PromptId, session: SessionId)
    requires Inv(c) && p !in c.records && session !in c.prompts
    ensures Inv(c.Put(p, NewPrompt(session, c.closed)).(prompts := c.prompts[session := p]))
  {
    var r := NewPrompt(session, c.closed);
    InsertTable(c, p, session);
    PutMail(c, p, r);
    PutStreams(c.records, p, r);
  }

  lemma InsertTable(c: Conn, p: PromptId, session: SessionId)
    requires Table(c.prompts, c.closed, c.records) && p !in c.records && session !in c.prompts
    ensures Table(c.prompts[session := p], c.closed, c.records[p := NewPrompt(session, c.closed)])
  {
    InsertSlots(c.prompts, c.records, p, NewPrompt(session, c.closed));
    InsertClaims(c.prompts, c.closed, c.records, p, NewPrompt(session, c.closed));
    InsertExclusive(c.prompts, c.closed, c.records, p, NewPrompt(session, c.closed));
  }

  lemma InsertSlots(prompts: map<SessionId, PromptId>, records: Records, p: PromptId, r: Prompt)
    requires Slots(prompts, records) && p !in records && r.session !in prompts && r.stage.Live() && r.terminals == []
    ensures Slots(prompts[r.session := p], records[p := r])
  {}

  lemma InsertClaims(prompts: map<SessionId, PromptId>, closed: bool, records: Records, p: PromptId, r: Prompt)
    requires Slots(prompts, records) && Claims(prompts, closed, records) && p !in records && r.session !in prompts
    requires r.late ==> closed && LateStage(r.stage)
    ensures Claims(prompts[r.session := p], closed, records[p := r])
  {
    assert forall q | q in records :: InSlot(prompts, q, records[q]) == InSlot(prompts[r.session := p], q, records[q]);
  }

  /** Whoever could still finish the free key did not get Ok, or the connection has closed: then `r` is late. */
  lemma InsertExclusive(prompts: map<SessionId, PromptId>, closed: bool, records: Records, p: PromptId, r: Prompt)
    requires Claims(prompts, closed, records) && Exclusive(prompts, records) && p !in records
    requires r.session !in prompts && r.late == closed
    ensures Exclusive(prompts[r.session := p], records[p := r])
  {
    assert forall q | q in records :: InSlot(prompts, q, records[q]) == InSlot(prompts[r.session := p], q, records[q]);
  }

  lemma RegisterRequests(c: Conn, p: PromptId, id: RequestId)
    requires Requests(c.pending, c.used, c.replies, c.records) && id !in c.used
    requires p in c.records && c.records[p].stage == CheckedOpen && c.records[p].mailbox.None?
    ensures Requests(c.pending[id := ForPrompt(p)], c.used + {id}, c.replies,
        c.records[p := c.records[p].(stage := Sending(id))])
  {}

  lemma RegisterKeeps(c: Conn, p: PromptId, id: RequestId)
    requires Inv(c) && p in c.records && c.records[p].stage == CheckedOpen && id !in c.used
    ensures Inv(c.At(p, Sending(id)).(pending := c.pending[id := ForPrompt(p)], used := c.used + {id}))
  {
    var r := c.records[p].(stage := Sending(id));
    RegisterRequests(c, p, id);
    OtherStream(c.records[p], Sending(id), r.mailbox);
    PutRest(c, p, r);
  }

  lemma WithdrawRequests(c: Conn, p: PromptId)
    requires Requests(c.pending, c.used, c.replies, c.records) && p in c.records && c.records[p].stage.Withdrawing?
    ensures Requests(c.pending - {c.records[p].stage.id}, c.used, c.replies,
                     c.records[p := c.records[p].(stage := Refusing(c.records[p].stage.error))])
  {}

  lemma WithdrawKeeps(c: Conn, p: PromptId)
    requires Inv(c) && p in c.records && c.records[p].stage.Withdrawing?
    ensures Inv(c.At(p, Refusing(c.records[p].stage.error)).(pending := c.pending - {c.records[p].stage.id}))
  {
    var r := c.records[p];
    WithdrawRequests(c, p);
    OtherStream(r, Refusing(r.stage.error), r.mailbox);
    PutRest(c, p, r.(stage := Refusing(r.stage.error)));
  }

  lemma CallerKeeps(c: Conn, id: RequestId)
    requires Inv(c)
    ensures id !in c.used ==> Inv(c.(pending := c.pending[id := ForCaller], used := c.used + {id}))
    ensures Inv(c.(pending := c.pending - {id}))
  {}

  lemma ReplyMail(c: Conn, id: RequestId, reply: Reply)
    requires Mail(c.replies, c.errors, c.records) && id !in c.replies
    ensures Mail(c.replies[id := reply], c.errors, c.records)
  {}

  lemma RespondRequests(c: Conn, id: RequestId, reply: Reply)
    requires Requests(c.pending, c.used, c.replies, c.records) && id in c.pending
    ensures Requests(c.pending - {id}, c.used, c.replies[id := reply], c.records)
    ensures c.pending[id].ForPrompt? ==>
      var p := c.pending[id].prompt;
      Requests(c.pending - {id}, c.used, c.replies[id := reply],
          c.records[p := c.records[p].(mailbox := Some(Peer(reply)))])
  {}

  lemma RespondMail(c: Conn, id: RequestId, reply: Reply)
    requires Requests(c.pending, c.used, c.replies, c.records) && Mail(c.replies, c.errors, c.records)
    requires id in c.pending && c.pending[id].ForPrompt?
    ensures
      var p := c.pending[id].prompt;
      p in c.records && MailOk(c.replies[id := reply], c.errors, c.records[p].(mailbox := Some(Peer(reply))))
  {}

  lemma RespondRest(c: Conn, id: RequestId, reply: Reply)
    requires Inv(c) && id in c.pending && c.pending[id].ForPrompt?
    ensures
      var p := c.pending[id].prompt;
      var records := c.records[p := c.records[p].(mailbox := Some(Peer(reply)))];
      && Table(c.prompts, c.closed, records) && Causes(c.errors, records)
      && Mail(c.replies[id := reply], c.errors, records) && Streams(records)
  {
    ReplyMail(c, id, reply);
    RespondMail(c, id, reply);
    var p := c.pending[id].prompt;
    OtherStream(c.records[p], c.records[p].stage, Some(Peer(reply)));
    PutRest(c.(replies := c.replies[id := reply]), p, c.records[p].(mailbox := Some(Peer(reply))));
  }

  lemma RespondKeeps(c: Conn, id: RequestId, reply: Reply)
    requires Inv(c) && id in c.pending
    ensures Inv(PeerStep(c, Respond(id, reply)))
  {
    RespondRequests(c, id, reply);
    if c.pending[id].ForPrompt? { RespondRest(c, id, reply); } else { ReplyMail(c, id, reply); }
  }

  lemma BeginFailKeeps(c: Conn, f: nat, error: Failure)
    requires Inv(c) && f !in c.failing
    ensures Inv(c.(closed := true, failing := c.failing[f := Marked(error)], errors := c.errors + {error}))
  {
    CloseKeeps(c);
    MoreErrors(c, error);
  }

  lemma MoreErrors(c: Conn, error: Failure)
    requires Mail(c.replies, c.errors, c.records) && Causes(c.errors, c.records)
    ensures Mail(c.replies, c.errors + {error}, c.records) && Causes(c.errors + {error}, c.records)
  {}

  lemma CloseKeeps(c: Conn)
    requires Inv(c)
    ensures Inv(c.(closed := true))
  {
    assert Claims(c.prompts, true, c.records);
  }

  lemma SameSlots(prompts: map<SessionId, PromptId>, closed: bool, records: Records, records': Records)
    requires Table(prompts, closed, records) && records.Keys == records'.Keys
    requires forall p | p in records :: SameClaim(records[p], records'[p])
    ensures Table(prompts, closed, records')
  {}

  predicate OnlyMailboxes(records: Records, records': Records) {
    && records.Keys == records'.Keys
    && forall p | p in records :: records'[p] == records[p].(mailbox := records'[p].mailbox)
  }

  lemma MailboxTable(prompts: map<SessionId, PromptId>, closed: bool, records: Records, records': Records)
    requires Table(prompts, closed, records) && OnlyMailboxes(records, records')
    ensures Table(prompts, closed, records')
  {
    SameSlots(prompts, closed, records, records');
  }

  lemma MailboxCauses(errors: set<Failure>, records: Records, records': Records)
    requires Causes(errors, records) && OnlyMailboxes(records, records')
    ensures Causes(errors, records')
  {}

  lemma MailboxStreams(records: Records, records': Records)
    requires Streams(records) && OnlyMailboxes(records, records')
    ensures Streams(records')
  {
    forall p | p in records' ensures StreamOk(records'[p]) {
      OtherStream(records[p], records[p].stage, records'[p].mailbox);
    }
  }

  lemma AnsweredOnlyMailboxes(records: Records, owners: set<Owner>, error: Failure)
    ensures OnlyMailboxes(records, Answered(records, owners, error))
  {}

  lemma DrainPendingMail(c: Conn, error: Failure)
    requires Mail(c.replies, c.errors, c.records) && error in c.errors
    requires Requests(c.pending, c.used, c.replies, c.records)
    ensures Mail(c.replies, c.errors, DrainedPending(c, error).records)
  {}

  lemma DrainPendingKeeps(c: Conn, error: Failure)
    requires Inv(c) && error in c.errors
    ensures Inv(DrainedPending(c, error))
  {
    var d := DrainedPending(c, error);
    AnsweredOnlyMailboxes(c.records, c.pending.Values, error);
    MailboxTable(c.prompts, c.closed, c.records, d.records);
    MailboxCauses(c.errors, c.records, d.records);
    MailboxStreams(c.records, d.records);
    DrainPendingMail(c, error);
  }

  lemma DrainPromptsTable(c: Conn, error: Failure)
    requires Table(c.prompts, c.closed, c.records) && c.closed
    ensures Table(map[], c.closed, DrainedPrompts(c, error).records)
  {}

  lemma DrainPromptsCauses(c: Conn, error: Failure)
    requires Causes(c.errors, c.records) && error in c.errors
    ensures Causes(c.errors, DrainedPrompts(c, error).records)
  {}

  lemma DrainPromptsRest(c: Conn, error: Failure)
    requires Requests(c.pending, c.used, c.replies, c.records) && Mail(c.replies, c.errors, c.records)
    ensures Requests(c.pending, c.used, c.replies, DrainedPrompts(c, error).records)
    ensures Mail(c.replies, c.errors, DrainedPrompts(c, error).records)
  {}

  lemma TerminalStream(r: Prompt, error: Failure)
    requires StreamOk(r) && r.terminals == []
    ensures StreamOk(WithTerminal(r, error))
  {
    var r' := WithTerminal(r, error);
    assert forall i | 0 <= i < |r.seen| :: Expected(r, i) == Expected(r', i);
  }

  lemma DrainPromptsStreams(c: Conn, error: Failure)
    requires Slots(c.prompts, c.records) && Streams(c.records)
    ensures Streams(DrainedPrompts(c, error).records)
  {
    var records := DrainedPrompts(c, error).records;
    forall p | p in records ensures StreamOk(records[p]) {
      assert StreamOk(c.records[p]);
      if InSlot(c.prompts, p, c.records[p]) { TerminalStream(c.records[p], error); }
    }
  }

  lemma DrainPromptsKeeps(c: Conn, error: Failure)
    requires Inv(c) && error in c.errors
    ensures Inv(DrainedPrompts(c, error))
  {
    DrainPromptsTable(c, error);
    DrainPromptsCauses(c, error);
    DrainPromptsRest(c, error);
    DrainPromptsStreams(c, error);
  }

  lemma LeaveTable(c: Conn, p: PromptId, stage: Stage)
    requires Table(c.prompts, c.closed, c.records) && p in c.records && !stage.Live()
    requires c.records[p].late ==> LateStage(stage)
    requires c.records[p].session !in c.prompts
    ensures Table(c.prompts, c.closed, c.At(p, stage).records)
  {}

  /** Whoever holds the slot when `p` finishes its key is `p` itself, or took the slot too late. */
  lemma Holder(prompts: map<SessionId, PromptId>, records: Records, p: PromptId)
    requires Slots(prompts, records) && Exclusive(prompts, records)
    requires p in records && records[p].stage.Live() && records[p].session in prompts
    ensures var q := prompts[records[p].session]; q in records && (q == p || records[q].late)
  {}

  lemma FinishSlots(c: Conn, p: PromptId, stage: Stage, terminal: Terminal)
    requires Slots(c.prompts, c.records) && p in c.records && c.records[p].session in c.prompts
    ensures
      var d := FinishSession(c.At(p, stage), c.records[p].session, terminal);
      Slots(d.prompts, d.records)
  {}

  lemma FinishClaims(c: Conn, p: PromptId, stage: Stage, terminal: Terminal)
    requires Slots(c.prompts, c.records) && Claims(c.prompts, c.closed, c.records) && !stage.Live()
    requires p in c.records && c.records[p].session in c.prompts && (c.records[p].late ==> LateStage(stage))
    requires var q := c.prompts[c.records[p].session]; q in c.records && (q == p || c.records[q].late)
    ensures
      var d := FinishSession(c.At(p, stage), c.records[p].session, terminal);
      Claims(d.prompts, d.closed, d.records)
  {
    var session := c.records[p].session;
    var d := FinishSession(c.At(p, stage), session, terminal);
    forall x | x in d.records ensures ClaimOk(InSlot(d.prompts, x, d.records[x]), d.closed, d.records[x]) {
      assert ClaimOk(InSlot(c.prompts, x, c.records[x]), c.closed, c.records[x]);
    }
  }

  lemma FinishExclusive(c: Conn, p: PromptId, stage: Stage, terminal: Terminal)
    requires Slots(c.prompts, c.records) && Exclusive(c.prompts, c.records) && !stage.Live()
    requires p in c.records && c.records[p].session in c.prompts
    ensures
      var d := FinishSession(c.At(p, stage), c.records[p].session, terminal);
      Exclusive(d.prompts, d.records)
  {}

  lemma FinishTable(c: Conn, p: PromptId, stage: Stage, terminal: Terminal)
    requires Table(c.prompts, c.closed, c.records) && p in c.records && c.records[p].stage.Live() && !stage.Live()
    requires c.records[p].late ==> LateStage(stage)
    ensures
      var d := FinishSession(c.At(p, stage), c.records[p].session, terminal);
      Table(d.prompts, d.closed, d.records)
  {
    if c.records[p].session in c.prompts {
      Holder(c.prompts, c.records, p);
      FinishSlots(c, p, stage, terminal);
      FinishClaims(c, p, stage, terminal);
      FinishExclusive(c, p, stage, terminal);
    } else {
      LeaveTable(c, p, stage);
    }
  }

  lemma FinishCauses(c: Conn, p: PromptId, stage: Stage, terminal: Terminal)
    requires Slots(c.prompts, c.records) && Exclusive(c.prompts, c.records) && Causes(c.errors, c.records)
    requires p in c.records && c.records[p].stage.Live()
    requires Finishes(c.records[p].stage, p, stage, terminal)
    ensures
      var d := FinishSession(c.At(p, stage), c.records[p].session, terminal);
      Causes(d.errors, d.records)
  {
    var session := c.records[p].session;
    var d := FinishSession(c.At(p, stage), session, terminal);
    forall q, i | q in d.records && 0 <= i < |d.records[q].terminals|
      ensures CauseOk(d.errors, q, d.records[q], d.records[q].terminals[i])
    {
      if i < |c.records[q].terminals| {
        assert CauseOk(c.errors, q, c.records[q], c.records[q].terminals[i]);
      } else {
        assert d.records[q].terminals[i] == terminal && InSlot(c.prompts, q, c.records[q]);
      }
    }
  }

  /** The last act of `start_prompt` or of the completion task of prompt `p`. */
  predicate Finishes(before: Stage, p: PromptId, after: Stage, terminal: Terminal) {
    match after
    case Refused(error) => before == Refusing(error) && terminal == Terminal(Err(error), ByStart(p))
    case Resolved(id, delivery) => before == Resolving(id, delivery) &&
        terminal == Terminal(OutcomeOf(delivery), ByTask(p))
    case _ => false
  }

  lemma FinishRequests(c: Conn, p: PromptId, stage: Stage, terminal: Terminal)
    requires Requests(c.pending, c.used, c.replies, c.records) && p in c.records
    requires Finishes(c.records[p].stage, p, stage, terminal)
    ensures Requests(c.pending, c.used, c.replies,
        FinishSession(c.At(p, stage), c.records[p].session, terminal).records)
  {}

  lemma FinishMail(c: Conn, p: PromptId, stage: Stage, terminal: Terminal)
    requires Mail(c.replies, c.errors, c.records) && p in c.records
    requires Finishes(c.records[p].stage, p, stage, terminal)
    ensures Mail(c.replies, c.errors, FinishSession(c.At(p, stage), c.records[p].session, terminal).records)
  {}

  lemma FinishStreams(c: Conn, p: PromptId, stage: Stage, terminal: Terminal)
    requires Slots(c.prompts, c.records) && Streams(c.records) && p in c.records
    ensures Streams(FinishSession(c.At(p, stage), c.records[p].session, terminal).records)
  {
    var session := c.records[p].session;
    var r := c.records[p].(stage := stage);
    OtherStream(c.records[p], stage, r.mailbox);
    PutStreams(c.records, p, r);
    if session in c.prompts {
      var q := c.prompts[session];
      var d := c.At(p, stage);
      FinishedStream(d.records[q], terminal);
      PutStreams(d.records, q, Finished(d.records[q], terminal));
    }
  }

  /** The heart of the matter: finishing by key is harmless although the key may name another prompt. */
  lemma FinishKeeps(c: Conn, p: PromptId, stage: Stage, terminal: Terminal)
    requires Inv(c) && p in c.records && Finishes(c.records[p].stage, p, stage, terminal)
    ensures Inv(FinishSession(c.At(p, stage), c.records[p].session, terminal))
  {
    FinishTable(c, p, stage, terminal);
    FinishCauses(c, p, stage, terminal);
    FinishRequests(c, p, stage, terminal);
    FinishMail(c, p, stage, terminal);
    FinishStreams(c, p, stage, terminal);
  }

  lemma MoveRequests(c: Conn, p: PromptId, stage: Stage)
    requires Requests(c.pending, c.used, c.replies, c.records) && p in c.records
    requires forall id | id in c.pending && c.pending[id] == ForPrompt(p) :: Registered(stage, id)
    ensures Requests(c.pending, c.used, c.replies, c.records[p := c.records[p].(stage := stage)])
  {}

  lemma MoveKeeps(c: Conn, p: PromptId, stage: Stage)
    requires Inv(c) && p in c.records && c.records[p].stage.Live() && stage.Live()
    requires c.records[p].late ==> LateStage(stage)
    requires forall id | id in c.pending && c.pending[id] == ForPrompt(p) :: Registered(stage, id)
    requires MailOk(c.replies, c.errors, c.records[p].(stage := stage))
    ensures Inv(c.At(p, stage))
  {
    OtherStream(c.records[p], stage, c.records[p].mailbox);
    PutRest(c, p, c.records[p].(stage := stage));
    MoveRequests(c, p, stage);
  }

  lemma StartKeeps(c: Conn, a: Action)
    requires Inv(c)
    ensures Inv(StartStep(c, a))
  {
    match a
    case Insert(p, session) => if p !in c.records && session !in c.prompts { InsertKeeps(c, p, session); }
    case Register(p, id) =>
      if p in c.records && c.records[p].stage == CheckedOpen && id !in c.used { RegisterKeeps(c, p, id); }
    case Withdraw(p) => if p in c.records && c.records[p].stage.Withdrawing? { WithdrawKeeps(c, p); }
    case Refuse(p) => RefuseKeeps(c, p);
    case Resolve(p) => ResolveKeeps(c, p);
    case _ => AdvanceKeeps(c, a);
  }

  lemma RefuseKeeps(c: Conn, p: PromptId)
    requires Inv(c)
    ensures Inv(StartStep(c, Refuse(p)))
  {
    if p in c.records && c.records[p].stage.Refusing? {
      var error := c.records[p].stage.error;
      FinishKeeps(c, p, Refused(error), Terminal(Err(error), ByStart(p)));
      assert StartStep(c, Refuse(p)) ==
             FinishSession(c.At(p, Refused(error)), c.records[p].session, Terminal(Err(error), ByStart(p)));
    }
  }

  lemma ResolveFinishes(c: Conn, p: PromptId) returns (stage: Stage, terminal: Terminal)
    requires p in c.records && c.records[p].stage.Resolving?
    ensures Finishes(c.records[p].stage, p, stage, terminal)
    ensures StartStep(c, Resolve(p)) == FinishSession(c.At(p, stage), c.records[p].session, terminal)
  {
    var before := c.records[p].stage;
    stage := Resolved(before.id, before.delivery);
    terminal := Terminal(OutcomeOf(before.delivery), ByTask(p));
  }

  lemma ResolveKeeps(c: Conn, p: PromptId)
    requires Inv(c)
    ensures Inv(StartStep(c, Resolve(p)))
  {
    if p in c.records && c.records[p].stage.Resolving? {
      var stage, terminal := ResolveFinishes(c, p);
      FinishKeeps(c, p, stage, terminal);
    }
  }

  /** The steps of `start_prompt` that only move the call along. */
  lemma AdvanceKeeps(c: Conn, a: Action)
    requires Inv(c) && !a.Insert? && !a.Register? && !a.Withdraw? && !a.Refuse? && !a.Resolve?
    ensures Inv(StartStep(c, a))
  {
    match a
    case CheckClosed(p) => CheckKeeps(c, p);
    case EncodeFails(p, error) => EncodeKeeps(c, p, error);
    case FrameQueued(p) => QueueKeeps(c, p, TransportClosed);
    case QueueFails(p, error) => QueueKeeps(c, p, error);
    case Receive(p) => ReceiveKeeps(c, p);
    case _ =>
  }

  lemma CheckKeeps(c: Conn, p: PromptId)
    requires Inv(c)
    ensures Inv(StartStep(c, CheckClosed(p)))
  {
    if p in c.records && c.records[p].stage == Inserted {
      MoveKeeps(c, p, if c.closed then Refusing(ShuttingDown) else CheckedOpen);
    }
  }

  lemma EncodeKeeps(c: Conn, p: PromptId, error: Failure)
    requires Inv(c)
    ensures Inv(StartStep(c, EncodeFails(p, error)))
  {
    if p in c.records && c.records[p].stage == CheckedOpen { MoveKeeps(c, p, Refusing(error)); }
  }

  lemma QueueKeeps(c: Conn, p: PromptId, error: Failure)
    requires Inv(c)
    ensures Inv(StartStep(c, FrameQueued(p))) && Inv(StartStep(c, QueueFails(p, error)))
  {
    if p in c.records && c.records[p].stage.Sending? {
      MoveKeeps(c, p, Waiting(c.records[p].stage.id));
      MoveKeeps(c, p, Withdrawing(c.records[p].stage.id, error));
    }
  }

  lemma ReceiveKeeps(c: Conn, p: PromptId)
    requires Inv(c)
    ensures Inv(StartStep(c, Receive(p)))
  {
    if p in c.records && c.records[p].stage.Waiting? && c.records[p].mailbox.Some? {
      MoveKeeps(c, p, Resolving(c.records[p].stage.id, c.records[p].mailbox.value));
    }
  }

  lemma PeerKeeps(c: Conn, a: Action)
    requires Inv(c)
    ensures Inv(PeerStep(c, a))
  {
    match a
    case RegisterCaller(id) => CallerKeeps(c, id);
    case ForgetCaller(id) => CallerKeeps(c, id);
    case Respond(id, reply) => if id in c.pending { RespondKeeps(c, id, reply); }
    case Notify(session, update) => NotifyKeeps(c, session, update);
    case CloseFlag => CloseKeeps(c);
    case BeginFail(f, error) => if f !in c.failing { BeginFailKeeps(c, f, error); }
    case DrainPending(f) => if f in c.failing { DrainPendingKeeps(c, c.failing[f].error); }
    case DrainPrompts(f) => if f in c.failing { DrainPromptsKeeps(c, c.failing[f].error); }
    case Poll(p) => PollKeeps(c, p);
    case AbandonNext(p) => AbandonKeeps(c, p);
    case DropReceiver(p) => DropKeeps(c, p);
    case _ =>
  }

  lemma NotifyKeeps(c: Conn, session: SessionId, update: Option<string>)
    requires Inv(c)
    ensures Inv(PeerStep(c, Notify(session, update)))
  {
    if session in c.prompts {
      var p := c.prompts[session];
      NotifiedStream(c.records[p], update);
      NotifiedSame(c.records[p], update);
      StreamKeeps(c, p, Notified(c.records[p], update));
    }
  }

  lemma NotifiedSame(r: Prompt, update: Option<string>)
    ensures OnlyStream(r, Notified(r, update))
  {}

  lemma PollKeeps(c: Conn, p: PromptId)
    requires Inv(c)
    ensures Inv(PeerStep(c, Poll(p)))
  {
    if p in c.records && Reading(c.records[p]) {
      var r, inSlot := c.records[p], InSlot(c.prompts, p, c.records[p]);
      PolledStream(r, inSlot);
      PolledSame(r, inSlot);
      StreamKeeps(c, p, Polled(r, inSlot));
    }
  }

  lemma PolledSame(r: Prompt, inSlot: bool)
    ensures OnlyStream(r, Polled(r, inSlot))
  {}

  /** Only the consumer's side differs. */
  predicate OnlyStream(q: Prompt, r: Prompt) {
    r.session == q.session && r.stage == q.stage && r.late == q.late && r.mailbox == q.mailbox &&
        r.terminals == q.terminals
  }

  lemma StreamKeeps(c: Conn, p: PromptId, r: Prompt)
    requires Inv(c) && p in c.records && OnlyStream(c.records[p], r) && StreamOk(r)
    ensures Inv(c.Put(p, r))
  {
    PutKeeps(c, p, r);
  }

  lemma AbandonKeeps(c: Conn, p: PromptId)
    requires Inv(c)
    ensures Inv(PeerStep(c, AbandonNext(p)))
  {
    if p in c.records {
      ConsumerStream(c.records[p], Idle);
      PutKeeps(c, p, c.records[p].(consumer := Idle));
    }
  }

  lemma DropKeeps(c: Conn, p: PromptId)
    requires Inv(c)
    ensures Inv(PeerStep(c, DropReceiver(p)))
  {
    if p in c.records {
      DroppedStream(c.records[p]);
      StreamKeeps(c, p, c.records[p].(receiverAlive := false));
    }
  }

  lemma DroppedStream(r: Prompt)
    requires StreamOk(r)
    ensures StreamOk(r.(receiverAlive := false))
  {
    var r' := r.(receiverAlive := false);
    assert forall i | 0 <= i < |r.seen| :: Expected(r, i) == Expected(r', i);
  }

  // ---- Whole runs ----

  function Run(c: Conn, schedule: seq<Action>): Conn
    decreases |schedule|
  {
    if schedule == [] then c else Run(Step(c, schedule[0]), schedule[1..])
  }

  lemma {:induction false} RunKeeps(c: Conn, schedule: seq<Action>)
    requires Inv(c)
    ensures Inv(Run(c, schedule))
    decreases |schedule|
  {
    if schedule != [] {
      StartKeeps(c, schedule[0]);
      PeerKeeps(StartStep(c, schedule[0]), schedule[0]);
      RunKeeps(Step(c, schedule[0]), schedule[1..]);
    }
  }

  /** The connection failed with this error. */
  predicate ConnectionFailure(c: Conn, outcome: Outcome) {
    c.closed && outcome.Err? && outcome.error in c.errors
  }

  /** The outcome is what the peer replied to the prompt's own request. */
  predicate OwnReply(c: Conn, r: Prompt, outcome: Outcome)
    requires r.stage.Resolved?
  {
    r.stage.id in c.replies && outcome == OutcomeOf(Peer(c.replies[r.stage.id]))
  }

  /**
   * No cross-talk: after every schedule, a prompt whose `start_prompt` returned Ok was finished at
   * most once: by a drain of `fail`, or by its own completion task with the reply to its own request
   * or with the connection failure it was sent instead. No other call ever finished it.
   */
  lemma NoCrossTalk(schedule: seq<Action>, p: PromptId)
    requires p in Run(FRESH, schedule).records && Run(FRESH, schedule).records[p].stage.ReturnedOk()
    ensures
      var c := Run(FRESH, schedule);
      var r := c.records[p];
      && |r.terminals| <= 1
      && (r.terminals != [] ==>
            var t := r.terminals[0];
            || (t.cause == ByFail && ConnectionFailure(c, t.outcome))
            || (t.cause == ByTask(p) && r.stage.Resolved? &&
                (OwnReply(c, r, t.outcome) || ConnectionFailure(c, t.outcome))))
  {
    RunKeeps(FRESH, schedule);
    var c := Run(FRESH, schedule);
    var r := c.records[p];
    if r.terminals != [] { assert CauseOk(c.errors, p, r, r.terminals[0]); }
  }

  /** A prompt that took its slot after the connection closed is refused: its call never returns Ok. */
  lemma LatePromptsAreRefused(schedule: seq<Action>, p: PromptId)
    requires p in Run(FRESH, schedule).records && Run(FRESH, schedule).records[p].late
    ensures !Run(FRESH, schedule).records[p].stage.ReturnedOk()
  {
    RunKeeps(FRESH, schedule);
  }

  /**
   * Exact delivery: after every schedule the consumer has seen, in order and nothing else, the
   * enqueued updates, then the terminal result, then None; the updates are none, or one
   * Acknowledged first and never again; and the state is never found unavailable.
   */
  lemma ExactDelivery(schedule: seq<Action>, p: PromptId)
    requires p in Run(FRESH, schedule).records
    ensures
      var r := Run(FRESH, schedule).records[p];
      && (forall i | 0 <= i < |r.seen| :: r.seen[i] == Expected(r, i))
      && (forall i | 0 <= i < |r.enqueued| :: r.enqueued[i] == Acknowledged <==> i == 0)
      && StateUnavailable !in r.seen
      && (r.finished <==> |r.seen| > |r.enqueued|)
      && (r.finished ==> r.State().Some? && r.seen[|r.enqueued|] == GotFinished(r.State().value))
  {
    RunKeeps(FRESH, schedule);
    var r := Run(FRESH, schedule).records[p];
    assert StreamOk(r);
  }

  /** Nobody is left waiting: a prompt without its slot has a terminal state, one with it has none. */
  lemma SlotOrTerminal(schedule: seq<Action>, p: PromptId)
    requires p in Run(FRESH, schedule).records
    ensures var c := Run(FRESH, schedule); InSlot(c.prompts, p, c.records[p]) <==> c.records[p].State().None?
  {
    RunKeeps(FRESH, schedule);
  }

  /** `PromptControl::cancel` reports Confirmed only when the prompt's own reply said "cancelled". */
  lemma CancelConfirmedByOwnReply(schedule: seq<Action>, p: PromptId)
    requires p in Run(FRESH, schedule).records && Run(FRESH, schedule).records[p].stage.ReturnedOk()
    requires Run(FRESH, schedule).records[p].State() == Some(Ok(Cancelled))
    ensures
      var c := Run(FRESH, schedule);
      var r := c.records[p];
      r.stage.Resolved? && r.stage.id in c.replies && c.replies[r.stage.id] == Returned(Some("cancelled"))
  {
    NoCrossTalk(schedule, p);
  }
}
