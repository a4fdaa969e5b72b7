/**
 * `Orchestrator::execute`: record input and route, plan and start one attempt, only then call the
 * provider, and turn its stream into events. Appends may fail at any point, with or without the
 * event having become durable; the provider's answers are arbitrary.
 */
module Orchestration {
  import opened Base
  import opened SessionHistory
  import Attempts

  datatype Request = Request(content: Text, permission: Permission, operation: string, policy: Attempts.Policy)

  datatype ProviderFailure = ProviderFailure(definite: bool, message: string)

  datatype Item =
    | Acknowledge
    | Content(content: Text)
    | Tool(content: Text)
    | Complete(summary: string)
    | Fail(failure: ProviderFailure)

  /** How the provider answers `start_session` and `prompt_stream`; a stream is its items. */
  datatype Provider = Provider(session: Result<(), ProviderFailure>, prompt: Result<seq<Item>, ProviderFailure>)

  datatype Outcome = CompletedOutcome | FailedOutcome | UnknownOutcome
  datatype Error = PolicyDenied | ApprovalRequiredError | InvalidRequest | StorageFailed

  /** What becomes of one append: it succeeds, or fails having stored the event or not. */
  datatype Fate = Stored | StoredButFailed | Refused

  // ---- What `execute` means to append ----

  function Opening(q: Request): seq<Payload> { [InputRecorded(q.content), RoutingPlanned(q.permission)] }

  function Dispatch(q: Request, attempt: AttemptId): seq<Payload> {
    [DispatchPlanned(attempt, q.policy.effectClass, q.operation, q.policy.explicitlyIdempotent),
     DispatchStarted(attempt)]
  }

  const ENDED_EARLY := "provider stream ended without a definite terminal result"

  function FailureEvent(attempt: AttemptId, f: ProviderFailure): (Payload, Outcome) {
    if f.definite then (SessionFailed(Some(attempt), f.message), FailedOutcome)
    else (OutcomeUnknown(attempt, f.message), UnknownOutcome)
  }

  /** The events of a stream, up to and including the outcome, and the outcome. */
  function StreamEvents(attempt: AttemptId, items: seq<Item>): (seq<Payload>, Outcome) {
    if items == [] then ([OutcomeUnknown(attempt, ENDED_EARLY)], UnknownOutcome)
    else match items[0]
      case Complete(summary) => ([SessionCompleted(Some(attempt), summary)], CompletedOutcome)
      case Fail(f) => ([FailureEvent(attempt, f).0], FailureEvent(attempt, f).1)
      case item =>
        var (rest, outcome) := StreamEvents(attempt, items[1..]);
        ([ItemEvent(attempt, item)] + rest, outcome)
  }

  function ItemEvent(attempt: AttemptId, item: Item): Payload
    requires !item.Complete? && !item.Fail?
  {
    match item
    case Acknowledge => DispatchAcknowledged(attempt)
    case Content(content) => ProviderEvent(attempt, content)
    case Tool(content) => ToolEvent(attempt, content)
  }

  function ProviderEvents(attempt: AttemptId, p: Provider): (seq<Payload>, Outcome) {
    if p.session.Err? then ([FailureEvent(attempt, p.session.error).0], FailureEvent(attempt, p.session.error).1)
    else if p.prompt.Err? then ([FailureEvent(attempt, p.prompt.error).0], FailureEvent(attempt, p.prompt.error).1)
    else StreamEvents(attempt, p.prompt.value)
  }

  function Refusal(q: Request): Option<Error> {
    match q.permission
    case Denied => Some(PolicyDenied)
    case ApprovalRequired => Some(ApprovalRequiredError)
    case ReadOnly => if Attempts.MayPlan(q.operation, q.policy) then None else Some(InvalidRequest)
  }

  function Script(q: Request, attempt: AttemptId, p: Provider): (seq<Payload>, Result<Outcome, Error>) {
    if Refusal(q).Some? then (Opening(q), Err(Refusal(q).value))
    else
      var (events, outcome) := ProviderEvents(attempt, p);
      (Opening(q) + Dispatch(q, attempt) + events, Ok(outcome))
  }

  // ---- The store ----

  predicate Room(log: seq<Event>) { log == [] || log[|log| - 1].sequence < U64_MAX }

  function Next(log: seq<Event>, p: Payload): Event
    requires Room(log)
  {
    Event(if log == [] then 1 else log[|log| - 1].sequence + 1, p)
  }

  /** Appending payloads in order until one fails; append number `n` meets `fates(n)`. */
  function StoreAll(log: seq<Event>, payloads: seq<Payload>, fates: nat -> Fate, n: nat): (seq<Event>, bool)
    decreases |payloads|
  {
    if payloads == [] then (log, true)
    else if !Room(log) || fates(n).Refused? then (log, false)
    else if fates(n).StoredButFailed? then (log + [Next(log, payloads[0])], false)
    else StoreAll(log + [Next(log, payloads[0])], payloads[1..], fates, n + 1)
  }

  datatype Call = StartSession | PromptStream
  /** A provider call and what was durable when it was made. */
  datatype Effect = Effect(call: Call, durable: seq<Event>)

  class Orchestrator {
    const fates: nat -> Fate
    var log: seq<Event>
    var appends: nat
    var effects: seq<Effect>

    constructor (fates: nat -> Fate, log: seq<Event>)
      ensures this.fates == fates && this.log == log && appends == 0 && effects == []
    {
      this.fates, this.log, appends, effects := fates, log, 0, [];
    }

    method Append(p: Payload) returns (ok: bool)
      modifies this`log, this`appends
      ensures appends == old(appends) + 1
      ensures ok == (Room(old(log)) && fates(old(appends)).Stored?)
      ensures log == if Room(old(log)) && !fates(old(appends)).Refused? then old(log) + [Next(old(log), p)]
          else old(log)
    {
      var fate := fates(appends);
      appends := appends + 1;
      if !Room(log) || fate.Refused? {
        return false;
      }
      log := log + [Next(log, p)];
      ok := fate.Stored?;
    }

    /** Append the next payload of a script: the rest is still to come, or this was the end. */
    method AppendNext(ghost script: seq<Payload>, p: Payload) returns (ok: bool)
      requires script != [] && script[0] == p
      modifies this`log, this`appends
      ensures appends == old(appends) + 1
      ensures ok ==> Room(old(log)) && log == old(log) + [Next(old(log), p)]
      ensures StoreAll(old(log), script, fates, old(appends)) ==
              if ok then StoreAll(log, script[1..], fates, appends) else (log, false)
    {
      ok := Append(p);
    }

    method Execute(q: Request, id: AttemptId, p: Provider) returns (r: Result<Outcome, Error>)
      modifies this
      ensures
        var (payloads, result) := Script(q, id, p);
        var (after, ok) := StoreAll(old(log), payloads, fates, old(appends));
        log == after && r == if ok then result else Err(StorageFailed)
      ensures effects == old(effects) + Effects(q, id, p, old(log), fates, old(appends))
    {
      var dispatched := RecordDispatch(q, id);
      StoreConcat(old(log), Opening(q) + Dispatch(q, id), ProviderEvents(id, p).0, fates, old(appends));
      assert Opening(q) + [] == Opening(q);
      if dispatched.Err? {
        return dispatched;
      }
      effects := effects + [Effect(StartSession, log)];
      if p.session.Err? {
        r := RecordFailure(id, p.session.error);
        return;
      }
      effects := effects + [Effect(PromptStream, log)];
      if p.prompt.Err? {
        r := RecordFailure(id, p.prompt.error);
        return;
      }
      r := RecordStream(id, p.prompt.value);
    }

    /** Everything before the provider is touched; Ok stands for "go ahead". */
    method RecordDispatch(q: Request, id: AttemptId) returns (r: Result<Outcome, Error>)
      modifies this`log, this`appends
      ensures
        var all := Opening(q) + if Refusal(q).None? then Dispatch(q, id) else [];
        var (after, ok) := StoreAll(old(log), all, fates, old(appends));
        && log == after && (r.Ok? <==> ok && Refusal(q).None?)
        && (r.Err? ==> r.error == if ok then Refusal(q).value else StorageFailed)
        && (ok ==> appends == old(appends) + |all|)
    {
      ghost var todo := Opening(q) + if Refusal(q).None? then Dispatch(q, id) else [];
      var ok := AppendNext(todo, InputRecorded(q.content));
      if !ok {
        return Err(StorageFailed);
      }
      todo := todo[1..];
      ok := AppendNext(todo, RoutingPlanned(q.permission));
      if !ok {
        return Err(StorageFailed);
      }
      todo := todo[1..];
      if q.permission.Denied? {
        return Err(PolicyDenied);
      }
      if q.permission.ApprovalRequired? {
        return Err(ApprovalRequiredError);
      }
      if !Attempts.MayPlan(q.operation, q.policy) {
        return Err(InvalidRequest);
      }
      var attempt := new Attempts.Attempt(id, q.operation, q.policy);
      ok := AppendNext(todo, DispatchPlanned(attempt.id, attempt.policy.effectClass, attempt.operation,
                                             attempt.policy.explicitlyIdempotent));
      if !ok {
        return Err(StorageFailed);
      }
      todo := todo[1..];
      var _ := attempt.Apply(Attempts.MarkStarted);
      ok := AppendNext(todo, DispatchStarted(attempt.id));
      if !ok {
        return Err(StorageFailed);
      }
      return Ok(UnknownOutcome);
    }

    method RecordFailure(id: AttemptId, f: ProviderFailure) returns (r: Result<Outcome, Error>)
      modifies this`log, this`appends
      ensures
        var (event, outcome) := FailureEvent(id, f);
        var (after, ok) := StoreAll(old(log), [event], fates, old(appends));
        log == after && r == if ok then Ok(outcome) else Err(StorageFailed)
    {
      var (event, outcome) := FailureEvent(id, f);
      var ok := AppendNext([event], event);
      r := if ok then Ok(outcome) else Err(StorageFailed);
    }

    method RecordStream(id: AttemptId, items: seq<Item>) returns (r: Result<Outcome, Error>)
      modifies this`log, this`appends
      ensures
        var (events, outcome) := StreamEvents(id, items);
        var (after, ok) := StoreAll(old(log), events, fates, old(appends));
        log == after && r == if ok then Ok(outcome) else Err(StorageFailed)
    {
      ghost var (events, outcome) := StreamEvents(id, items);
      var k := 0;
      assert items[0..] == items;
      while k < |items|
        invariant 0 <= k <= |items|
        invariant StreamEvents(id, items[k..]).1 == outcome
        invariant StoreAll(log, StreamEvents(id, items[k..]).0, fates, appends) ==
            StoreAll(old(log), events, fates, old(appends))
      {
        var item := items[k];
        ghost var todo := StreamEvents(id, items[k..]).0;
        assert items[k..][0] == item && items[k..][1..] == items[k + 1..];
        match item {
          case Complete(summary) =>
            var ok := AppendNext(todo, SessionCompleted(Some(id), summary));
            return if ok then Ok(CompletedOutcome) else Err(StorageFailed);
          case Fail(f) =>
            r := RecordFailure(id, f);
            return;
          case _ =>
            var ok := AppendNext(todo, ItemEvent(id, item));
            if !ok {
              return Err(StorageFailed);
            }
            assert todo[1..] == StreamEvents(id, items[k + 1..]).0;
        }
        k := k + 1;
      }
      var ok := AppendNext([OutcomeUnknown(id, ENDED_EARLY)], OutcomeUnknown(id, ENDED_EARLY));
      return if ok then Ok(UnknownOutcome) else Err(StorageFailed);
    }
  }

  /** The provider calls of one execution: none unless input, plan, dispatch and start were all stored. */
  function Effects(q: Request, id: AttemptId, p: Provider, log: seq<Event>, fates: nat -> Fate, n: nat): seq<Effect> {
    var (durable, ok) := StoreAll(log, Opening(q) + Dispatch(q, id), fates, n);
    if Refusal(q).Some? || !ok then []
    else if p.session.Err? then [Effect(StartSession, durable)]
    else [Effect(StartSession, durable), Effect(PromptStream, durable)]
  }

  lemma {:induction false} StoreConcat(log: seq<Event>, a: seq<Payload>, b: seq<Payload>, fates: nat -> Fate, n: nat)
    ensures
      var (mid, ok) := StoreAll(log, a, fates, n);
      StoreAll(log, a + b, fates, n) == if ok then StoreAll(mid, b, fates, n + |a|) else (mid, false)
    decreases |a|
  {
    if a == [] {
      assert a + b == b;
    } else {
      assert (a + b)[0] == a[0] && (a + b)[1..] == a[1..] + b;
      if Room(log) { StoreConcat(log + [Next(log, a[0])], a[1..], b, fates, n + 1); }
    }
  }

  // ---- Legality of the trace ----

  /** Payloads as the store numbers them after sequence `last`. */
  function Numbered(last: nat, payloads: seq<Payload>): seq<Event>
    requires last + |payloads| <= U64_MAX
    decreases |payloads|
  {
    if payloads == [] then [] else [Event(last + 1, payloads[0])] + Numbered(last + 1, payloads[1..])
  }

  function Last(log: seq<Event>): nat { if log == [] then 0 else log[|log| - 1].sequence }

  /** However appends fail, what is stored is the log followed by a prefix of the script. */
  lemma {:induction false} StoredIsAPrefix(log: seq<Event>, payloads: seq<Payload>, fates: nat -> Fate,
                                           n: nat) returns (k: nat)
    ensures k <= |payloads| && Last(log) + k <= U64_MAX
    ensures StoreAll(log, payloads, fates, n).0 == log + Numbered(Last(log), payloads[..k])
    ensures StoreAll(log, payloads, fates, n).1 ==> k == |payloads|
    decreases |payloads|
  {
    if payloads == [] || !Room(log) || fates(n).Refused? {
      k := 0;
      assert payloads[..0] == [] && log + [] == log;
    } else {
      var next := log + [Next(log, payloads[0])];
      if fates(n).StoredButFailed? {
        k := 1;
        assert payloads[..1][0] == payloads[0] && payloads[..1][1..] == [];
      } else {
        var j := StoredIsAPrefix(next, payloads[1..], fates, n + 1);
        k := j + 1;
        assert payloads[..k][0] == payloads[0] && payloads[..k][1..] == payloads[1..][..j];
        assert next + Numbered(Last(next), payloads[1..][..j]) == log + Numbered(Last(log), payloads[..k]);
      }
    }
  }

  /** Stepping a state through payloads, sequence numbers aside. */
  function Drive(state: State, payloads: seq<Payload>): Option<State>
    decreases |payloads|
  {
    if payloads == [] then Some(state)
    else match Transition(Some(state), payloads[0])
      case None => None
      case Some(next) => Drive(next, payloads[1..])
  }

  lemma {:induction false} DriveIsFold(state: State, last: Sequence, payloads: seq<Payload>)
    requires last + |payloads| <= U64_MAX
    ensures FoldFrom(state, last, Numbered(last, payloads)) ==
            match Drive(state, payloads) case Some(s) => Ok(s) case None => Err(InvalidTransition)
    decreases |payloads|
  {
    if payloads != [] {
      assert Numbered(last, payloads)[1..] == Numbered(last + 1, payloads[1..]);
      match Transition(Some(state), payloads[0])
      case None =>
      case Some(next) => DriveIsFold(next, last + 1, payloads[1..]);
    }
  }

  lemma {:induction false} DrivePrefix(state: State, payloads: seq<Payload>, k: nat)
    requires Drive(state, payloads).Some? && k <= |payloads|
    ensures Drive(state, payloads[..k]).Some?
    decreases |payloads|
  {
    if k > 0 {
      assert payloads[..k][0] == payloads[0] && payloads[..k][1..] == payloads[1..][..k - 1];
      DrivePrefix(Transition(Some(state), payloads[0]).value, payloads[1..], k - 1);
    }
  }

  function StateOf(outcome: Outcome): State {
    match outcome
    case CompletedOutcome => Completed
    case FailedOutcome => Failed
    case UnknownOutcome => Unknown
  }

  /** Whatever the provider streams, a running session follows it and ends as the outcome says. */
  lemma {:induction false} StreamIsLegal(attempt: AttemptId, items: seq<Item>)
    ensures var (events, outcome) := StreamEvents(attempt, items); Drive(Running, events) == Some(StateOf(outcome))
    decreases |items|
  {
    if items != [] && !items[0].Complete? && !items[0].Fail? {
      StreamIsLegal(attempt, items[1..]);
      var rest := StreamEvents(attempt, items[1..]).0;
      assert ([ItemEvent(attempt, items[0])] + rest)[1..] == rest;
    }
  }

  /** The state an execution is to leave: its outcome, or where it started when refused before dispatch. */
  function Target(state: State, result: Result<Outcome, Error>): State {
    if result.Ok? then StateOf(result.value) else state
  }

  lemma {:induction false} DriveConcat(state: State, a: seq<Payload>, b: seq<Payload>)
    ensures Drive(state, a + b) == match Drive(state, a) case Some(s) => Drive(s, b) case None => None
    decreases |a|
  {
    if a == [] {
      assert a + b == b;
    } else {
      assert (a + b)[0] == a[0] && (a + b)[1..] == a[1..] + b;
      match Transition(Some(state), a[0])
      case None =>
      case Some(next) => DriveConcat(next, a[1..], b);
    }
  }

  lemma BeforeTheProvider(state: State, q: Request, attempt: AttemptId)
    ensures Drive(state, Opening(q)) == if state.Ready? || state.Running? then Some(state) else None
    ensures state.Ready? || state.Running? ==> Drive(state, Dispatch(q, attempt)) == Some(Running)
  {
    var plan, start := [RoutingPlanned(q.permission)], [DispatchStarted(attempt)];
    assert Opening(q)[1..] == plan && plan[1..] == [] && Dispatch(q, attempt)[1..] == start && start[1..] == [];
    if state.Ready? || state.Running? {
      assert Drive(state, plan) == Some(state) && Drive(state, start) == Some(Running);
    }
  }

  lemma FromTheProvider(attempt: AttemptId, p: Provider)
    ensures var (events, outcome) := ProviderEvents(attempt, p); Drive(Running, events) == Some(StateOf(outcome))
  {
    if p.session.Ok? && p.prompt.Ok? { StreamIsLegal(attempt, p.prompt.value); }
  }

  /** The whole script is legal exactly from Ready and Running, whatever the request and the provider. */
  lemma ScriptIsLegal(state: State, q: Request, attempt: AttemptId, p: Provider)
    ensures
      var (payloads, result) := Script(q, attempt, p);
      Drive(state, payloads) == if state.Ready? || state.Running? then Some(Target(state, result)) else None
  {
    BeforeTheProvider(state, q, attempt);
    FromTheProvider(attempt, p);
    DriveConcat(state, Opening(q), Dispatch(q, attempt));
    DriveConcat(state, Opening(q) + Dispatch(q, attempt), ProviderEvents(attempt, p).0);
  }

  /**
   * Trace legality: executed on any accepted history that is Ready or Running, with appends failing
   * in any pattern, the history stays accepted; if no append failed it ends in the state the result
   * names, and a request refused before dispatch leaves the state as it was.
   */
  lemma ExecutionStaysLegal(log: seq<Event>, q: Request, attempt: AttemptId, p: Provider, fates: nat -> Fate, n: nat)
    requires Accepted(log) && (Fold(log).value.Ready? || Fold(log).value.Running?)
    ensures
      var (payloads, result) := Script(q, attempt, p);
      var (after, ok) := StoreAll(log, payloads, fates, n);
      Accepted(after) && (ok ==> Fold(after).value == Target(Fold(log).value, result))
  {
    var state := Fold(log).value;
    var (payloads, result) := Script(q, attempt, p);
    ScriptIsLegal(state, q, attempt, p);
    var k := StoredIsAPrefix(log, payloads, fates, n);
    DrivePrefix(state, payloads, k);
    FoldConcat(log, Numbered(Last(log), payloads[..k]));
    DriveIsFold(state, Last(log), payloads[..k]);
    if k == |payloads| { assert payloads[..k] == payloads; }
  }

  /** The condition is exact: on any other accepted history a stored script makes the log illegal. */
  lemma ExecutionNeedsReadyOrRunning(log: seq<Event>, q: Request, attempt: AttemptId, p: Provider, fates: nat -> Fate,
                                     n: nat)
    requires Accepted(log) && !Fold(log).value.Ready? && !Fold(log).value.Running?
    requires StoreAll(log, Script(q, attempt, p).0, fates, n).1
    ensures !Accepted(StoreAll(log, Script(q, attempt, p).0, fates, n).0)
  {
    var state := Fold(log).value;
    var payloads := Script(q, attempt, p).0;
    ScriptIsLegal(state, q, attempt, p);
    var k := StoredIsAPrefix(log, payloads, fates, n);
    assert payloads[..k] == payloads;
    FoldConcat(log, Numbered(Last(log), payloads));
    DriveIsFold(state, Last(log), payloads);
  }

  /**
   * Persist before effect: every provider call happened with the four records of its attempt durable, in
   * order, last.
   */
  lemma PersistedBeforeEffect(q: Request, attempt: AttemptId, p: Provider, log: seq<Event>, fates: nat -> Fate,
                              n: nat, i: nat)
    requires i < |Effects(q, attempt, p, log, fates, n)|
    ensures
      var durable := Effects(q, attempt, p, log, fates, n)[i].durable;
      && q.permission.ReadOnly? && Last(log) + 4 <= U64_MAX
      && durable == log + Numbered(Last(log), Opening(q) + Dispatch(q, attempt))
  {
    var four := Opening(q) + Dispatch(q, attempt);
    var k := StoredIsAPrefix(log, four, fates, n);
    assert four[..k] == four;
  }

  /** Does an event record this outcome of this attempt? */
  predicate Records(p: Payload, attempt: AttemptId, outcome: Outcome) {
    match outcome
    case CompletedOutcome => p.SessionCompleted? && p.attemptId == Some(attempt)
    case FailedOutcome => p.SessionFailed? && p.attemptId == Some(attempt)
    case UnknownOutcome => p.OutcomeUnknown? && p.attempt == attempt
  }

  lemma {:induction false} StreamEndsWithOutcome(attempt: AttemptId, items: seq<Item>)
    ensures
      var (events, outcome) := StreamEvents(attempt, items);
      events != [] && Records(events[|events| - 1], attempt, outcome)
    decreases |items|
  {
    if items != [] && !items[0].Complete? && !items[0].Fail? { StreamEndsWithOutcome(attempt, items[1..]); }
  }

  lemma {:induction false} LastNumbered(last: nat, payloads: seq<Payload>)
    requires last + |payloads| <= U64_MAX && payloads != []
    ensures var events := Numbered(last, payloads);
        events != [] && events[|events| - 1].payload == payloads[|payloads| - 1]
    decreases |payloads|
  {
    if |payloads| > 1 { LastNumbered(last + 1, payloads[1..]); }
  }

  /**
   * No invented outcome: an Ok result has its outcome as the last durable event; once the provider
   * was called, an error can only be a failed append.
   */
  lemma OutcomesAreRecorded(log: seq<Event>, q: Request, attempt: AttemptId, p: Provider, fates: nat -> Fate, n: nat)
    ensures
      var (payloads, result) := Script(q, attempt, p);
      var (after, ok) := StoreAll(log, payloads, fates, n);
      && (ok && result.Ok? ==> after != [] && Records(after[|after| - 1].payload, attempt, result.value))
      && (Effects(q, attempt, p, log, fates, n) != [] ==> result.Ok?)
  {
    var (payloads, result) := Script(q, attempt, p);
    if result.Ok? {
      if p.session.Ok? && p.prompt.Ok? { StreamEndsWithOutcome(attempt, p.prompt.value); }
      var k := StoredIsAPrefix(log, payloads, fates, n);
      if StoreAll(log, payloads, fates, n).1 {
        assert payloads[..k] == payloads;
        LastNumbered(Last(log), payloads);
      }
    }
  }
}
