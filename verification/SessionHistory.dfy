/** Session history: the fold that accepts or rejects a durable event log, and user controls. */
module SessionHistory {
  import opened Base


  datatype Approval = Grant | Deny

  /** Event payloads, with the data that the fold or the orchestrator looks at. */
  datatype Payload =
    | SessionCreated | ConfigurationResolved | InputRecorded(content: Text) | RoutingPlanned(permission: Permission)
    | ClarificationRequested | ApprovalRequested | ApprovalRecorded(decision: Approval)
    | DispatchPlanned(attempt: AttemptId, effectClass: EffectClass, operation: string, idempotent: bool)
    | DispatchStarted(attempt: AttemptId) | DispatchAcknowledged(attempt: AttemptId)
    | ProviderEvent(attempt: AttemptId, content: Text) | ToolEvent(attempt: AttemptId, content: Text)
    | PauseRequested | SessionPaused | SessionResumed | SessionRedirected | CancelRequested | CancelConfirmed
    | OutcomeUnknown(attempt: AttemptId, reason: string) | OutcomeReconciled(attempt: AttemptId, resolution: Resolution)
    | SessionCompleted(attemptId: Option<AttemptId>, summary: string)
    | SessionFailed(attemptId: Option<AttemptId>, summary: string)
    | SessionCancelled | SessionAbandoned | SessionExported | SessionDeletionRequested | SessionDeleted
    | WorkflowTransition

  datatype State =
    | Ready | Running | Pausing | Paused | AwaitingClarification | AwaitingApproval | Cancelling | Unknown
    | Completed | Failed | Cancelled | Abandoned | Deleting | Deleted
  {
    predicate IsTerminal() { Completed? || Failed? || Cancelled? || Abandoned? || Deleted? }
  }

  /** A one-based, 64-bit session sequence number. */
  type Sequence = n: nat | 1 <= n <= U64_MAX witness 1

  datatype Event = Event(sequence: Sequence, payload: Payload)

  datatype FoldError = EmptyHistory | SequenceGap | SequenceExhausted | InvalidTransition

  predicate NonTransitioning(state: State, p: Payload) {
    || (state.Ready? && (p.ConfigurationResolved? || p.InputRecorded? || p.RoutingPlanned? || p.DispatchPlanned?))
    || (state.Running? && (p.DispatchPlanned? || p.DispatchAcknowledged? || p.ProviderEvent? || p.ToolEvent?
                           || p.WorkflowTransition? || p.RoutingPlanned? || p.InputRecorded?))
    || ((state.Ready? || state.Paused?) && p.WorkflowTransition?)
    || (!state.Deleted? && p.SessionExported?)
  }

  /** The state after one event; None for an illegal transition. */
  function Transition(current: Option<State>, p: Payload): Option<State> {
    match (current, p)
    case (None, SessionCreated) => Some(Ready)
    case (None, _) => None
    case (Some(s), _) =>
      if (s.Ready? || s.Running?) && p.DispatchStarted? then Some(Running)
      else if s.Ready? && p.ClarificationRequested? then Some(AwaitingClarification)
      else if (s.Ready? || s.Running?) && p.ApprovalRequested? then Some(AwaitingApproval)
      else if s.AwaitingApproval? && p == ApprovalRecorded(Grant) then Some(Running)
      else if s.AwaitingApproval? && p == ApprovalRecorded(Deny) then Some(Paused)
      else if s.Running? && p.PauseRequested? then Some(Pausing)
      else if s.Pausing? && p.SessionPaused? then Some(Paused)
      else if s.Paused? && p.SessionResumed? then Some(Running)
      else if s.Paused? && p.SessionRedirected? then Some(Paused)
      else if s.AwaitingClarification? && p.SessionRedirected? then Some(Ready)
      else if (s.Ready? || s.Running? || s.Pausing? || s.Paused? || s.AwaitingClarification? || s.AwaitingApproval?)
              && p.CancelRequested? then Some(Cancelling)
      else if s.Cancelling? && p.CancelConfirmed? then Some(Cancelling)
      else if s.Cancelling? && p.SessionCancelled? then Some(Cancelled)
      else if (s.Running? || s.Cancelling?) && p.OutcomeUnknown? then Some(Unknown)
      else if s.Unknown? && p.OutcomeReconciled? then
        (match p.resolution
         case Retry => Some(Running)
         case AcceptResult => Some(Completed)
         case Abandon => Some(Abandoned))
      else if s.Running? && p.SessionCompleted? then Some(Completed)
      else if s.Running? && p.SessionFailed? then Some(Failed)
      else if s.Unknown? && p.SessionAbandoned? then Some(Abandoned)
      else if (s.Completed? || s.Failed? || s.Cancelled? || s.Abandoned?) && p.SessionDeletionRequested?
          then Some(Deleting)
      else if s.Deleting? && p.SessionDeleted? then Some(Deleted)
      else if NonTransitioning(s, p) then Some(s)
      else None
  }

  /** Folding the rest of a history from a state and the last sequence. */
  function FoldFrom(state: State, last: Sequence, events: seq<Event>): Result<State, FoldError>
    decreases |events|
  {
    if events == [] then Ok(state)
    else if last == U64_MAX then Err(SequenceExhausted)
    else if events[0].sequence != last + 1 then Err(SequenceGap)
    else match Transition(Some(state), events[0].payload)
      case None => Err(InvalidTransition)
      case Some(next) => FoldFrom(next, events[0].sequence, events[1..])
  }

  function Fold(events: seq<Event>): Result<State, FoldError> {
    if events == [] then Err(EmptyHistory)
    else match Transition(None, events[0].payload)
      case None => Err(InvalidTransition)
      case Some(state) => FoldFrom(state, events[0].sequence, events[1..])
  }

  method FoldHistory(events: seq<Event>) returns (r: Result<State, FoldError>)
    ensures r == Fold(events)
  {
    var state: Option<State> := None;
    var previous: Option<Sequence> := None;
    var i := 0;
    while i < |events|
      invariant 0 <= i <= |events|
      invariant state.Some? == previous.Some? == (i > 0)
      invariant i > 0 ==> Fold(events) == FoldFrom(state.value, previous.value, events[i..])
    {
      var event := events[i];
      assert i > 0 ==> events[i..][0] == event && events[i..][1..] == events[i + 1..];
      if previous.Some? {
        if previous.value == U64_MAX {
          return Err(SequenceExhausted);
        }
        if event.sequence != previous.value + 1 {
          return Err(SequenceGap);
        }
      }
      var next := Transition(state, event.payload);
      if next.None? {
        return Err(InvalidTransition);
      }
      state, previous := next, Some(event.sequence);
      i := i + 1;
    }
    return if state.Some? then Ok(state.value) else Err(EmptyHistory);
  }

  // ---- Laws of every accepted history ----

  predicate Accepted(h: seq<Event>) { Fold(h).Ok? }

  lemma {:induction false} FoldFromConcat(state: State, last: Sequence, a: seq<Event>, b: seq<Event>)
    requires FoldFrom(state, last, a).Ok?
    ensures FoldFrom(state, last, a + b) ==
            FoldFrom(FoldFrom(state, last, a).value, if a == [] then last else a[|a| - 1].sequence, b)
    decreases |a|
  {
    if a == [] {
      assert a + b == b;
    } else {
      assert (a + b)[0] == a[0] && (a + b)[1..] == a[1..] + b;
      FoldFromConcat(Transition(Some(state), a[0].payload).value, a[0].sequence, a[1..], b);
    }
  }

  /** A history goes on exactly as its last state and sequence say. */
  lemma FoldConcat(a: seq<Event>, b: seq<Event>)
    requires Accepted(a)
    ensures Fold(a + b) == FoldFrom(Fold(a).value, a[|a| - 1].sequence, b)
  {
    var s := Transition(None, a[0].payload).value;
    assert (a + b)[1..] == a[1..] + b;
    FoldFromConcat(s, a[0].sequence, a[1..], b);
  }

  lemma {:induction false} FoldFromPrefix(state: State, last: Sequence, a: seq<Event>, k: nat)
    requires FoldFrom(state, last, a).Ok? && k <= |a|
    ensures FoldFrom(state, last, a[..k]).Ok?
    decreases |a|
  {
    if k > 0 {
      assert a[..k][0] == a[0] && a[..k][1..] == a[1..][..k - 1];
      FoldFromPrefix(Transition(Some(state), a[0].payload).value, a[0].sequence, a[1..], k - 1);
    }
  }

  /** Every non-empty prefix of an accepted history is accepted: a crash never leaves an illegal log. */
  lemma PrefixAccepted(h: seq<Event>, k: nat)
    requires Accepted(h) && 1 <= k <= |h|
    ensures Accepted(h[..k])
  {
    assert h[..k][1..] == h[1..][..k - 1];
    FoldFromPrefix(Transition(None, h[0].payload).value, h[0].sequence, h[1..], k - 1);
  }

  lemma {:induction false} NoSecondCreation(state: State, last: Sequence, a: seq<Event>, i: nat)
    requires FoldFrom(state, last, a).Ok? && i < |a|
    ensures !a[i].payload.SessionCreated? && a[i].sequence == last + 1 + i
    decreases |a|
  {
    if i > 0 { NoSecondCreation(Transition(Some(state), a[0].payload).value, a[0].sequence, a[1..], i - 1); }
  }

  /** Creation occurs once and first, and sequence numbers count up by one. */
  lemma CreatedOnceAndFirst(h: seq<Event>, i: nat)
    requires Accepted(h) && i < |h|
    ensures (h[i].payload.SessionCreated? <==> i == 0) && h[i].sequence == h[0].sequence + i
  {
    if i > 0 { NoSecondCreation(Transition(None, h[0].payload).value, h[0].sequence, h[1..], i - 1); }
  }

  /** Unknown outcomes raised less those settled by a reconciliation or an abandonment. */
  function OpenUnknowns(h: seq<Event>): int {
    if h == [] then 0
    else
      (if h[0].payload.OutcomeUnknown? then 1
       else if h[0].payload.OutcomeReconciled? || h[0].payload.SessionAbandoned? then -1 else 0) + OpenUnknowns(h[1..])
  }

  lemma {:induction false} UnknownsFrom(state: State, last: Sequence, a: seq<Event>)
    requires FoldFrom(state, last, a).Ok?
    ensures OpenUnknowns(a) ==
            (if FoldFrom(state, last, a).value.Unknown? then 1 else 0) - (if state.Unknown? then 1 else 0)
    decreases |a|
  {
    if a != [] { UnknownsFrom(Transition(Some(state), a[0].payload).value, a[0].sequence, a[1..]); }
  }

  /** Conservation: one unknown outcome is open exactly when the session is OutcomeUnknown, else none. */
  lemma UnknownsAreConserved(h: seq<Event>)
    requires Accepted(h)
    ensures OpenUnknowns(h) == if Fold(h).value.Unknown? then 1 else 0
  {
    UnknownsFrom(Transition(None, h[0].payload).value, h[0].sequence, h[1..]);
  }

  /** What may follow a finished session: exports, and one deletion request followed by one deletion. */
  predicate Epilogue(state: State, a: seq<Event>)
    decreases |a|
  {
    a == [] ||
    (match a[0].payload
     case SessionExported => !state.Deleted? && Epilogue(state, a[1..])
     case SessionDeletionRequested => !state.Deleting? && !state.Deleted? && Epilogue(Deleting, a[1..])
     case SessionDeleted => state.Deleting? && Epilogue(Deleted, a[1..])
     case _ => false)
  }

  predicate Consecutive(last: Sequence, a: seq<Event>) {
    forall i | 0 <= i < |a| :: a[i].sequence == last + 1 + i
  }

  /** After a terminal state the accepted continuations are exactly the epilogues; after Deleted, none. */
  lemma {:induction false} AfterTheEnd(state: State, last: Sequence, a: seq<Event>)
    requires state.IsTerminal() || state.Deleting?
    ensures FoldFrom(state, last, a).Ok? <==> Epilogue(state, a) && Consecutive(last, a)
    decreases |a|
  {
    if a != [] {
      var next := Transition(Some(state), a[0].payload);
      if next.Some? && last < U64_MAX && a[0].sequence == last + 1 {
        AfterTheEnd(next.value, a[0].sequence, a[1..]);
        assert Consecutive(last, a) <==> Consecutive(a[0].sequence, a[1..]) by {
          if Consecutive(a[0].sequence, a[1..]) {
            forall i | 0 <= i < |a| ensures a[i].sequence == last + 1 + i {
              if i > 0 { assert a[i] == a[1..][i - 1]; }
            }
          }
        }
      }
    }
  }

  lemma TerminalHistoryContinues(h: seq<Event>, a: seq<Event>)
    requires Accepted(h) && Fold(h).value.IsTerminal()
    ensures Accepted(h + a) <==> Epilogue(Fold(h).value, a) && Consecutive(h[|h| - 1].sequence, a)
  {
    FoldConcat(h, a);
    AfterTheEnd(Fold(h).value, h[|h| - 1].sequence, a);
  }

  // ---- Controls ----

  datatype Control = Pause | Resume | Redirect | Cancel
  datatype ControlOutcome = Append(payload: Payload) | AlreadyApplied

  /** The event a control asks for. */
  function Wanted(control: Control): Payload {
    match control
    case Pause => PauseRequested
    case Resume => SessionResumed
    case Redirect => SessionRedirected
    case Cancel => CancelRequested
  }

  function DecideControl(state: State, control: Control): Result<ControlOutcome, FoldError> {
    match (state, control)
    case (Running, Pause) => Ok(Append(PauseRequested))
    case (Pausing, Pause) => Ok(AlreadyApplied)
    case (Paused, Pause) => Ok(AlreadyApplied)
    case (Paused, Resume) => Ok(Append(SessionResumed))
    case (Running, Resume) => Ok(AlreadyApplied)
    case (Paused, Redirect) => Ok(Append(SessionRedirected))
    case (AwaitingClarification, Redirect) => Ok(Append(SessionRedirected))
    case (_, Cancel) =>
      if state.IsTerminal() || state.Deleting? || state.Unknown? then Err(InvalidTransition)
      else if state.Cancelling? then Ok(AlreadyApplied)
      else Ok(Append(CancelRequested))
    case _ => Err(InvalidTransition)
  }

  /** A control appends its event exactly when the fold accepts it, for every history it is decided on. */
  lemma ControlsAgreeWithTheFold(h: seq<Event>, control: Control, sequence: Sequence)
    requires Accepted(h) && h[|h| - 1].sequence < U64_MAX && sequence == h[|h| - 1].sequence + 1
    ensures DecideControl(Fold(h).value, control) == Ok(Append(Wanted(control)))
            <==> Accepted(h + [Event(sequence, Wanted(control))])
    ensures DecideControl(Fold(h).value, control).Ok? && DecideControl(Fold(h).value, control).value.Append? ==>
            DecideControl(Fold(h).value, control).value.payload == Wanted(control)
  {
    FoldConcat(h, [Event(sequence, Wanted(control))]);
  }
}
