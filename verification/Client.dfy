/** The command-line client: correlated calls and de-duplicated events over one connection. */
module Client {
  import opened Base

  /** `valid` is the verdict of the event's own validation. */
  datatype Event = Event(id: nat, body: string, valid: bool)

  datatype Code = InvalidRequest | UnsupportedVersion | FrameTooLarge | OtherCode

  /** What the transport yields; `result` is None when it does not deserialize into the expected type. */
  datatype Message =
    | EventMessage(event: Event)
    | Success(request: nat, result: Option<string>)
    | Failure(request: nat, code: Code)
    | Broken

  datatype Error =
    | SendFailed | Codec | Protocol(code: Code) | InvalidResult | InvalidEvent
    | CorrelationMismatch | UnexpectedReply | Disconnected

  predicate IsValidEvent(m: Message) { m.EventMessage? && m.event.valid }

  /** `taken` messages of the stream were read so far. */
  datatype State = State(taken: nat, pending: seq<Event>, seen: set<nat>)

  // ---- The two operations as functions ----

  /** The valid events among messages `i` up to `k`, in arrival order. */
  function ValidEvents(stream: seq<Message>, i: nat, k: nat): seq<Event>
    requires i <= k <= |stream|
    decreases k
  {
    if k == i then []
    else ValidEvents(stream, i, k - 1) + if IsValidEvent(stream[k - 1]) then [stream[k - 1].event] else []
  }

  /** The first message from `i` on that is not a valid event; the length of the stream if there is none. */
  function Stop(stream: seq<Message>, i: nat): (r: nat)
    requires i <= |stream|
    ensures i <= r <= |stream| && (r < |stream| ==> !IsValidEvent(stream[r]))
    ensures forall j | i <= j < r :: IsValidEvent(stream[j])
    decreases |stream| - i
  {
    if i < |stream| && IsValidEvent(stream[i]) then Stop(stream, i + 1) else i
  }

  predicate PreCorrelation(code: Code) { !code.OtherCode? }

  /** The outcome of a call whose first message other than a valid event is `m`. */
  function Answer(expected: nat, m: Message): Result<string, Error>
    requires !IsValidEvent(m)
  {
    match m
    case EventMessage(_) => Err(InvalidEvent)
    case Success(request, result) =>
      if request != expected then Err(CorrelationMismatch)
      else if result.None? then Err(InvalidResult)
      else Ok(result.value)
    case Failure(request, code) =>
      if !PreCorrelation(code) && request != expected then Err(CorrelationMismatch) else Err(Protocol(code))
    case Broken => Err(Codec)
  }

  function Called(stream: seq<Message>, c: State, expected: nat): (State, Result<string, Error>)
    requires c.taken <= |stream|
  {
    var k := Stop(stream, c.taken);
    var pending := c.pending + ValidEvents(stream, c.taken, k);
    if k == |stream| then (State(k, pending, c.seen), Err(Disconnected))
    else (State(k + 1, pending, c.seen), Answer(expected, stream[k]))
  }

  /** The first event not seen yet; the length if all were. */
  function Unseen(events: seq<Event>, seen: set<nat>): (r: nat)
    ensures r <= |events| && (r < |events| ==> events[r].id !in seen)
    ensures forall j | 0 <= j < r :: events[j].id in seen
  {
    if events == [] || events[0].id !in seen then 0
    else
      assert forall j | 1 <= j < |events| :: events[j] == events[1..][j - 1];
      Unseen(events[1..], seen) + 1
  }

  predicate IsRepeat(m: Message, seen: set<nat>) { IsValidEvent(m) && m.event.id in seen }

  /** The first message from `i` on that is not a repeated event. */
  function StopAtNews(stream: seq<Message>, seen: set<nat>, i: nat): (r: nat)
    requires i <= |stream|
    ensures i <= r <= |stream| && (r < |stream| ==> !IsRepeat(stream[r], seen))
    ensures forall j | i <= j < r :: IsRepeat(stream[j], seen)
    decreases |stream| - i
  {
    if i < |stream| && IsRepeat(stream[i], seen) then StopAtNews(stream, seen, i + 1) else i
  }

  /** What `next_event` makes of a message that is no repeated event. */
  function News(m: Message): Result<Event, Error> {
    match m
    case EventMessage(event) => if event.valid then Ok(event) else Err(InvalidEvent)
    case Success(_, _) => Err(UnexpectedReply)
    case Failure(_, code) => Err(Protocol(code))
    case Broken => Err(Codec)
  }

  function Remembered(seen: set<nat>, r: Result<Event, Error>): set<nat> { if r.Ok? then seen + {r.value.id} else seen }

  function Next(stream: seq<Message>, c: State): (State, Result<Event, Error>)
    requires c.taken <= |stream|
  {
    var k := Unseen(c.pending, c.seen);
    if k < |c.pending| then (State(c.taken, c.pending[k + 1..], c.seen + {c.pending[k].id}), Ok(c.pending[k]))
    else NextRead(stream, c.taken, c.seen)
  }

  /** `next_event` with nothing pending. */
  function NextRead(stream: seq<Message>, taken: nat, seen: set<nat>): (State, Result<Event, Error>)
    requires taken <= |stream|
  {
    var j := StopAtNews(stream, seen, taken);
    if j == |stream| then (State(j, [], seen), Err(Disconnected))
    else (State(j + 1, [], Remembered(seen, News(stream[j]))), News(stream[j]))
  }

  // ---- The client ----

  class ProtocolClient {
    const stream: seq<Message>    // everything the daemon will send
    var taken: nat
    var pending: seq<Event>
    var seen: set<nat>

    ghost predicate Valid() reads this { taken <= |stream| }

    function View(): State reads this { State(taken, pending, seen) }

    constructor (stream: seq<Message>)
      ensures Valid() && this.stream == stream && View() == State(0, [], {})
    {
      this.stream := stream;
      taken, pending, seen := 0, [], {};
    }

    /** `call`; `sent` says whether the command went out. */
    method Call(expected: nat, sent: bool) returns (r: Result<string, Error>)
      requires Valid()
      modifies this
      ensures Valid()
      ensures !sent ==> View() == old(View()) && r == Err(SendFailed)
      ensures sent ==> (View(), r) == Called(stream, old(View()), expected)
    {
      if !sent {
        return Err(SendFailed);
      }
      ghost var start, kept := taken, pending;
      while taken < |stream|
        invariant start <= taken <= |stream| && Stop(stream, taken) == Stop(stream, start)
        invariant forall j | start <= j < taken :: IsValidEvent(stream[j])
        invariant pending == kept + ValidEvents(stream, start, taken) && seen == old(seen)
      {
        var message := stream[taken];
        if !IsValidEvent(message) {
          taken := taken + 1;
          r := Answer(expected, message);
          return;
        }
        assert ValidEvents(stream, start, taken + 1) == ValidEvents(stream, start, taken) + [message.event];
        pending := pending + [message.event];
        taken := taken + 1;
      }
      r := Err(Disconnected);
    }

    method NextEvent() returns (r: Result<Event, Error>)
      requires Valid()
      modifies this
      ensures Valid() && (View(), r) == Next(stream, old(View()))
    {
      ghost var i := 0;
      while pending != []
        invariant i <= |old(pending)| && pending == old(pending)[i..] && taken == old(taken) && seen == old(seen)
        invariant forall j | 0 <= j < i :: old(pending)[j].id in seen
        decreases |pending|
      {
        var event := pending[0];
        pending := pending[1..];
        if event.id !in seen {
          assert i == Unseen(old(pending), old(seen));
          seen := seen + {event.id};
          return Ok(event);
        }
        i := i + 1;
      }
      while taken < |stream|
        invariant old(taken) <= taken <= |stream| && pending == [] && seen == old(seen)
        invariant StopAtNews(stream, seen, taken) == StopAtNews(stream, seen, old(taken))
      {
        var message := stream[taken];
        taken := taken + 1;
        if !IsRepeat(message, seen) {
          r := News(message);
          seen := Remembered(seen, r);
          return;
        }
      }
      r := Err(Disconnected);
    }
  }

  // ---- De-duplication over every interleaving ----

  datatype Operation = Call(expected: nat, sent: bool) | NextEvent

  /** The state after some operations and the events they delivered. */
  function Run(stream: seq<Message>, operations: seq<Operation>): (r: (State, seq<Event>))
    ensures r.0.taken <= |stream|
  {
    if operations == [] then (State(0, [], {}), [])
    else
      var n := |operations| - 1;
      var (c, delivered) := Run(stream, operations[..n]);
      match operations[n]
      case Call(expected, sent) => (if sent then Called(stream, c, expected).0 else c, delivered)
      case NextEvent =>
        var (next, r) := Next(stream, c);
        (next, if r.Ok? then delivered + [r.value] else delivered)
  }

  ghost function Ids(events: seq<Event>): set<nat> { set i | 0 <= i < |events| :: events[i].id }

  /** The first occurrence of every event id, in order. */
  function Firsts(events: seq<Event>): seq<Event> {
    if events == [] then []
    else
      var n := |events| - 1;
      var earlier := Firsts(events[..n]);
      if exists i | 0 <= i < n :: events[i].id == events[n].id then earlier else earlier + [events[n]]
  }

  /** Of the valid events received, `handled` came first and `pending` still wait. */
  ghost predicate Received(stream: seq<Message>, taken: nat, handled: seq<Event>, pending: seq<Event>) {
    taken <= |stream| && ValidEvents(stream, 0, taken) == handled + pending
  }

  /** What was handled is remembered by id, and its first occurrences were delivered. */
  ghost predicate Delivered(handled: seq<Event>, seen: set<nat>, delivered: seq<Event>) {
    seen == Ids(handled) && delivered == Firsts(handled)
  }

  lemma {:induction false} RepeatsAddNothing(handled: seq<Event>, more: seq<Event>)
    requires forall j | 0 <= j < |more| :: more[j].id in Ids(handled)
    ensures Ids(handled + more) == Ids(handled) && Firsts(handled + more) == Firsts(handled)
  {
    if more == [] {
      assert handled + more == handled;
    } else {
      var n := |more| - 1;
      RepeatsAddNothing(handled, more[..n]);
      var whole, front := handled + more, handled + more[..n];
      assert whole == front + [more[n]] && whole[..|whole| - 1] == front;
      IdsOfMore(front, more[n]);
      var i :| 0 <= i < |handled| && handled[i].id == more[n].id;
      assert whole[i].id == whole[|whole| - 1].id;
    }
  }

  lemma NewsIsDelivered(handled: seq<Event>, event: Event)
    requires event.id !in Ids(handled)
    ensures Ids(handled + [event]) == Ids(handled) + {event.id} &&
        Firsts(handled + [event]) == Firsts(handled) + [event]
  {
    var whole := handled + [event];
    assert whole[..|handled|] == handled;
    assert forall i | 0 <= i < |handled| :: whole[i] == handled[i] && handled[i].id in Ids(handled);
    assert whole[|handled|].id == event.id;
  }

  lemma {:induction false} ReceivedUpTo(stream: seq<Message>, i: nat, k: nat)
    requires i <= k <= |stream|
    ensures ValidEvents(stream, 0, k) == ValidEvents(stream, 0, i) + ValidEvents(stream, i, k)
    decreases k
  {
    if i < k {
      ReceivedUpTo(stream, i, k - 1);
      var last := if IsValidEvent(stream[k - 1]) then [stream[k - 1].event] else [];
      Regroup(ValidEvents(stream, 0, i), ValidEvents(stream, i, k - 1), last);
    }
  }

  lemma Regroup(a: seq<Event>, b: seq<Event>, c: seq<Event>)
    ensures (a + b) + c == a + (b + c)
  {}

  lemma CallReceives(stream: seq<Message>, c: State, handled: seq<Event>, expected: nat)
    requires Received(stream, c.taken, handled, c.pending)
    ensures
      var next := Called(stream, c, expected).0;
      Received(stream, next.taken, handled, next.pending) && next.seen == c.seen
  {
    var k := Stop(stream, c.taken);
    var more := ValidEvents(stream, c.taken, k);
    ReceivedUpTo(stream, c.taken, k);
    Regroup(handled, c.pending, more);
    if k < |stream| { assert ValidEvents(stream, 0, k + 1) == ValidEvents(stream, 0, k) + []; }
  }

  lemma {:induction false} AllRepeats(stream: seq<Message>, i: nat, k: nat, seen: set<nat>)
    requires i <= k <= |stream| && forall j | i <= j < k :: IsRepeat(stream[j], seen)
    ensures forall j | 0 <= j < |ValidEvents(stream, i, k)| :: ValidEvents(stream, i, k)[j].id in seen
    decreases k
  {
    if i < k { AllRepeats(stream, i, k - 1, seen); }
  }

  /** Repeats are handled without a delivery. */
  lemma OldIsQuiet(handled: seq<Event>, repeats: seq<Event>, seen: set<nat>, delivered: seq<Event>)
    requires Delivered(handled, seen, delivered) && forall j | 0 <= j < |repeats| :: repeats[j].id in seen
    ensures Delivered(handled + repeats, seen, delivered)
  {
    RepeatsAddNothing(handled, repeats);
  }

  lemma NewsGoesOut(handled: seq<Event>, event: Event, seen: set<nat>, delivered: seq<Event>)
    requires Delivered(handled, seen, delivered) && event.id !in seen
    ensures Delivered(handled + [event], seen + {event.id}, delivered + [event])
  {
    NewsIsDelivered(handled, event);
  }

  /** The events in front of `pending` move over to the handled ones. */
  lemma Shift(stream: seq<Message>, taken: nat, handled: seq<Event>, pending: seq<Event>, k: nat)
    requires Received(stream, taken, handled, pending) && k <= |pending|
    ensures Received(stream, taken, handled + pending[..k], pending[k..])
  {
    assert pending == pending[..k] + pending[k..];
    Regroup(handled, pending[..k], pending[k..]);
  }

  /** `next_event` answered from `pending`: repeats are dropped, then one event is handed out. */
  lemma PendingNext(stream: seq<Message>, c: State, handled: seq<Event>, delivered: seq<Event>)
    returns (after: seq<Event>)
    requires Received(stream, c.taken, handled, c.pending) && Delivered(handled, c.seen, delivered)
    requires Unseen(c.pending, c.seen) < |c.pending|
    ensures
      var (next, r) := Next(stream, c);
      r.Ok? && Received(stream, next.taken, after, next.pending) && Delivered(after, next.seen, delivered + [r.value])
  {
    var k := Unseen(c.pending, c.seen);
    after := handled + c.pending[..k + 1];
    Shift(stream, c.taken, handled, c.pending, k + 1);
    HandOut(handled, c.pending, k, c.seen, delivered);
  }

  lemma HandOut(handled: seq<Event>, pending: seq<Event>, k: nat, seen: set<nat>, delivered: seq<Event>)
    requires Delivered(handled, seen, delivered) && k < |pending| && pending[k].id !in seen
    requires forall j | 0 <= j < k :: pending[j].id in seen
    ensures Delivered(handled + pending[..k + 1], seen + {pending[k].id}, delivered + [pending[k]])
  {
    OldIsQuiet(handled, pending[..k], seen, delivered);
    NewsGoesOut(handled + pending[..k], pending[k], seen, delivered);
    assert handled + pending[..k + 1] == (handled + pending[..k]) + [pending[k]];
  }

  /** Nothing pending is news: all of it is handled without a delivery. */
  lemma PendingIsOld(stream: seq<Message>, c: State, handled: seq<Event>, delivered: seq<Event>)
    requires Received(stream, c.taken, handled, c.pending) && Delivered(handled, c.seen, delivered)
    requires Unseen(c.pending, c.seen) == |c.pending|
    ensures Received(stream, c.taken, handled + c.pending, []) && Delivered(handled + c.pending, c.seen, delivered)
  {
    OldIsQuiet(handled, c.pending, c.seen, delivered);
    assert handled + c.pending + [] == handled + c.pending;
  }

  /** `next_event` with nothing pending handles the valid events it reads. */
  lemma ReadDelivers(stream: seq<Message>, taken: nat, handled: seq<Event>, seen: set<nat>, delivered: seq<Event>)
    requires taken <= |stream| && Delivered(handled, seen, delivered)
    ensures
      var (next, r) := NextRead(stream, taken, seen);
      var read := ValidEvents(stream, taken, next.taken);
      Delivered(handled + read, next.seen, if r.Ok? then delivered + [r.value] else delivered)
  {
    var j := StopAtNews(stream, seen, taken);
    var repeats := ValidEvents(stream, taken, j);
    AllRepeats(stream, taken, j, seen);
    OldIsQuiet(handled, repeats, seen, delivered);
    if j < |stream| {
      if IsValidEvent(stream[j]) {
        NewsGoesOut(handled + repeats, stream[j].event, seen, delivered);
        Regroup(handled, repeats, [stream[j].event]);
      } else {
        assert ValidEvents(stream, taken, j + 1) == repeats + [] == repeats;
      }
    }
  }

  lemma ReadReceives(stream: seq<Message>, taken: nat, handled: seq<Event>, upTo: nat)
    requires Received(stream, taken, handled, []) && taken <= upTo <= |stream|
    ensures Received(stream, upTo, handled + ValidEvents(stream, taken, upTo), [])
  {
    ReceivedUpTo(stream, taken, upTo);
    var read := ValidEvents(stream, taken, upTo);
    assert handled + [] == handled && (handled + read) + [] == handled + read;
  }

  lemma NextKeeps(stream: seq<Message>, c: State, handled: seq<Event>, delivered: seq<Event>)
    returns (after: seq<Event>)
    requires Received(stream, c.taken, handled, c.pending) && Delivered(handled, c.seen, delivered)
    ensures
      var (next, r) := Next(stream, c);
      && Received(stream, next.taken, after, next.pending)
      && Delivered(after, next.seen, if r.Ok? then delivered + [r.value] else delivered)
  {
    if Unseen(c.pending, c.seen) < |c.pending| {
      after := PendingNext(stream, c, handled, delivered);
    } else {
      PendingIsOld(stream, c, handled, delivered);
      var next := NextRead(stream, c.taken, c.seen).0;
      ReadDelivers(stream, c.taken, handled + c.pending, c.seen, delivered);
      ReadReceives(stream, c.taken, handled + c.pending, next.taken);
      after := handled + c.pending + ValidEvents(stream, c.taken, next.taken);
    }
  }

  lemma {:induction false} RunKeeps(stream: seq<Message>, operations: seq<Operation>) returns (handled: seq<Event>)
    ensures
      var (c, delivered) := Run(stream, operations);
      Received(stream, c.taken, handled, c.pending) && Delivered(handled, c.seen, delivered)
  {
    handled := [];
    if operations != [] {
      var n := |operations| - 1;
      handled := RunKeeps(stream, operations[..n]);
      var (c, delivered) := Run(stream, operations[..n]);
      match operations[n]
      case Call(expected, sent) => if sent { CallReceives(stream, c, handled, expected); }
      case NextEvent => handled := NextKeeps(stream, c, handled, delivered);
    }
  }

  /**
   * Across every interleaving of calls and event reads, the delivered events are the first occurrences, in
   * arrival order, of the valid events received so far without those still pending.
   */
  lemma DeliveredAreFirstOccurrences(stream: seq<Message>, operations: seq<Operation>)
    ensures
      var (c, delivered) := Run(stream, operations);
      exists handled :: ValidEvents(stream, 0, c.taken) == handled + c.pending && delivered == Firsts(handled)
  {
    var handled := RunKeeps(stream, operations);
  }

  lemma IdsOfMore(events: seq<Event>, event: Event)
    ensures Ids(events + [event]) == Ids(events) + {event.id}
  {
    var more := events + [event];
    assert more[|events|] == event && forall i | 0 <= i < |events| :: more[i] == events[i];
  }

  /** The earliest position of an event with this id; the length if there is none. */
  function FirstAt(events: seq<Event>, id: nat): (r: nat)
    ensures r <= |events| && (r < |events| ==> events[r].id == id)
    ensures forall i | 0 <= i < r :: events[i].id != id
  {
    if events == [] || events[0].id == id then 0
    else
      assert forall i | 1 <= i < |events| :: events[i] == events[1..][i - 1];
      FirstAt(events[1..], id) + 1
  }

  lemma SamePosition(events: seq<Event>, event: Event, id: nat)
    requires FirstAt(events, id) < |events|
    ensures FirstAt(events + [event], id) == FirstAt(events, id)
  {
    var more, k := events + [event], FirstAt(events, id);
    assert more[k].id == id && forall i | 0 <= i < k :: more[i] == events[i];
  }

  lemma StillFirst(front: seq<Event>, event: Event)
    requires forall i | 0 <= i < |Firsts(front)| :: StandsFirst(front, Firsts(front)[i])
    ensures forall i | 0 <= i < |Firsts(front)| ::
      var e := Firsts(front)[i];
      StandsFirst(front + [event], e) && FirstAt(front + [event], e.id) == FirstAt(front, e.id) < |front|
  {
    forall i | 0 <= i < |Firsts(front)|
      ensures
        var e := Firsts(front)[i];
        StandsFirst(front + [event], e) && FirstAt(front + [event], e.id) == FirstAt(front, e.id) < |front|
    {
      SamePosition(front, event, Firsts(front)[i].id);
    }
  }

  lemma NewPosition(front: seq<Event>, event: Event)
    requires event.id !in Ids(front)
    ensures FirstAt(front + [event], event.id) == |front| && StandsFirst(front + [event], event)
  {
    var more := front + [event];
    forall i | 0 <= i < |front| ensures more[i].id != event.id { assert front[i].id in Ids(front); }
    assert more[|front|] == event;
  }

  /**
   * What first occurrences are: every id exactly once, each event at the earliest position of its id, and in
   * arrival order.
   */
  lemma {:induction false} FirstsAreFirst(events: seq<Event>)
    ensures Ids(Firsts(events)) == Ids(events)
    ensures forall i | 0 <= i < |Firsts(events)| :: StandsFirst(events, Firsts(events)[i])
    ensures forall i, j | 0 <= i < j < |Firsts(events)| ::
      FirstAt(events, Firsts(events)[i].id) < FirstAt(events, Firsts(events)[j].id)
  {
    if events != [] {
      var n := |events| - 1;
      var front, event := events[..n], events[n];
      FirstsAreFirst(front);
      var earlier := Firsts(front);
      assert events == front + [event];
      IdsOfMore(front, event);
      IdsOfMore(earlier, event);
      StillFirst(front, event);
      if event.id !in Ids(front) { NewPosition(front, event); }
    }
  }

  /** The event is the earliest with its id. */
  predicate StandsFirst(events: seq<Event>, event: Event) {
    FirstAt(events, event.id) < |events| && events[FirstAt(events, event.id)] == event
  }

  /** A call answers with the first message that is not a valid event, and keeps every event before it. */
  lemma CallsAreCorrelated(stream: seq<Message>, c: State, expected: nat, x: string)
    requires c.taken <= |stream|
    ensures Called(stream, c, expected).1 == Ok(x) <==>
            exists k | c.taken <= k < |stream| ::
              stream[k] == Success(expected, Some(x)) && forall j | c.taken <= j < k :: IsValidEvent(stream[j])
  {
    var stop := Stop(stream, c.taken);
    if k :| c.taken <= k < |stream| && stream[k] == Success(expected, Some(x)) &&
            forall j | c.taken <= j < k :: IsValidEvent(stream[j])
    {
      assert stop == k;
    }
  }
}
