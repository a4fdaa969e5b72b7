/**
 * One Claude attempt: `run_attempt` turns child output and commands into a bounded output stream,
 * and confirms a cancellation. Which branch of the select fires, what the child says, whether a
 * shutdown reaps it and when the consumer reads are all arbitrary inputs.
 */
module ClaudeAttempt {
  import opened Base

  const QUEUE_DEPTH := 256
  const QUEUE_BYTES := 16 * 1024 * 1024

  datatype Inbound =
    | SystemInit
    | ControlResponse(requestId: string, success: bool)
    | TextDelta(delta: string)
    | Assistant(text: seq<string>, tools: seq<string>)
    | ToolStarted(name: string)
    | ResultFrame(isError: bool, subtype: string, terminalReason: Option<string>)
    | Ignored

  /** What `process.next()` gives. */
  datatype Got = Frame(inbound: Inbound) | EndOfStream | ReadError

  datatype Output =
    | Acknowledged
    | Content(eventType: string, content: Text)
    | Tool(name: Text)
    | Completed
    | Failure(definite: bool, message: string)
  {
    predicate Terminal() { Completed? || Failure? }
  }

  const UNCERTAIN := Failure(false, "Claude Code outcome could not be confirmed")
  const DEFINITE := Failure(true, "Claude Code reported a provider failure")

  // ---- Sizes ----

  /** Event types and the adapter's own messages are ASCII: their bytes are their characters. */
  function OutputBytes(item: Output): nat {
    match item
    case Acknowledged => 0
    case Content(eventType, content) => |eventType| + Utf8Bytes(content)
    case Tool(name) => |"read_only_tool_started"| + Utf8Bytes(name)
    case Completed => |"Claude Code completed the prompt"|
    case Failure(_, message) => |message|
  }

  function Permits(item: Output): nat { if OutputBytes(item) == 0 then 1 else OutputBytes(item) }

  function TotalPermits(queue: seq<Output>): nat {
    if queue == [] then 0 else Permits(queue[0]) + TotalPermits(queue[1..])
  }

  lemma {:induction false} TotalAppend(queue: seq<Output>, item: Output)
    ensures TotalPermits(queue + [item]) == TotalPermits(queue) + Permits(item)
  {
    if queue != [] {
      assert (queue + [item])[1..] == queue[1..] + [item];
      TotalAppend(queue[1..], item);
    }
  }

  // ---- Normalization ----

  predicate Aborted(reason: Option<string>) {
    reason == Some("aborted_streaming") || reason == Some("aborted_tools")
  }

  function ContentOutput(eventType: string, text: string): Output {
    if text == "" then UNCERTAIN else Content(eventType, text)
  }

  function ToolOutput(name: string): Output { if name == "" then UNCERTAIN else Tool(name) }

  /** The outputs of tool names not seen before, and the names seen after. */
  function NewTools(names: seq<string>, seen: set<string>): (seq<Output>, set<string>) {
    if names == [] then ([], seen)
    else if names[0] in seen then NewTools(names[1..], seen)
    else
      var (rest, after) := NewTools(names[1..], seen + {names[0]});
      ([ToolOutput(names[0])] + rest, after)
  }

  function Texts(texts: seq<string>): seq<Output> {
    if texts == [] then []
    else (if texts[0] == "" then [] else [Content("assistant_text", texts[0])]) + Texts(texts[1..])
  }

  function ResultOutput(isError: bool, subtype: string, reason: Option<string>): Output {
    if Aborted(reason) then UNCERTAIN
    else if !isError && subtype == "success" && reason == Some("completed") then Completed
    else if isError && subtype in {"error_during_execution", "error_max_turns", "error_max_budget_usd",
                                   "error_max_structured_output_retries"} then DEFINITE
    else UNCERTAIN
  }

  /** `NormalizationState`. */
  datatype Norm = Norm(emittedTextDelta: bool, emittedTools: set<string>)

  function Normalize(inbound: Inbound, norm: Norm): (seq<Output>, Norm) {
    match inbound
    case TextDelta(text) =>
      if text == "" then ([], norm)
      else ([ContentOutput("assistant_text_delta", text)], norm.(emittedTextDelta := true))
    case ToolStarted(name) =>
      var (outputs, after) := NewTools([name], norm.emittedTools);
      (outputs, norm.(emittedTools := after))
    case Assistant(text, tools) =>
      var (outputs, after) := NewTools(tools, norm.emittedTools);
      (if norm.emittedTextDelta then outputs else outputs + Texts(text), norm.(emittedTools := after))
    case ResultFrame(isError, subtype, reason) => ([ResultOutput(isError, subtype, reason)], norm)
    case SystemInit => ([UNCERTAIN], norm)
    case ControlResponse(_, _) => ([UNCERTAIN], norm)
    case Ignored => ([], norm)
  }

  // ---- Cancellation ----

  /** A cancel command as it is served: its deadline already past, whether the interrupt was written, what came back. */
  datatype Exchange = Exchange(expired: bool, writeOk: bool, replies: seq<Got>)

  predicate Ends(got: Got, requestId: string) {
    || !got.Frame?
    || got.inbound.ResultFrame?
    || got.inbound == ControlResponse(requestId, false)
  }

  /** Reply `j` confirms: an aborted result, after a success reply to this interrupt, with nothing decisive between. */
  ghost predicate ConfirmsAt(replies: seq<Got>, requestId: string, j: nat) {
    && j < |replies| && replies[j].Frame? && replies[j].inbound.ResultFrame? &&
        Aborted(replies[j].inbound.terminalReason)
    && (exists i | 0 <= i < j :: replies[i] == Frame(ControlResponse(requestId, true)))
    && (forall i | 0 <= i < j :: !Ends(replies[i], requestId))
  }

  ghost predicate Confirms(exchange: Exchange, requestId: string) {
    !exchange.expired && exchange.writeOk && exists j: nat :: ConfirmsAt(exchange.replies, requestId, j)
  }

  /** Running out of replies is the deadline passing. */
  method ConfirmCancellation(exchange: Exchange, requestId: string) returns (status: CancelStatus)
    ensures status == Confirmed <==> Confirms(exchange, requestId)
  {
    if exchange.expired || !exchange.writeOk {
      return Unconfirmed;
    }
    var replies, i, acknowledged := exchange.replies, 0, false;
    while i < |replies|
      invariant 0 <= i <= |replies|
      invariant acknowledged <==> exists k | 0 <= k < i :: replies[k] == Frame(ControlResponse(requestId, true))
      invariant forall k | 0 <= k < i :: !Ends(replies[k], requestId)
    {
      var got := replies[i];
      if !got.Frame? {
        assert Ends(replies[i], requestId);
        return Unconfirmed;
      }
      match got.inbound {
        case ControlResponse(id, success) =>
          if id == requestId {
            if !success {
              assert Ends(replies[i], requestId);
              return Unconfirmed;
            }
            acknowledged := true;
          }
        case ResultFrame(_, _, reason) =>
          assert Ends(replies[i], requestId);
          if acknowledged && Aborted(reason) {
            assert ConfirmsAt(replies, requestId, i);
            return Confirmed;
          }
          return Unconfirmed;
        case _ =>
      }
      i := i + 1;
    }
    return Unconfirmed;
  }

  // ---- The stream ----

  predicate IsDelta(item: Output) { item.Content? && item.eventType == "assistant_text_delta" }

  predicate IsFullText(item: Output) { item.Content? && item.eventType == "assistant_text" }

  /** Acknowledged first and only first; no tool twice; no full text once a partial text went out. */
  ghost predicate Lawful(items: seq<Output>) {
    && (forall i | 0 <= i < |items| :: items[i] == Acknowledged <==> i == 0)
    && (forall i, j | 0 <= i < j < |items| && items[i].Tool? && items[j].Tool? :: items[i].name != items[j].name)
    && (forall i, j | 0 <= i < j < |items| && IsDelta(items[i]) :: !IsFullText(items[j]))
  }

  /** At most one terminal item, in last place. */
  ghost predicate EndsOnce(items: seq<Output>) {
    forall i | 0 <= i < |items| - 1 :: !items[i].Terminal()
  }

  ghost predicate NoTerminal(items: seq<Output>) { forall i | 0 <= i < |items| :: !items[i].Terminal() }

  /** The normalization state has recorded every tool and partial text among the items. */
  ghost predicate Knows(norm: Norm, items: seq<Output>) {
    && (forall i | 0 <= i < |items| && items[i].Tool? :: items[i].name in norm.emittedTools)
    && (forall i | 0 <= i < |items| && IsDelta(items[i]) :: norm.emittedTextDelta)
  }

  /** Every name not seen before is announced - an empty one as an uncertain outcome - and all are remembered. */
  lemma {:induction false} EveryToolIsAnnounced(names: seq<string>, seen: set<string>)
    ensures
      var (items, after) := NewTools(names, seen);
      && after == seen + (set name | name in names)
      && (forall name | name in names && name !in seen :: ToolOutput(name) in items)
  {
    if names != [] {
      if names[0] in seen {
        EveryToolIsAnnounced(names[1..], seen);
      } else {
        EveryToolIsAnnounced(names[1..], seen + {names[0]});
      }
    }
  }

  lemma {:induction false} NewToolsAreNew(names: seq<string>, seen: set<string>)
    ensures
      var (items, after) := NewTools(names, seen);
      && seen <= after
      && (forall i | 0 <= i < |items| :: items[i] == UNCERTAIN || (items[i].Tool? && items[i].name in after - seen))
      && (forall i, j | 0 <= i < j < |items| && items[i].Tool? && items[j].Tool? :: items[i].name != items[j].name)
  {
    if names != [] {
      if names[0] in seen {
        NewToolsAreNew(names[1..], seen);
      } else {
        NewToolsAreNew(names[1..], seen + {names[0]});
      }
    }
  }

  lemma {:induction false} TextsAreTexts(texts: seq<string>)
    ensures forall i | 0 <= i < |Texts(texts)| :: IsFullText(Texts(texts)[i])
  {
    if texts != [] { TextsAreTexts(texts[1..]); }
  }

  /** `more` may follow a stream recorded by `norm`, and `after` records both. */
  ghost predicate Extends(norm: Norm, more: seq<Output>, after: Norm) {
    && Acknowledged !in more
    && (forall i | 0 <= i < |more| && more[i].Tool? :: more[i].name !in norm.emittedTools)
    && (forall i, j | 0 <= i < j < |more| && more[i].Tool? && more[j].Tool? :: more[i].name != more[j].name)
    && (norm.emittedTextDelta ==> forall i | 0 <= i < |more| :: !IsFullText(more[i]))
    && (forall i, j | 0 <= i < j < |more| && IsDelta(more[i]) :: !IsFullText(more[j]))
    && Knows(after, more) && norm.emittedTools <= after.emittedTools &&
        (norm.emittedTextDelta ==> after.emittedTextDelta)
  }

  lemma AppendTools(items: seq<Output>, more: seq<Output>, norm: Norm, after: Norm)
    requires Lawful(items) && Knows(norm, items) && Extends(norm, more, after)
    ensures var s := items + more;
      forall i, j | 0 <= i < j < |s| && s[i].Tool? && s[j].Tool? :: s[i].name != s[j].name
  {}

  lemma AppendTexts(items: seq<Output>, more: seq<Output>, norm: Norm, after: Norm)
    requires Lawful(items) && Knows(norm, items) && Extends(norm, more, after)
    ensures var s := items + more;
      forall i, j | 0 <= i < j < |s| && IsDelta(s[i]) :: !IsFullText(s[j])
  {}

  lemma AppendAcknowledged(items: seq<Output>, more: seq<Output>)
    requires items != [] && Lawful(items) && Acknowledged !in more
    ensures var s := items + more; forall i | 0 <= i < |s| :: s[i] == Acknowledged <==> i == 0
  {}

  lemma NormalizeExtends(inbound: Inbound, norm: Norm)
    ensures var (more, after) := Normalize(inbound, norm); Extends(norm, more, after)
  {
    match inbound
    case ToolStarted(name) => ToolsExtend([name], norm);
    case Assistant(text, tools) =>
      ToolsExtend(tools, norm);
      var (items, seen) := NewTools(tools, norm.emittedTools);
      if !norm.emittedTextDelta {
        TextsAreTexts(text);
        TextsExtend(norm, items, norm.(emittedTools := seen), Texts(text));
      }
    case TextDelta(text) => DeltaExtends(text, norm);
    case _ =>
  }

  lemma ToolsExtend(names: seq<string>, norm: Norm)
    ensures
      var (items, seen) := NewTools(names, norm.emittedTools);
      Extends(norm, items, norm.(emittedTools := seen)) && forall i | 0 <= i < |items| :: !items[i].Content?
  {
    NewToolsAreNew(names, norm.emittedTools);
  }

  lemma DeltaExtends(text: string, norm: Norm)
    ensures text != "" ==>
      Extends(norm, [ContentOutput("assistant_text_delta", text)], norm.(emittedTextDelta := true))
  {
    DeltaIsNoFullText();
  }

  lemma DeltaIsNoFullText()
    ensures "assistant_text_delta" != "assistant_text"
  {
    assert |"assistant_text_delta"| != |"assistant_text"|;
  }

  lemma TextsExtend(norm: Norm, items: seq<Output>, after: Norm, texts: seq<Output>)
    requires Extends(norm, items, after) && !norm.emittedTextDelta
    requires forall i | 0 <= i < |texts| :: IsFullText(texts[i])
    requires forall i | 0 <= i < |items| :: !items[i].Content?
    ensures Extends(norm, items + texts, after)
  {
    DeltaIsNoFullText();
    var more := items + texts;
    assert forall i | 0 <= i < |more| :: more[i] == if i < |items| then items[i] else texts[i - |items|];
  }

  /** Whatever the child says, its normalized outputs extend a lawful stream lawfully. */
  lemma NormalizeIsLawful(items: seq<Output>, inbound: Inbound, norm: Norm)
    requires items != [] && Lawful(items) && Knows(norm, items)
    ensures var (more, after) := Normalize(inbound, norm); Lawful(items + more) && Knows(after, items + more)
  {
    var (more, after) := Normalize(inbound, norm);
    NormalizeExtends(inbound, norm);
    AppendTools(items, more, norm, after);
    AppendTexts(items, more, norm, after);
    AppendAcknowledged(items, more);
  }

  lemma LawfulPrefix(items: seq<Output>, more: seq<Output>, k: nat)
    requires k <= |more| && Lawful(items + more)
    ensures Lawful(items + more[..k])
  {
    assert forall i | 0 <= i < |items| + k :: (items + more[..k])[i] == (items + more)[i];
  }

  lemma LawfulEnd(items: seq<Output>, item: Output)
    requires items != [] && Lawful(items) && item.Terminal()
    ensures Lawful(items + [item])
  {}

  // ---- The attempt machine ----

  datatype Event =
    | Cancel(requested: AttemptId, exchange: Exchange, reaped: bool)
    | Shutdown(reaped: bool)
    | CommandsClosed(reaped: bool)
    | FromProcess(got: Got, reaped: bool)
    | ConsumerTakes
    | ConsumerLeaves

  /**
   * `reaped` is what the last shutdown reported and `answer` the status sent for the cancel command
   * that was served. Histories: `output` is everything ever queued, `streamed` everything the
   * consumer received, `exchange` what went over the wire for the answer.
   */
  datatype Task = Task(
    attempt: AttemptId, interruptId: string,
    queue: seq<Output>, free: nat, receiverAlive: bool, norm: Norm,
    ended: bool, reaped: bool, answer: Option<CancelStatus>,
    output: seq<Output>, streamed: seq<Output>, exchange: Option<Exchange>)
  {
    predicate Accepts(item: Output) {
      Permits(item) <= U32_MAX && Permits(item) <= free && receiverAlive && |queue| < QUEUE_DEPTH
    }

    /** `queue_output`: refused without a trace when over budget, full or unheard. */
    function Queued(item: Output): Task {
      if Accepts(item) then this.(queue := queue + [item], output := output + [item], free := free - Permits(item))
      else this
    }

    function Stopped(reaps: bool): Task { this.(ended := true, reaped := reaps) }

    /** A terminal item: reap first, downgrade it if that failed, then queue it if it can be queued. */
    function Finished(item: Output, reaps: bool): Task {
      Stopped(reaps).Queued(if reaps then item else UNCERTAIN)
    }

    /** The `for` loop over one inbound's items. */
    function QueuedAll(items: seq<Output>, reaps: bool): Task
      decreases |items|
    {
      if items == [] then this
      else if items[0].Terminal() then Finished(items[0], reaps)
      else if !Accepts(items[0]) then Stopped(reaps)
      else Queued(items[0]).QueuedAll(items[1..], reaps)
    }

    function Consumed(event: Event): Task {
      if event.ConsumerTakes? && receiverAlive && queue != [] then
        this.(queue := queue[1..], free := free + Permits(queue[0]), streamed := streamed + [queue[0]])
      else if event.ConsumerLeaves? then this.(queue := [], free := free + TotalPermits(queue), receiverAlive := false)
      else this
    }

    /** One turn of the select loop, or one move of the consumer. */
    ghost function Served(event: Event): Task {
      if ended || event.ConsumerTakes? || event.ConsumerLeaves? then Consumed(event)
      else match event
        case Cancel(requested, exchange, reaps) =>
          if requested != attempt then this
          else
            var status := if reaps && Confirms(exchange, interruptId) then Confirmed else Unconfirmed;
            Stopped(reaps).(answer := Some(status), exchange := Some(exchange))
        case Shutdown(reaps) => Stopped(reaps)
        case CommandsClosed(reaps) => Stopped(reaps)
        case FromProcess(got, reaps) =>
          var (items, after) := if got.Frame? then Normalize(got.inbound, norm) else ([UNCERTAIN], norm);
          this.(norm := after).QueuedAll(items, reaps)
    }

    /** The byte budget is exactly split between queue and free permits; nothing is lost or reordered. */
    ghost predicate Accounts() {
      && TotalPermits(queue) + free == QUEUE_BYTES && |queue| <= QUEUE_DEPTH
      && streamed <= output && (receiverAlive ==> streamed + queue == output)
    }

    /** What holds of the stream, the child and the cancellation answer, at every moment. */
    ghost predicate Trace() {
      && Lawful(output) && EndsOnce(output)
      && (!ended ==> NoTerminal(output) && output != [] && answer.None?)
      && (Completed in output ==> reaped)
      && (answer.Some? ==> ended && NoTerminal(output))
      && (answer == Some(Confirmed) ==> reaped && exchange.Some? && Confirms(exchange.value, interruptId))
    }

    ghost predicate Valid() { Accounts() && Trace() && (!ended ==> Knows(norm, output)) }
  }

  function NewTask(attempt: AttemptId, interruptId: string, receiverAlive: bool): Task {
    Task(attempt, interruptId, [], QUEUE_BYTES, receiverAlive, Norm(false, {}), false, false, None, [], [], None)
  }

  /** The head of `run_attempt`: acknowledge, or give up at once when the consumer is already gone. */
  function Begun(attempt: AttemptId, interruptId: string, receiverAlive: bool, reaps: bool): Task {
    var t := NewTask(attempt, interruptId, receiverAlive);
    if t.Accepts(Acknowledged) then t.Queued(Acknowledged) else t.Stopped(reaps)
  }

  lemma QueuedAccounts(t: Task, item: Output)
    requires t.Accounts()
    ensures t.Queued(item).Accounts()
  {
    TotalAppend(t.queue, item);
    assert t.streamed + (t.queue + [item]) == t.streamed + t.queue + [item];
  }

  lemma ConsumedAccounts(t: Task, event: Event)
    requires t.Accounts()
    ensures t.Consumed(event).Accounts()
  {
    if event.ConsumerTakes? && t.receiverAlive && t.queue != [] {
      assert t.streamed + t.queue == t.streamed + [t.queue[0]] + t.queue[1..];
    }
  }

  lemma EndTrace(t: Task, last: Output)
    requires Lawful(t.output) && NoTerminal(t.output) && t.output != [] && last.Terminal() && t.ended && t.answer.None?
    requires last.Completed? ==> t.reaped
    ensures t.Queued(last).Trace()
  {
    LawfulEnd(t.output, last);
  }

  lemma FinishedIsValid(t: Task, item: Output, reaps: bool)
    requires t.Accounts() && t.Trace() && !t.ended && item.Terminal()
    ensures t.Finished(item, reaps).Valid()
  {
    var last := if reaps then item else UNCERTAIN;
    QueuedAccounts(t.Stopped(reaps), last);
    EndTrace(t.Stopped(reaps), last);
  }

  lemma QueuedOneTrace(t: Task, item: Output)
    requires t.Trace() && !t.ended && !item.Terminal() && Lawful(t.output + [item])
    ensures t.Queued(item).Trace()
  {}

  lemma {:induction false} QueuedAllIsValid(t: Task, items: seq<Output>, reaps: bool)
    requires t.Accounts() && t.Trace() && !t.ended && Lawful(t.output + items) && Knows(t.norm, t.output + items)
    ensures t.QueuedAll(items, reaps).Valid()
    decreases |items|
  {
    if items == [] {
      assert t.output + items == t.output;
    } else if items[0].Terminal() {
      FinishedIsValid(t, items[0], reaps);
    } else if t.Accepts(items[0]) {
      LawfulPrefix(t.output, items, 1);
      assert items[..1] == [items[0]] && t.output + items == t.output + [items[0]] + items[1..];
      QueuedAccounts(t, items[0]);
      QueuedOneTrace(t, items[0]);
      QueuedAllIsValid(t.Queued(items[0]), items[1..], reaps);
    }
  }

  lemma ServedIsValid(t: Task, event: Event)
    requires t.Valid()
    ensures t.Served(event).Valid()
  {
    if t.ended || event.ConsumerTakes? || event.ConsumerLeaves? {
      ConsumedIsValid(t, event);
    } else if event.FromProcess? {
      if event.got.Frame? {
        FrameIsValid(t, event.got.inbound, event.reaped);
      } else {
        BreakIsValid(t, event.reaped);
      }
    } else {
      StopIsValid(t, event);
    }
  }

  lemma StopIsValid(t: Task, event: Event)
    requires t.Valid() && !t.ended && (event.Cancel? || event.Shutdown? || event.CommandsClosed?)
    ensures t.Served(event).Valid()
  {}

  lemma BreakIsValid(t: Task, reaps: bool)
    requires t.Valid() && !t.ended
    ensures t.QueuedAll([UNCERTAIN], reaps).Valid()
  {
    LawfulEnd(t.output, UNCERTAIN);
    QueuedAllIsValid(t, [UNCERTAIN], reaps);
  }

  lemma ConsumedIsValid(t: Task, event: Event)
    requires t.Valid()
    ensures t.Consumed(event).Valid()
  {
    ConsumedAccounts(t, event);
  }

  lemma FrameIsValid(t: Task, inbound: Inbound, reaps: bool)
    requires t.Valid() && !t.ended
    ensures var (items, after) := Normalize(inbound, t.norm); t.(norm := after).QueuedAll(items, reaps).Valid()
  {
    NormalizeIsLawful(t.output, inbound, t.norm);
    var (items, after) := Normalize(inbound, t.norm);
    QueuedAllIsValid(t.(norm := after), items, reaps);
  }

  // ---- Whole runs ----

  ghost function Run(t: Task, events: seq<Event>): Task
    decreases |events|
  {
    if events == [] then t else Run(t.Served(events[0]), events[1..])
  }

  lemma {:induction false} RunIsValid(t: Task, events: seq<Event>)
    requires t.Valid()
    ensures Run(t, events).Valid()
    decreases |events|
  {
    if events != [] {
      ServedIsValid(t, events[0]);
      RunIsValid(t.Served(events[0]), events[1..]);
    }
  }

  lemma BegunIsValid(attempt: AttemptId, id: string, alive: bool, reaps: bool)
    ensures Begun(attempt, id, alive, reaps).Valid()
  {
    var t := NewTask(attempt, id, alive);
    NewAccounts(attempt, id, alive);
    if t.Accepts(Acknowledged) {
      QueuedAccounts(t, Acknowledged);
      OpeningTrace(t);
    }
  }

  lemma NewAccounts(attempt: AttemptId, id: string, alive: bool)
    ensures NewTask(attempt, id, alive).Accounts()
  {}

  lemma OpeningTrace(t: Task)
    requires t.output == [] && !t.ended && t.answer.None? && t.Accepts(Acknowledged)
    ensures t.Queued(Acknowledged).Trace() && Knows(t.norm, t.Queued(Acknowledged).output)
  {
    OpeningIsLawful(t.Queued(Acknowledged).output, t.norm);
  }

  lemma OpeningIsLawful(items: seq<Output>, norm: Norm)
    requires |items| == 1 && items[0] == Acknowledged
    ensures Lawful(items) && EndsOnce(items) && NoTerminal(items) && Knows(norm, items) && Completed !in items
  {}

  lemma EveryRunIsValid(attempt: AttemptId, id: string, alive: bool, reaps: bool, events: seq<Event>)
    ensures Run(Begun(attempt, id, alive, reaps), events).Valid()
  {
    BegunIsValid(attempt, id, alive, reaps);
    RunIsValid(Begun(attempt, id, alive, reaps), events);
  }

  /**
   * Attempt trace: in every run the stream is empty or opens with Acknowledged, which never returns;
   * its terminal item, if any, is the last; a Completed was queued only after the child was reaped;
   * and the consumer has received a prefix of it.
   */
  lemma EveryStreamIsLawful(attempt: AttemptId, id: string, alive: bool, reaps: bool, events: seq<Event>)
    ensures
      var t := Run(Begun(attempt, id, alive, reaps), events);
      && (forall i | 0 <= i < |t.output| :: t.output[i] == Acknowledged <==> i == 0)
      && EndsOnce(t.output) && (Completed in t.output ==> t.reaped) && t.streamed <= t.output
  {
    EveryRunIsValid(attempt, id, alive, reaps, events);
  }

  /** A confirmed cancellation and a terminal item exclude each other, and confirmation was earned and reaped. */
  lemma ConfirmedExcludesTerminal(attempt: AttemptId, id: string, alive: bool, reaps: bool, events: seq<Event>)
    requires Run(Begun(attempt, id, alive, reaps), events).answer == Some(Confirmed)
    ensures
      var t := Run(Begun(attempt, id, alive, reaps), events);
      && NoTerminal(t.output) && t.ended && t.reaped
      && t.exchange.Some? && Confirms(t.exchange.value, t.interruptId)
  {
    EveryRunIsValid(attempt, id, alive, reaps, events);
  }

  /** Queued bytes and free permits always add up to the budget. */
  lemma BudgetIsConserved(attempt: AttemptId, id: string, alive: bool, reaps: bool, events: seq<Event>)
    ensures var t := Run(Begun(attempt, id, alive, reaps), events); TotalPermits(t.queue) + t.free == QUEUE_BYTES
  {
    EveryRunIsValid(attempt, id, alive, reaps, events);
  }

  /** No tool is announced twice, and no full text repeats what was already streamed in parts. */
  lemma NothingIsAnnouncedTwice(attempt: AttemptId, id: string, alive: bool, reaps: bool, events: seq<Event>, i: nat,
                                j: nat)
    requires i < j < |Run(Begun(attempt, id, alive, reaps), events).output|
    ensures
      var o := Run(Begun(attempt, id, alive, reaps), events).output;
      && (o[i].Tool? && o[j].Tool? ==> o[i].name != o[j].name)
      && !(IsDelta(o[i]) && IsFullText(o[j]))
  {
    EveryRunIsValid(attempt, id, alive, reaps, events);
  }

  // ---- The attempt object ----

  class AttemptTask {
    const attempt: AttemptId
    const interruptId: string
    var queue: seq<Output>
    var free: nat
    var receiverAlive: bool
    var emittedTextDelta: bool
    var emittedTools: set<string>
    var ended: bool
    var reaped: bool
    var answer: Option<CancelStatus>
    ghost var output: seq<Output>
    ghost var streamed: seq<Output>
    ghost var exchange: Option<Exchange>

    ghost function View(): Task
      reads this
    {
      Task(attempt, interruptId, queue, free, receiverAlive, Norm(emittedTextDelta, emittedTools),
           ended, reaped, answer, output, streamed, exchange)
    }

    constructor (attempt: AttemptId, interruptId: string, receiverAlive: bool)
      ensures View() == NewTask(attempt, interruptId, receiverAlive)
    {
      this.attempt, this.interruptId := attempt, interruptId;
      queue, free, this.receiverAlive, emittedTextDelta, emittedTools := [], QUEUE_BYTES, receiverAlive, false, {};
      ended, reaped, answer := false, false, None;
      output, streamed, exchange := [], [], None;
    }

    method QueueOutput(item: Output) returns (ok: bool)
      modifies this`queue, this`free, this`output
      ensures ok == old(View()).Accepts(item) && View() == old(View()).Queued(item)
    {
      var permits := Permits(item);
      if permits > U32_MAX || permits > free {
        return false;
      }
      free := free - permits;
      if !receiverAlive || |queue| >= QUEUE_DEPTH {
        free := free + permits;
        return false;
      }
      queue, output := queue + [item], output + [item];
      return true;
    }

    method QueueItems(items: seq<Output>, reaps: bool)
      modifies this
      ensures View() == old(View()).QueuedAll(items, reaps)
    {
      var k := 0;
      while k < |items|
        invariant 0 <= k <= |items|
        invariant View().QueuedAll(items[k..], reaps) == old(View()).QueuedAll(items, reaps)
      {
        var item := items[k];
        assert items[k..][1..] == items[k + 1..];
        if item.Terminal() {
          reaped, ended := reaps, true;
          var _ := QueueOutput(if reaps then item else UNCERTAIN);
          return;
        }
        var ok := QueueOutput(item);
        if !ok {
          reaped, ended := reaps, true;
          return;
        }
        k := k + 1;
      }
    }

    method NormalizeInbound(inbound: Inbound) returns (items: seq<Output>)
      modifies this`emittedTextDelta, this`emittedTools
      ensures
        (items, Norm(emittedTextDelta, emittedTools)) ==
            Normalize(inbound, Norm(old(emittedTextDelta), old(emittedTools)))
    {
      match inbound {
        case TextDelta(text) =>
          if text == "" {
            return [];
          }
          emittedTextDelta := true;
          return [ContentOutput("assistant_text_delta", text)];
        case ToolStarted(name) =>
          items := AnnounceTools([name]);
        case Assistant(text, tools) =>
          items := AnnounceTools(tools);
          if !emittedTextDelta {
            items := items + Texts(text);
          }
        case ResultFrame(isError, subtype, reason) =>
          return [ResultOutput(isError, subtype, reason)];
        case SystemInit => return [UNCERTAIN];
        case ControlResponse(_, _) => return [UNCERTAIN];
        case Ignored => return [];
      }
    }

    method AnnounceTools(names: seq<string>) returns (items: seq<Output>)
      modifies this`emittedTools
      ensures (items, emittedTools) == NewTools(names, old(emittedTools))
    {
      items := [];
      var k := 0;
      assert names[0..] == names;
      while k < |names|
        invariant 0 <= k <= |names|
        invariant NewTools(names, old(emittedTools)).0 == items + NewTools(names[k..], emittedTools).0
        invariant NewTools(names, old(emittedTools)).1 == NewTools(names[k..], emittedTools).1
      {
        var name := names[k];
        assert names[k..][0] == name && names[k..][1..] == names[k + 1..];
        if name !in emittedTools {
          emittedTools := emittedTools + {name};
          ghost var rest := NewTools(names[k + 1..], emittedTools).0;
          assert items + ([ToolOutput(name)] + rest) == items + [ToolOutput(name)] + rest;
          items := items + [ToolOutput(name)];
        }
        k := k + 1;
      }
      assert names[k..] == [] && items + [] == items;
    }

    /** One turn of the select loop of `run_attempt`; `respond` is the answer to a cancel command. */
    method Turn(event: Event) returns (respond: Option<CancelStatus>)
      requires !ended && !event.ConsumerTakes? && !event.ConsumerLeaves?
      modifies this
      ensures View() == old(View()).Served(event)
      ensures respond == Some(Confirmed) ==> answer == Some(Confirmed)
    {
      match event {
        case Cancel(requested, wire, reaps) =>
          if requested != attempt {
            return Some(Unconfirmed);
          }
          var status := ConfirmCancellation(wire, interruptId);
          reaped, ended := reaps, true;
          if !reaps {
            status := Unconfirmed;
          }
          answer, exchange := Some(status), Some(wire);
          return answer;
        case Shutdown(reaps) =>
          reaped, ended := reaps, true;
          return None;
        case CommandsClosed(reaps) =>
          reaped, ended := reaps, true;
          return None;
        case FromProcess(got, reaps) =>
          var items := [UNCERTAIN];
          if got.Frame? {
            items := NormalizeInbound(got.inbound);
          }
          QueueItems(items, reaps);
          return None;
      }
    }
  }
}
