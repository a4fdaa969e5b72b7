/** A Claude attempt executed by the orchestrator: what the durable log can say about it. */
module EndToEnd {
  import opened Base
  import SessionHistory
  import Claude = ClaudeAttempt
  import Orchestration

  /** The item the orchestrator reads for an output of the attempt. */
  function ItemOf(output: Claude.Output): Orchestration.Item {
    match output
    case Acknowledged => Orchestration.Acknowledge
    case Content(_, text) => Orchestration.Content(text)
    case Tool(name) => Orchestration.Tool(name)
    case Completed => Orchestration.Complete("Claude Code completed the prompt")
    case Failure(definite, message) => Orchestration.Fail(Orchestration.ProviderFailure(definite, message))
  }

  function ItemsOf(outputs: seq<Claude.Output>): seq<Orchestration.Item> {
    if outputs == [] then [] else [ItemOf(outputs[0])] + ItemsOf(outputs[1..])
  }

  // ---- Texts ----

  /** What a reader of the session is shown. */
  datatype Said = SaidText(text: Text) | UsedTool(name: Text)

  /** What the attempt streamed, in order. */
  function Streamed(outputs: seq<Claude.Output>): seq<Said> {
    if outputs == [] then []
    else
      var rest := Streamed(outputs[1..]);
      match outputs[0]
      case Content(_, text) => [SaidText(text)] + rest
      case Tool(name) => [UsedTool(name)] + rest
      case _ => rest
  }

  /** What events say, in order. */
  function Logged(payloads: seq<SessionHistory.Payload>): seq<Said> {
    if payloads == [] then []
    else
      var rest := Logged(payloads[1..]);
      match payloads[0]
      case ProviderEvent(_, text) => [SaidText(text)] + rest
      case ToolEvent(_, name) => [UsedTool(name)] + rest
      case _ => rest
  }

  function Payloads(events: seq<SessionHistory.Event>): seq<SessionHistory.Payload> {
    seq(|events|, i requires 0 <= i < |events| => events[i].payload)
  }

  lemma {:induction false} LoggedConcat(a: seq<SessionHistory.Payload>, b: seq<SessionHistory.Payload>)
    ensures Logged(a + b) == Logged(a) + Logged(b)
  {
    if a == [] {
      assert a + b == b;
    } else {
      assert (a + b)[1..] == a[1..] + b;
      LoggedConcat(a[1..], b);
    }
  }

  lemma LoggedPrefix(payloads: seq<SessionHistory.Payload>, k: nat)
    requires k <= |payloads|
    ensures Logged(payloads[..k]) <= Logged(payloads)
  {
    LoggedConcat(payloads[..k], payloads[k..]);
    assert payloads[..k] + payloads[k..] == payloads;
  }

  lemma {:induction false} NumberedPayloads(last: nat, payloads: seq<SessionHistory.Payload>)
    requires last + |payloads| <= U64_MAX
    ensures Payloads(Orchestration.Numbered(last, payloads)) == payloads
    decreases |payloads|
  {
    if payloads != [] {
      NumberedPayloads(last + 1, payloads[1..]);
      assert Payloads(Orchestration.Numbered(last, payloads)) ==
             [payloads[0]] + Payloads(Orchestration.Numbered(last + 1, payloads[1..]));
    }
  }

  /** Before the provider is called nothing is said. */
  lemma OpeningIsSilent(q: Orchestration.Request, attempt: AttemptId)
    ensures Logged(Orchestration.Opening(q) + Orchestration.Dispatch(q, attempt)) == []
  {
    var opening, dispatch := Orchestration.Opening(q), Orchestration.Dispatch(q, attempt);
    assert opening[1..][1..] == [] && dispatch[1..][1..] == [];
    assert Logged(opening) == Logged(opening[1..]) == [] && Logged(dispatch) == Logged(dispatch[1..]) == [];
    LoggedConcat(opening, dispatch);
  }

  /** The events of a stream that ends at most once say exactly what was streamed. */
  lemma {:induction false} EventsSayTheStream(attempt: AttemptId, outputs: seq<Claude.Output>)
    requires Claude.EndsOnce(outputs)
    ensures Logged(Orchestration.StreamEvents(attempt, ItemsOf(outputs)).0) == Streamed(outputs)
  {
    if outputs == [] {
      assert Logged(Orchestration.StreamEvents(attempt, []).0[1..]) == [];
    } else {
      var items, rest := ItemsOf(outputs), outputs[1..];
      assert items[0] == ItemOf(outputs[0]) && items[1..] == ItemsOf(rest);
      var events := Orchestration.StreamEvents(attempt, items).0;
      if outputs[0].Terminal() {
        assert rest == [];
        assert events[1..] == [];
      } else {
        assert Claude.EndsOnce(rest);
        EventsSayTheStream(attempt, rest);
        assert events[1..] == Orchestration.StreamEvents(attempt, ItemsOf(rest)).0;
      }
    }
  }

  // ---- Outcomes ----

  lemma {:induction false} OutcomeIsTheTerminal(attempt: AttemptId, outputs: seq<Claude.Output>)
    ensures Claude.NoTerminal(outputs) ==> Orchestration.StreamEvents(attempt, ItemsOf(outputs)).1.UnknownOutcome?
    ensures Orchestration.StreamEvents(attempt, ItemsOf(outputs)).1.CompletedOutcome? ==> Claude.Completed in outputs
  {
    if outputs != [] {
      var items := ItemsOf(outputs);
      assert items[0] == ItemOf(outputs[0]) && items[1..] == ItemsOf(outputs[1..]);
      OutcomeIsTheTerminal(attempt, outputs[1..]);
      assert Claude.NoTerminal(outputs) ==> Claude.NoTerminal(outputs[1..]);
      assert forall o | o in outputs[1..] :: o in outputs;
    }
  }

  // ---- The executed attempt ----

  /** Everything the orchestrator appends for an attempt that streamed `outputs`. */
  function ScriptOf(q: Orchestration.Request, attempt: AttemptId, outputs: seq<Claude.Output>)
    : seq<SessionHistory.Payload>
  {
    Orchestration.Script(q, attempt, Orchestration.Provider(Ok(()), Ok(ItemsOf(outputs)))).0
  }

  lemma ScriptSaysTheStream(q: Orchestration.Request, attempt: AttemptId, outputs: seq<Claude.Output>)
    requires Orchestration.Refusal(q).None? && Claude.EndsOnce(outputs)
    ensures Logged(ScriptOf(q, attempt, outputs)) == Streamed(outputs)
  {
    var before := Orchestration.Opening(q) + Orchestration.Dispatch(q, attempt);
    var events := Orchestration.StreamEvents(attempt, ItemsOf(outputs)).0;
    assert ScriptOf(q, attempt, outputs) == before + events;
    OpeningIsSilent(q, attempt);
    LoggedConcat(before, events);
    EventsSayTheStream(attempt, outputs);
  }

  /** However appends fail, what the new events say is what was streamed, in order, up to where storing stopped. */
  lemma LogSaysTheStream(log: seq<SessionHistory.Event>, q: Orchestration.Request, attempt: AttemptId,
                         outputs: seq<Claude.Output>, fates: nat -> Orchestration.Fate, n: nat)
    requires Orchestration.Refusal(q).None? && Claude.EndsOnce(outputs)
    ensures
      var (after, stored) := Orchestration.StoreAll(log, ScriptOf(q, attempt, outputs), fates, n);
      && log <= after && Logged(Payloads(after[|log|..])) <= Streamed(outputs)
      && (stored ==> Logged(Payloads(after[|log|..])) == Streamed(outputs))
  {
    var script := ScriptOf(q, attempt, outputs);
    var k := Orchestration.StoredIsAPrefix(log, script, fates, n);
    var added := Orchestration.Numbered(Orchestration.Last(log), script[..k]);
    assert (log + added)[|log|..] == added;
    NumberedPayloads(Orchestration.Last(log), script[..k]);
    ScriptSaysTheStream(q, attempt, outputs);
    LoggedPrefix(script, k);
    if k == |script| { assert script[..k] == script; }
  }

  /**
   * For every run of the attempt, everything the orchestrator got to read of it, every Ready or Running history
   * and every pattern of append failures: the history stays legal and its new texts are the streamed ones in
   * order; a fully stored execution ends Completed only if the child was reaped, and a confirmed cancellation
   * always ends in an unknown outcome, to be reconciled.
   */
  lemma ExecutedAttempt(log: seq<SessionHistory.Event>, q: Orchestration.Request, attempt: AttemptId,
                        fates: nat -> Orchestration.Fate, n: nat,
                        id: string, alive: bool, reaps: bool, events: seq<Claude.Event>)
    requires SessionHistory.Accepted(log)
    requires SessionHistory.Fold(log).value.Ready? || SessionHistory.Fold(log).value.Running?
    requires Orchestration.Refusal(q).None?
    ensures
      var t := Claude.Run(Claude.Begun(attempt, id, alive, reaps), events);
      var (after, stored) := Orchestration.StoreAll(log, ScriptOf(q, attempt, t.streamed), fates, n);
      && SessionHistory.Accepted(after) && log <= after
      && Logged(Payloads(after[|log|..])) <= Streamed(t.streamed)
      && (stored ==> Logged(Payloads(after[|log|..])) == Streamed(t.streamed))
      && (stored && SessionHistory.Fold(after).value.Completed? ==> t.reaped)
      && (stored && t.answer == Some(Confirmed) ==> SessionHistory.Fold(after).value.Unknown?)
  {
    var t := Claude.Run(Claude.Begun(attempt, id, alive, reaps), events);
    Claude.EveryStreamIsLawful(attempt, id, alive, reaps, events);
    assert forall i | 0 <= i < |t.streamed| :: t.streamed[i] == t.output[i];
    LogSaysTheStream(log, q, attempt, t.streamed, fates, n);
    if t.answer == Some(Confirmed) { Claude.ConfirmedExcludesTerminal(attempt, id, alive, reaps, events); }
    OutcomeIsTheTerminal(attempt, t.streamed);
    var provider := Orchestration.Provider(Ok(()), Ok(ItemsOf(t.streamed)));
    Orchestration.ExecutionStaysLegal(log, q, attempt, provider, fates, n);
  }
}
