/**
 * Newline framing of a provider's output: `FrameReader::next_frame` scans a growing
 * buffer with a resume index and may be dropped at any read and called again.
 */
module Framing {
  import opened Base

  const NEWLINE: byte := 10
  const MAX_FRAME_BYTES := 8 * 1024 * 1024
  const CHUNK_BYTES := 16 * 1024

  type byte = b: int | 0 <= b < 256

  /** What one `read` gives the reader. `Abandoned`: the caller dropped the call there. */
  datatype Read = Data(bytes: seq<byte>) | Eof | IoError | Abandoned

  ghost predicate ValidInput(input: seq<Read>) {
    forall i | 0 <= i < |input| && input[i].Data? :: 1 <= |input[i].bytes| <= CHUNK_BYTES
  }

  /** How one call ended. `Line` carries the raw frame handed to the decoder. */
  datatype Outcome = Line(frame: seq<byte>) | TooLarge | Truncated | Ended | ReadFailed | Dropped

  datatype Reply<V> =
    | Value(value: V) | EndOfStream | FrameTooLarge | InvalidFrame | TransportClosed | NoReply

  /** `decode_frame`: the size rules, then an uninterpreted JSON decoder. */
  function DecodeFrame<V>(decode: seq<byte> -> Option<V>, frame: seq<byte>): Reply<V> {
    if |frame| > MAX_FRAME_BYTES then FrameTooLarge
    else if frame == [] then InvalidFrame
    else match decode(frame)
      case Some(v) => Value(v)
      case None => InvalidFrame
  }

  function Answer<V>(decode: seq<byte> -> Option<V>, outcome: Outcome): Reply<V> {
    match outcome
    case Line(frame) => DecodeFrame(decode, frame)
    case TooLarge => FrameTooLarge
    case Truncated => InvalidFrame
    case Ended => EndOfStream
    case ReadFailed => TransportClosed
    case Dropped => NoReply
  }

  /** No newline in `s[from..to]`. */
  predicate Clear(s: seq<byte>, from: nat, to: nat)
    requires to <= |s|
  {
    forall i | from <= i < to :: s[i] != NEWLINE
  }

  /** First newline at or after `from`. */
  function Find(s: seq<byte>, from: nat): (r: Option<nat>)
    requires from <= |s|
    ensures r.Some? ==> from <= r.value < |s| && s[r.value] == NEWLINE && Clear(s, from, r.value)
    ensures r.None? ==> Clear(s, from, |s|)
    decreases |s| - from
  {
    if from == |s| then None else if s[from] == NEWLINE then Some(from) else Find(s, from + 1)
  }

  /** `drained` and `scanned` only measure: bytes handed out, and bytes inspected by the search. */
  datatype State = State(input: seq<Read>, buffered: seq<byte>, searchedUntil: nat, drained: nat, scanned: nat)
  {
    ghost predicate Valid() {
      && ValidInput(input)
      && searchedUntil <= |buffered| <= MAX_FRAME_BYTES + CHUNK_BYTES
      && Clear(buffered, 0, searchedUntil)
    }
  }

  function Initial(input: seq<Read>): State { State(input, [], 0, 0, 0) }

  datatype Turned = Done(next: State, outcome: Outcome) | Again(next: State)

  /** One turn of the loop in `next_frame`. */
  function Turn(s: State): (r: Turned)
    requires s.searchedUntil <= |s.buffered|
    ensures r.next.searchedUntil <= |r.next.buffered|
    ensures r.Again? ==> |r.next.input| < |s.input|
  {
    match Find(s.buffered, s.searchedUntil)
    case Some(newline) =>
      var seen := s.(scanned := s.scanned + newline + 1 - s.searchedUntil);
      if newline > MAX_FRAME_BYTES then Done(seen, TooLarge)
      else
        Done(seen.(buffered := s.buffered[newline + 1..], searchedUntil := 0, drained := s.drained + newline + 1),
             Line(s.buffered[..newline]))
    case None =>
      var seen := s.(searchedUntil := |s.buffered|, scanned := s.scanned + |s.buffered| - s.searchedUntil);
      if |s.buffered| > MAX_FRAME_BYTES then Done(seen, TooLarge)
      else if s.input == [] then Done(seen, Dropped)
      else
        var next := seen.(input := s.input[1..]);
        match s.input[0]
        case Data(bytes) => Again(next.(buffered := s.buffered + bytes))
        case Eof => Done(next, if s.buffered == [] then Ended else Truncated)
        case IoError => Done(next, ReadFailed)
        case Abandoned => Done(next, Dropped)
  }

  /** One call of `next_frame` on the reader's state. */
  function Call(s: State): (r: (State, Outcome))
    requires s.searchedUntil <= |s.buffered|
    ensures r.0.searchedUntil <= |r.0.buffered|
    decreases |s.input|
  {
    match Turn(s)
    case Done(next, outcome) => (next, outcome)
    case Again(next) => Call(next)
  }

  class FrameReader<V> {
    const decode: seq<byte> -> Option<V>
    var input: seq<Read>
    var buffered: seq<byte>
    var searchedUntil: nat
    ghost var drained: nat
    ghost var scanned: nat

    ghost function View(): State
      reads this
    {
      State(input, buffered, searchedUntil, drained, scanned)
    }

    constructor (decode: seq<byte> -> Option<V>, input: seq<Read>)
      ensures View() == Initial(input) && this.decode == decode
    {
      this.decode := decode;
      this.input := input;
      buffered, searchedUntil := [], 0;
      drained, scanned := 0, 0;
    }

    method NextFrame() returns (reply: Reply<V>, ghost outcome: Outcome)
      requires searchedUntil <= |buffered|
      modifies this
      ensures (View(), outcome) == Call(old(View()))
      ensures reply == Answer(decode, outcome)
    {
      var done := false;
      reply, outcome := NoReply, Dropped;
      while !done
        invariant searchedUntil <= |buffered|
        invariant if done then (View(), outcome) == Call(old(View())) else Call(View()) == Call(old(View()))
        invariant done ==> reply == Answer(decode, outcome)
        decreases !done, |input|
      {
        done, reply, outcome := TakeTurn();
      }
    }

    /** The body of the loop: scan what is new, then hand out a frame, fail, or read once more. */
    method TakeTurn() returns (done: bool, reply: Reply<V>, ghost outcome: Outcome)
      requires searchedUntil <= |buffered|
      modifies this
      ensures Turn(old(View())) == if done then Done(View(), outcome) else Again(View())
      ensures done ==> reply == Answer(decode, outcome)
    {
      var found := Find(buffered, searchedUntil);
      if found.Some? {
        var newline := found.value;
        scanned := scanned + newline + 1 - searchedUntil;
        if newline > MAX_FRAME_BYTES {
          return true, FrameTooLarge, TooLarge;
        }
        var frame := buffered[..newline];
        buffered, searchedUntil, drained := buffered[newline + 1..], 0, drained + newline + 1;
        return true, DecodeFrame(decode, frame), Line(frame);
      }
      scanned, searchedUntil := scanned + |buffered| - searchedUntil, |buffered|;
      if |buffered| > MAX_FRAME_BYTES {
        return true, FrameTooLarge, TooLarge;
      }
      if input == [] {
        return true, NoReply, Dropped;
      }
      var read := input[0];
      input := input[1..];
      match read {
        case Data(bytes) =>
          buffered := buffered + bytes;
          return false, NoReply, Dropped;
        case Eof =>
          if buffered == [] {
            return true, EndOfStream, Ended;
          }
          return true, InvalidFrame, Truncated;
        case IoError =>
          return true, TransportClosed, ReadFailed;
        case Abandoned =>
          return true, NoReply, Dropped;
      }
    }
  }

  // ---- The reference: plain splitting of the whole stream ----

  function Bytes(input: seq<Read>): seq<byte> {
    if input == [] then []
    else (if input[0].Data? then input[0].bytes else []) + Bytes(input[1..])
  }

  /** Everything not yet handed out: what is buffered and all that will ever be read. */
  function Remaining(s: State): seq<byte> { s.buffered + Bytes(s.input) }

  /** The complete lines of a stream. */
  function Split(s: seq<byte>): seq<seq<byte>>
    decreases |s|
  {
    match Find(s, 0)
    case None => []
    case Some(i) => [s[..i]] + Split(s[i + 1..])
  }

  /** The lines before the first one over the size limit. */
  function Fitting(lines: seq<seq<byte>>): seq<seq<byte>> {
    if lines == [] || |lines[0]| > MAX_FRAME_BYTES then [] else [lines[0]] + Fitting(lines[1..])
  }

  /** The stream opens with a line that is over the limit, finished or not. */
  predicate Oversized(s: seq<byte>) {
    |s| > MAX_FRAME_BYTES && Clear(s, 0, MAX_FRAME_BYTES + 1)
  }

  /** A newline-free line in front of a stream is its first line. */
  lemma SplitLine(frame: seq<byte>, rest: seq<byte>)
    requires Clear(frame, 0, |frame|)
    ensures Split(frame + [NEWLINE] + rest) == [frame] + Split(rest)
  {
    var s := frame + [NEWLINE] + rest;
    assert s[|frame|] == NEWLINE && s[..|frame|] == frame && s[|frame| + 1..] == rest;
    assert Find(s, 0) == Some(|frame|);
  }

  lemma NothingFits(s: seq<byte>)
    requires Clear(s, 0, |s|) || Oversized(s)
    ensures Fitting(Split(s)) == []
  {}

  /** What one call does, whatever the chunking, said on the remaining stream alone. */
  ghost predicate Meets(s: State, t: State, outcome: Outcome) {
    && t.Valid()
    && match outcome
       case Line(frame) =>
         && Clear(frame, 0, |frame|) && |frame| <= MAX_FRAME_BYTES
         && Remaining(s) == frame + [NEWLINE] + Remaining(t)
       case TooLarge =>
         && Remaining(t) == Remaining(s) && Oversized(t.buffered)
       case _ =>
         && Remaining(t) == Remaining(s) && t.searchedUntil == |t.buffered| <= MAX_FRAME_BYTES
         && (outcome.Ended? ==> t.buffered == []) && (outcome.Truncated? ==> t.buffered != [])
  }

  lemma CutLine(s: State, i: nat)
    requires s.Valid() && i < |s.buffered| && s.buffered[i] == NEWLINE
    ensures Remaining(s) == s.buffered[..i] + [NEWLINE] + (s.buffered[i + 1..] + Bytes(s.input))
  {}

  lemma Refill(s: State)
    requires s.input != [] && s.input[0].Data?
    ensures Remaining(s) == s.buffered + s.input[0].bytes + Bytes(s.input[1..])
  {}

  /** What one turn does, whatever it met. */
  ghost predicate TurnMeets(s: State, turned: Turned) {
    match turned
    case Done(t, o) => Meets(s, t, o)
    case Again(t) => t.Valid() && Remaining(t) == Remaining(s)
  }

  lemma FoundCorrect(s: State)
    requires s.Valid() && Find(s.buffered, s.searchedUntil).Some?
    ensures TurnMeets(s, Turn(s))
  {
    CutLine(s, Find(s.buffered, s.searchedUntil).value);
  }

  /** No newline: oversize, or nothing to read. */
  lemma NoReadCorrect(s: State)
    requires s.Valid() && Find(s.buffered, s.searchedUntil).None? && (|s.buffered| > MAX_FRAME_BYTES || s.input == [])
    ensures TurnMeets(s, Turn(s))
  {}

  lemma DataCorrect(s: State)
    requires s.Valid() && Find(s.buffered, s.searchedUntil).None? && |s.buffered| <= MAX_FRAME_BYTES
    requires s.input != [] && s.input[0].Data?
    ensures TurnMeets(s, Turn(s))
  {
    Refill(s);
  }

  lemma OtherReadCorrect(s: State)
    requires s.Valid() && Find(s.buffered, s.searchedUntil).None? && |s.buffered| <= MAX_FRAME_BYTES
    requires s.input != [] && !s.input[0].Data?
    ensures TurnMeets(s, Turn(s))
  {
    assert Bytes(s.input) == Bytes(s.input[1..]);
  }

  lemma TurnCorrect(s: State)
    requires s.Valid()
    ensures TurnMeets(s, Turn(s))
  {
    if Find(s.buffered, s.searchedUntil).Some? {
      FoundCorrect(s);
    } else if |s.buffered| > MAX_FRAME_BYTES || s.input == [] {
      NoReadCorrect(s);
    } else if s.input[0].Data? {
      DataCorrect(s);
    } else {
      OtherReadCorrect(s);
    }
  }

  lemma {:induction false} CallCorrect(s: State)
    requires s.Valid()
    ensures Meets(s, Call(s).0, Call(s).1)
    decreases |s.input|
  {
    TurnCorrect(s);
    if Turn(s).Again? { CallCorrect(Turn(s).next); }
  }

  // ---- Whole runs ----

  /** `n` calls one after another, abandoned ones included. */
  function Run(s: State, n: nat): (r: (State, seq<Outcome>))
    requires s.searchedUntil <= |s.buffered|
    ensures |r.1| == n
    decreases n
  {
    if n == 0 then (s, [])
    else
      var (s1, o) := Call(s);
      var (t, os) := Run(s1, n - 1);
      (t, [o] + os)
  }

  function Delivered(os: seq<Outcome>): seq<seq<byte>> {
    if os == [] then [] else (if os[0].Line? then [os[0].frame] else []) + Delivered(os[1..])
  }

  lemma FittingLine(frame: seq<byte>, rest: seq<byte>)
    requires Clear(frame, 0, |frame|) && |frame| <= MAX_FRAME_BYTES
    ensures Fitting(Split(frame + [NEWLINE] + rest)) == [frame] + Fitting(Split(rest))
  {
    SplitLine(frame, rest);
  }

  lemma RunUnfold(s: State, n: nat)
    requires s.searchedUntil <= |s.buffered| && n > 0
    ensures
      var (s1, o) := Call(s);
      && Run(s, n).0 == Run(s1, n - 1).0
      && Delivered(Run(s, n).1) == (if o.Line? then [o.frame] else []) + Delivered(Run(s1, n - 1).1)
  {
    assert Run(s, n).1[1..] == Run(Call(s).0, n - 1).1;
  }

  /** Between `s` and `t` the reader handed out `given`, and no other fitting line of the stream. */
  ghost predicate Gives(s: State, given: seq<seq<byte>>, t: State) {
    Fitting(Split(Remaining(s))) == given + Fitting(Split(Remaining(t)))
  }

  lemma GivesMore(s: State, first: seq<seq<byte>>, s1: State, later: seq<seq<byte>>, t: State)
    requires Gives(s, first, s1) && Gives(s1, later, t)
    ensures Gives(s, first + later, t)
  {}

  lemma CallSplitsTheStream(s: State)
    requires s.Valid()
    ensures var (t, o) := Call(s); t.Valid() && Gives(s, if o.Line? then [o.frame] else [], t)
  {
    CallCorrect(s);
    var (t, o) := Call(s);
    if o.Line? { FittingLine(o.frame, Remaining(t)); }
  }

  /**
   * Refinement: over any number of calls, any chunking and any abandoned reads, the frames
   * handed out followed by the ones still to come are exactly the fitting lines of the stream.
   */
  lemma {:induction false} RunSplitsTheStream(s: State, n: nat)
    requires s.Valid()
    ensures Run(s, n).0.Valid() && Gives(s, Delivered(Run(s, n).1), Run(s, n).0)
    decreases n
  {
    if n > 0 {
      CallSplitsTheStream(s);
      var (s1, o) := Call(s);
      RunSplitsTheStream(s1, n - 1);
      var first, later := if o.Line? then [o.frame] else [], Delivered(Run(s1, n - 1).1);
      GivesMore(s, first, s1, later, Run(s1, n - 1).0);
      RunUnfold(s, n);
    }
  }

  lemma {:induction false} AfterLastCall(s: State, n: nat)
    requires s.Valid() && n > 0
    ensures var (t, os) := Run(s, n);
        t.Valid() && (os[n - 1].Line? || Oversized(t.buffered) || Clear(t.buffered, 0, |t.buffered|))
    decreases n
  {
    CallCorrect(s);
    if n > 1 { AfterLastCall(Call(s).0, n - 1); }
  }

  /** No frame is lost: once the stream is used up and a call hands out nothing, all were handed out. */
  lemma AllLinesDelivered(input: seq<Read>, n: nat)
    requires ValidInput(input) && n > 0
    requires var (t, os) := Run(Initial(input), n); Bytes(t.input) == [] && !os[n - 1].Line?
    ensures Delivered(Run(Initial(input), n).1) == Fitting(Split(Bytes(input)))
  {
    var s := Initial(input);
    var t := Run(s, n).0;
    RunSplitsTheStream(s, n);
    AfterLastCall(s, n);
    assert Remaining(s) == Bytes(input) && Remaining(t) == t.buffered;
    NothingFits(t.buffered);
  }

  /** Two readers of the same bytes never disagree, however their input is cut or interrupted. */
  lemma ChunkingIsInvisible(a: seq<Read>, m: nat, b: seq<Read>, n: nat)
    requires ValidInput(a) && ValidInput(b) && Bytes(a) == Bytes(b)
    ensures
      var x, y := Delivered(Run(Initial(a), m).1), Delivered(Run(Initial(b), n).1);
      x <= y || y <= x
  {
    RunSplitsTheStream(Initial(a), m);
    RunSplitsTheStream(Initial(b), n);
    assert Remaining(Initial(a)) == Bytes(a) && Remaining(Initial(b)) == Bytes(b);
    var x, y := Delivered(Run(Initial(a), m).1), Delivered(Run(Initial(b), n).1);
    var all := Fitting(Split(Bytes(a)));
    assert x == all[..|x|] && y == all[..|y|];
  }

  /** Nothing follows the end of the stream: after the first Eof there is no more data. */
  ghost predicate EndsAtEof(input: seq<Read>) {
    forall i, j | 0 <= i < j < |input| && input[i].Eof? :: !input[j].Data?
  }

  /** The `k`-th result of a stream that ends: its lines, then oversize for ever, or truncation or end for ever. */
  function Reference(stream: seq<byte>, k: nat): Outcome {
    if Oversized(stream) then TooLarge
    else match Find(stream, 0)
      case None => if stream == [] then Ended else Truncated
      case Some(i) => if k == 0 then Line(stream[..i]) else Reference(stream[i + 1..], k - 1)
  }

  /** The calls that gave a result: not the abandoned ones, nor those whose read failed. */
  function Results(os: seq<Outcome>): seq<Outcome> {
    if os == [] then [] else (if os[0].Dropped? || os[0].ReadFailed? then [] else [os[0]]) + Results(os[1..])
  }

  /** The lines of the reference are the fitting lines, and nothing after them is a line. */
  lemma {:induction false} ReferenceLines(stream: seq<byte>, k: nat)
    ensures
      var lines := Fitting(Split(stream));
      if k < |lines| then Reference(stream, k) == Line(lines[k]) else !Reference(stream, k).Line?
    decreases k
  {
    var at := Find(stream, 0);
    if at.Some? && at.value <= MAX_FRAME_BYTES {
      assert !Oversized(stream);
      if k > 0 { ReferenceLines(stream[at.value + 1..], k - 1); }
    } else {
      assert at.Some? ==> Oversized(stream);
    }
  }

  lemma ReferenceOfLine(frame: seq<byte>, rest: seq<byte>, k: nat)
    requires Clear(frame, 0, |frame|) && |frame| <= MAX_FRAME_BYTES
    ensures Reference(frame + [NEWLINE] + rest, k) == if k == 0 then Line(frame) else Reference(rest, k - 1)
  {
    var s := frame + [NEWLINE] + rest;
    assert s[|frame|] == NEWLINE && s[..|frame|] == frame && s[|frame| + 1..] == rest;
    assert Find(s, 0) == Some(|frame|);
  }

  lemma {:induction false} NoBytes(input: seq<Read>)
    requires forall i | 0 <= i < |input| :: !input[i].Data?
    ensures Bytes(input) == []
  {
    if input != [] { NoBytes(input[1..]); }
  }

  /** The end is reported only when every byte was read. */
  lemma {:induction false} EndIsTheEnd(s: State)
    requires s.Valid() && EndsAtEof(s.input)
    ensures var (t, o) := Call(s); EndsAtEof(t.input) && (o.Ended? || o.Truncated? ==> Bytes(t.input) == [])
    decreases |s.input|
  {
    TurnCorrect(s);
    var turned := Turn(s);
    assert turned.next.input == s.input || turned.next.input == s.input[1..];
    assert EndsAtEof(turned.next.input);
    if turned.Again? {
      EndIsTheEnd(turned.next);
    } else if turned.outcome.Ended? || turned.outcome.Truncated? {
      NoBytes(s.input[1..]);
    }
  }

  /** A call that gives no line leaves a stream whose every further reference is what it reported. */
  lemma LastWord(s: State, k: nat)
    requires s.Valid() && EndsAtEof(s.input) && !Call(s).1.Line? && !Call(s).1.Dropped? && !Call(s).1.ReadFailed?
    ensures Reference(Remaining(s), k) == Call(s).1
  {
    CallCorrect(s);
    EndIsTheEnd(s);
    var (t, o) := Call(s);
    if o.TooLarge? {
      assert forall i | 0 <= i <= MAX_FRAME_BYTES :: Remaining(t)[i] == t.buffered[i];
    } else {
      assert Remaining(t) == t.buffered;
      assert Find(t.buffered, 0) == None;
    }
  }

  lemma CallFollowsTheStream(s: State, k: nat)
    requires s.Valid() && EndsAtEof(s.input)
    ensures
      var (t, o) := Call(s);
      && t.Valid() && EndsAtEof(t.input)
      && (if o.Dropped? || o.ReadFailed? then Remaining(t) == Remaining(s)
          else Reference(Remaining(s), 0) == o && Reference(Remaining(s), k + 1) == Reference(Remaining(t), k))
  {
    CallCorrect(s);
    EndIsTheEnd(s);
    var (t, o) := Call(s);
    if o.Line? {
      ReferenceOfLine(o.frame, Remaining(t), 0);
      ReferenceOfLine(o.frame, Remaining(t), k + 1);
    } else if !o.Dropped? && !o.ReadFailed? {
      LastWord(s, 0);
      LastWord(s, k);
      LastWord(s, k + 1);
    }
  }

  lemma ResultsUnfold(s: State, n: nat)
    requires s.searchedUntil <= |s.buffered| && n > 0
    ensures
      var (s1, o) := Call(s);
      Results(Run(s, n).1) == (if o.Dropped? || o.ReadFailed? then [] else [o]) + Results(Run(s1, n - 1).1)
  {
    assert Run(s, n).1[1..] == Run(Call(s).0, n - 1).1;
  }

  /** The results are the first ones of the stream's reference. */
  ghost predicate Follows(results: seq<Outcome>, stream: seq<byte>) {
    forall k | 0 <= k < |results| :: results[k] == Reference(stream, k)
  }

  lemma FollowsMore(o: Outcome, rest: seq<Outcome>, stream: seq<byte>, later: seq<byte>)
    requires Reference(stream, 0) == o && Follows(rest, later)
    requires forall k: nat :: Reference(stream, k + 1) == Reference(later, k)
    ensures Follows([o] + rest, stream)
  {
    forall k | 0 <= k < |[o] + rest| ensures ([o] + rest)[k] == Reference(stream, k) {
      if k > 0 { assert Reference(stream, (k - 1) + 1) == Reference(later, k - 1); }
    }
  }

  /**
   * The whole sequence of results, errors and end included: over any number of calls, any chunking, any abandoned
   * or failing reads, the results given are the first results of the reference for the stream's bytes.
   */
  lemma {:induction false} ResultsFollowTheStream(s: State, n: nat)
    requires s.Valid() && EndsAtEof(s.input)
    ensures Follows(Results(Run(s, n).1), Remaining(s))
    decreases n
  {
    if n > 0 {
      ResultsUnfold(s, n);
      var (s1, o) := Call(s);
      CallFollowsTheStream(s, 0);
      ResultsFollowTheStream(s1, n - 1);
      var rest := Results(Run(s1, n - 1).1);
      if o.Dropped? || o.ReadFailed? {
        assert [] + rest == rest;
      } else {
        forall k: nat ensures Reference(Remaining(s), k + 1) == Reference(Remaining(s1), k) {
          CallFollowsTheStream(s, k);
        }
        FollowsMore(o, rest, Remaining(s), Remaining(s1));
      }
    }
  }

  /** An oversized line is reported by every later call; nothing after it is handed out. */
  lemma {:induction false} OversizeIsSticky(s: State, n: nat, i: nat, j: nat)
    requires s.Valid() && i <= j < n && Run(s, n).1[i].TooLarge?
    ensures Run(s, n).1[j].TooLarge?
    decreases n
  {
    CallCorrect(s);
    var s1 := Call(s).0;
    if i > 0 {
      OversizeIsSticky(s1, n - 1, i - 1, j - 1);
    } else if j > 0 {
      assert Call(s1).1.TooLarge?;
      OversizeIsSticky(s1, n - 1, 0, j - 1);
    }
  }

  lemma {:induction false} CallScansOnce(s: State)
    requires s.searchedUntil <= |s.buffered| && s.scanned == s.drained + s.searchedUntil
    ensures var (t, o) := Call(s); o.TooLarge? || t.scanned == t.drained + t.searchedUntil
    decreases |s.input|
  {
    if Turn(s).Again? { CallScansOnce(Turn(s).next); }
  }

  /** Linear cost: until the first oversize error every inspected byte was inspected exactly once. */
  lemma {:induction false} BytesAreScannedOnce(s: State, n: nat)
    requires s.Valid() && s.scanned == s.drained + s.searchedUntil && TooLarge !in Run(s, n).1
    ensures var t := Run(s, n).0; t.scanned == t.drained + t.searchedUntil
    decreases n
  {
    if n > 0 {
      var (s1, o) := Call(s);
      CallCorrect(s);
      CallScansOnce(s);
      assert Run(s, n).1 == [o] + Run(s1, n - 1).1;
      BytesAreScannedOnce(s1, n - 1);
    }
  }
}
