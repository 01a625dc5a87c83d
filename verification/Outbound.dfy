/** The single outbound path to a client (`outbound.py`): one queue, one writer task. */
module Outbound {

  datatype Msg = Json(doc: nat) | Binary(doc: nat, size: nat)

  /** What the queue holds. A flush is known by the number of its call. */
  datatype Entry = Message(msg: Msg) | Flush(id: nat) | Stop

  /** The future of a `flush` call: `Left` if its waiter was cancelled. */
  datatype Future = Waiting | Flushed | Refused | Left

  /** `Idle`: waiting for the queue. `Slow`: in the `on_slow` callback. */
  datatype Writer = Idle | Writing(msg: Msg) | Slow | Done

  /** The sender, with its history: the messages accepted and written, for each flush call how
      many messages had been accepted by then, and whether an `aclose` has returned. */
  datatype State = State(
    queue: seq<Entry>, failure: bool, closing: bool, writer: Writer,
    pendingMsgs: int, pendingBytes: int, peakMsgs: int, peakBytes: int,
    futures: seq<Future>, marks: seq<nat>, accepted: seq<Msg>, written: seq<Msg>, closed: bool)

  const START := State([], false, false, Idle, 0, 0, 0, 0, [], [], [], [], false)

  function Size(m: Msg): nat { if m.Binary? then m.size else 0 }

  function Max(a: int, b: int): int { if a >= b then a else b }

  function OfEntry(e: Entry): seq<Msg> { if e.Message? then [e.msg] else [] }

  /** The messages among queue entries, in order, and their binary bytes. */
  function Messages(q: seq<Entry>): seq<Msg> { if |q| == 0 then [] else OfEntry(q[0]) + Messages(q[1..]) }

  function Bytes(q: seq<Entry>): nat {
    if |q| == 0 then 0 else (if q[0].Message? then Size(q[0].msg) else 0) + Bytes(q[1..])
  }

  // ---------------------------------------------------------------- steps

  /** `_check_open` raises. */
  predicate Refuses(s: State) { s.failure || s.closing || s.writer == Done }

  /** `send_json`, `send_bytes` */
  function Send(s: State, m: Msg): State {
    if Refuses(s) then s
    else s.(queue := s.queue + [Message(m)], accepted := s.accepted + [m],
            pendingMsgs := s.pendingMsgs + 1, pendingBytes := s.pendingBytes + Size(m),
            peakMsgs := Max(s.peakMsgs, s.pendingMsgs + 1), peakBytes := Max(s.peakBytes, s.pendingBytes + Size(m)))
  }

  /** `flush` up to its wait. */
  function CallFlush(s: State): State {
    if Refuses(s) then s
    else s.(queue := s.queue + [Flush(|s.futures|)], futures := s.futures + [Waiting],
            marks := s.marks + [|s.accepted|])
  }

  function Settle(futures: seq<Future>, id: nat, to: Future): seq<Future> {
    if id < |futures| && futures[id] == Waiting then futures[id := to] else futures
  }

  /** The flushes among `q` that still wait are refused. */
  function RefuseAll(futures: seq<Future>, q: seq<Entry>): seq<Future> {
    seq(|futures|, i requires 0 <= i < |futures| =>
      if futures[i] == Waiting && Flush(i) in q then Refused else futures[i])
  }

  /** `_discard_pending` */
  function Discard(s: State): State {
    s.(queue := [], futures := RefuseAll(s.futures, s.queue),
       pendingMsgs := s.pendingMsgs - |Messages(s.queue)|,
       pendingBytes := s.pendingBytes - Bytes(s.queue))
  }

  /** The writer takes the next entry. */
  function Take(s: State): State {
    if s.writer != Idle || s.queue == [] then s
    else
      var rest := s.(queue := s.queue[1..]);
      match s.queue[0]
      case Stop => rest.(writer := Done)
      case Flush(id) => rest.(futures := Settle(s.futures, id, Flushed))
      case Message(m) =>
        rest.(writer := Writing(m), pendingMsgs := s.pendingMsgs - 1, pendingBytes := s.pendingBytes - Size(m))
  }

  datatype WriteResult = Wrote | Failed | TimedOut

  /** The socket write ends. */
  function Write(s: State, r: WriteResult): State {
    if !s.writer.Writing? then s
    else match r
      case Wrote => s.(writer := Idle, written := s.written + [s.writer.msg])
      case Failed => Discard(s.(failure := true)).(writer := Done)
      case TimedOut => Discard(s.(failure := true)).(writer := Slow)
  }

  /** `aclose` up to its wait. */
  function BeginClose(s: State): State {
    s.(closing := true, queue := if s.writer == Done then s.queue else s.queue + [Stop])
  }

  /** Every atomic step. `Cancel`: `aclose` gives up on the writer and cancels it. `EndClose`:
      its `finally`, entered only with the writer done. */
  datatype Event =
    | Sends(m: Msg) | Flushes | Leaves(id: nat) | Takes | Writes(r: WriteResult) | SlowEnds
    | BeginsClose | Cancel | EndClose

  function Next(s: State, e: Event): State {
    match e
    case Sends(m) => Send(s, m)
    case Flushes => CallFlush(s)
    case Leaves(id) => s.(futures := Settle(s.futures, id, Left))
    case Takes => Take(s)
    case Writes(r) => Write(s, r)
    case SlowEnds => if s.writer == Slow then s.(writer := Done) else s
    case BeginsClose => BeginClose(s)
    case Cancel => if s.closing then s.(writer := Done) else s
    case EndClose => if s.closing && s.writer == Done then Discard(s).(closed := true) else s
  }

  function Run(evs: seq<Event>): State {
    if |evs| == 0 then START else Next(Run(evs[..|evs| - 1]), evs[|evs| - 1])
  }

  // ---------------------------------------------------------------- the sender as an object

  lemma RefuseNone(futures: seq<Future>)
    ensures RefuseAll(futures, []) == futures
  {
  }

  lemma RefuseStep(futures: seq<Future>, q: seq<Entry>, n: nat)
    requires 0 < n <= |q|
    ensures var before := RefuseAll(futures, q[..n - 1]);
            RefuseAll(futures, q[..n]) == if q[n - 1].Flush? then Settle(before, q[n - 1].id, Refused) else before
  {
    assert q[..n] == q[..n - 1] + [q[n - 1]];
  }

  lemma Assoc(a: seq<Msg>, b: seq<Msg>, c: seq<Msg>)
    ensures a + (b + c) == (a + b) + c
  {
  }

  lemma {:induction false} MessagesSnoc(q: seq<Entry>, e: Entry)
    ensures Messages(q + [e]) == Messages(q) + OfEntry(e)
    ensures Bytes(q + [e]) == Bytes(q) + if e.Message? then Size(e.msg) else 0
  {
    if |q| == 0 {
      assert q + [e] == [e] && [e][1..] == [];
      assert Messages([e]) == OfEntry(e) + [];
    } else {
      assert (q + [e])[1..] == q[1..] + [e];
      MessagesSnoc(q[1..], e);
      Assoc(OfEntry(q[0]), Messages(q[1..]), OfEntry(e));
    }
  }

  lemma MessagesStep(q: seq<Entry>, n: nat)
    requires 0 < n <= |q|
    ensures Messages(q[..n]) == Messages(q[..n - 1]) + OfEntry(q[n - 1])
    ensures Bytes(q[..n]) == Bytes(q[..n - 1]) + if q[n - 1].Message? then Size(q[n - 1].msg) else 0
  {
    assert q[..n] == q[..n - 1] + [q[n - 1]];
    MessagesSnoc(q[..n - 1], q[n - 1]);
  }

  /** The first `n` entries of the queue of `s` have been discarded. */
  predicate Dropping(s: State, n: nat, queue: seq<Entry>, futures: seq<Future>, msgs: int, bytes: int) {
    && n <= |s.queue| && queue == s.queue[n..] && futures == RefuseAll(s.futures, s.queue[..n])
    && msgs == s.pendingMsgs - |Messages(s.queue[..n])| && bytes == s.pendingBytes - Bytes(s.queue[..n])
  }

  lemma DropNone(s: State)
    ensures Dropping(s, 0, s.queue, s.futures, s.pendingMsgs, s.pendingBytes)
  {
    RefuseNone(s.futures);
    assert s.queue[0..] == s.queue && s.queue[..0] == [];
  }

  lemma DropStep(s: State, n: nat, queue: seq<Entry>, futures: seq<Future>, msgs: int, bytes: int)
    requires Dropping(s, n, queue, futures, msgs, bytes) && queue != []
    ensures var e := queue[0];
            Dropping(s, n + 1, queue[1..], if e.Flush? then Settle(futures, e.id, Refused) else futures,
                     msgs - (if e.Message? then 1 else 0), bytes - (if e.Message? then Size(e.msg) else 0))
  {
    assert queue[0] == s.queue[n] && queue[1..] == s.queue[n + 1..];
    MessagesStep(s.queue, n + 1);
    RefuseStep(s.futures, s.queue, n + 1);
  }

  lemma DropAll(s: State, n: nat, queue: seq<Entry>, futures: seq<Future>, msgs: int, bytes: int)
    requires Dropping(s, n, queue, futures, msgs, bytes) && queue == []
    ensures s.(queue := queue, futures := futures, pendingMsgs := msgs, pendingBytes := bytes) == Discard(s)
  {
    assert s.queue[..n] == s.queue;
  }

  class QueuedSender {
    var queue: seq<Entry>
    var failure: bool
    var closing: bool
    var writer: Writer
    var pendingMsgs: int
    var pendingBytes: int
    var peakMsgs: int
    var peakBytes: int
    var futures: seq<Future>
    ghost var marks: seq<nat>
    ghost var accepted: seq<Msg>
    ghost var written: seq<Msg>
    ghost var closed: bool

    ghost function Abs(): State
      reads this
    {
      State(queue, failure, closing, writer, pendingMsgs, pendingBytes, peakMsgs, peakBytes,
            futures, marks, accepted, written, closed)
    }

    constructor ()
      ensures Abs() == START
    {
      queue, failure, closing, writer, futures := [], false, false, Idle, [];
      pendingMsgs, pendingBytes, peakMsgs, peakBytes := 0, 0, 0, 0;
      marks, accepted, written, closed := [], [], [], false;
    }

    /** False where the source raises `ClientGone`. */
    method SendMessage(m: Msg) returns (ok: bool)
      modifies this
      ensures Abs() == Send(old(Abs()), m) && ok == !Refuses(old(Abs()))
    {
      if failure || closing || writer == Done {
        return false;
      }
      queue := queue + [Message(m)];
      accepted := accepted + [m];
      CountIn(Size(m));
      return true;
    }

    method CountIn(size: nat)
      modifies this`pendingMsgs, this`pendingBytes, this`peakMsgs, this`peakBytes
      ensures pendingMsgs == old(pendingMsgs) + 1 && pendingBytes == old(pendingBytes) + size
      ensures peakMsgs == Max(old(peakMsgs), pendingMsgs) && peakBytes == Max(old(peakBytes), pendingBytes)
    {
      pendingMsgs := pendingMsgs + 1;
      pendingBytes := pendingBytes + size;
      peakMsgs := Max(peakMsgs, pendingMsgs);
      peakBytes := Max(peakBytes, pendingBytes);
    }

    method CountOut(m: Msg)
      modifies this`pendingMsgs, this`pendingBytes
      ensures pendingMsgs == old(pendingMsgs) - 1 && pendingBytes == old(pendingBytes) - Size(m)
    {
      pendingMsgs := pendingMsgs - 1;
      if m.Binary? {
        pendingBytes := pendingBytes - m.size;
      }
    }

    method StartFlush() returns (ok: bool, id: nat)
      modifies this
      ensures Abs() == CallFlush(old(Abs())) && ok == !Refuses(old(Abs())) && id == |old(futures)|
    {
      id := |futures|;
      if failure || closing || writer == Done {
        return false, id;
      }
      queue := queue + [Flush(id)];
      futures := futures + [Waiting];
      marks := marks + [|accepted|];
      return true, id;
    }

    /** One turn of the writer's loop, up to the socket write. */
    method TakeNext()
      modifies this
      ensures Abs() == Take(old(Abs()))
    {
      if writer != Idle || queue == [] {
        return;
      }
      var entry := queue[0];
      queue := queue[1..];
      match entry
      case Stop => writer := Done;
      case Flush(id) =>
        if id < |futures| && futures[id] == Waiting {
          futures := futures[id := Flushed];
        }
      case Message(m) =>
        CountOut(m);
        writer := Writing(m);
    }

    method FinishWrite(r: WriteResult)
      modifies this
      ensures Abs() == Write(old(Abs()), r)
    {
      if !writer.Writing? {
        return;
      }
      if r == Wrote {
        written := written + [writer.msg];
        writer := Idle;
        return;
      }
      failure := true;
      DiscardPending();
      writer := if r == Failed then Done else Slow;
    }

    /** Drop queued messages; fail any flush still waiting on them. */
    method DiscardPending()
      modifies this`queue, this`futures, this`pendingMsgs, this`pendingBytes
      ensures Abs() == Discard(old(Abs()))
    {
      ghost var s := Abs();
      ghost var n := 0;
      DropNone(s);
      while queue != []
        invariant Dropping(s, n, queue, futures, pendingMsgs, pendingBytes)
        decreases |queue|
      {
        DropStep(s, n, queue, futures, pendingMsgs, pendingBytes);
        DiscardOne();
        n := n + 1;
      }
      DropAll(s, n, queue, futures, pendingMsgs, pendingBytes);
    }

    method DiscardOne()
      requires queue != []
      modifies this`queue, this`futures, this`pendingMsgs, this`pendingBytes
      ensures queue == old(queue)[1..]
      ensures var e := old(queue)[0];
              && pendingMsgs == old(pendingMsgs) - (if e.Message? then 1 else 0)
              && pendingBytes == old(pendingBytes) - (if e.Message? then Size(e.msg) else 0)
              && futures == if e.Flush? then Settle(old(futures), e.id, Refused) else old(futures)
    {
      var entry := queue[0];
      queue := queue[1..];
      if entry.Message? {
        CountOut(entry.msg);
      }
      if entry.Flush? && entry.id < |futures| && futures[entry.id] == Waiting {
        futures := futures[entry.id := Refused];
      }
    }
  }

  // ---------------------------------------------------------------- invariants

  function InFlight(s: State): seq<Msg> { if s.writer.Writing? then [s.writer.msg] else [] }

  /** Counters are exact, and what was accepted is written, in flight or queued, in order. */
  predicate Fifo(s: State) {
    && s.pendingMsgs == |Messages(s.queue)| && s.pendingBytes == Bytes(s.queue)
    && s.written <= s.accepted
    && (!s.failure && s.writer != Done ==> s.accepted == s.written + InFlight(s) + Messages(s.queue))
    && (s.writer == Slow ==> s.failure) && (s.failure ==> s.writer == Slow || s.writer == Done)
    && (s.writer == Done ==> s.failure || s.closing)
    && (s.closed ==> s.closing && s.writer == Done)
  }

  /** Queue position `i` holds a flush: it was called after exactly the messages before it. */
  predicate FlushOk(s: State, i: nat)
    requires i < |s.queue| && |s.marks| == |s.futures|
  {
    s.queue[i].Flush? ==>
      && s.queue[i].id < |s.futures|
      && s.marks[s.queue[i].id] == |s.written| + |InFlight(s)| + |Messages(s.queue[..i])|
  }

  predicate FutureOk(s: State, id: nat)
    requires id < |s.futures| == |s.marks|
  {
    && s.marks[id] <= |s.accepted|
    && (s.futures[id] == Waiting ==> Flush(id) in s.queue && !s.failure && !s.closed)
    && (s.futures[id] == Flushed ==> s.marks[id] <= |s.written|)
  }

  predicate Inv(s: State) {
    && Fifo(s)
    && |s.marks| == |s.futures|
    && (Stop in s.queue ==> s.closing)
    && (s.writer != Done ==> forall i :: 0 <= i < |s.queue| ==> FlushOk(s, i))
    && (forall id :: 0 <= id < |s.futures| ==> FutureOk(s, id))
  }

  lemma SendKeeps(s: State, m: Msg)
    requires Inv(s) && !Refuses(s)
    ensures Inv(Send(s, m))
  {
    var s1 := Send(s, m);
    MessagesSnoc(s.queue, Message(m));
    forall i | 0 <= i < |s1.queue| ensures FlushOk(s1, i) {
      if i < |s.queue| {
        assert FlushOk(s, i) && s1.queue[..i] == s.queue[..i];
      }
    }
    forall id | 0 <= id < |s1.futures| ensures FutureOk(s1, id) {
      assert FutureOk(s, id);
    }
  }

  lemma FlushKeeps(s: State)
    requires Inv(s) && !Refuses(s)
    ensures Inv(CallFlush(s))
  {
    var s1 := CallFlush(s);
    MessagesSnoc(s.queue, Flush(|s.futures|));
    forall i | 0 <= i < |s1.queue| ensures FlushOk(s1, i) {
      assert s1.queue[..i] == s.queue[..i];
      if i < |s.queue| { assert FlushOk(s, i); } else { assert s.queue[..i] == s.queue; }
    }
    forall id | 0 <= id < |s1.futures| ensures FutureOk(s1, id) {
      if id < |s.futures| { assert FutureOk(s, id); }
    }
  }

  lemma BeginCloseKeeps(s: State)
    requires Inv(s)
    ensures Inv(BeginClose(s))
  {
    var s1 := BeginClose(s);
    if s.writer != Done {
      MessagesSnoc(s.queue, Stop);
      forall i | 0 <= i < |s1.queue| ensures FlushOk(s1, i) {
        assert s1.queue[..i] == s.queue[..i];
        if i < |s.queue| { assert FlushOk(s, i); }
      }
    }
    forall id | 0 <= id < |s1.futures| ensures FutureOk(s1, id) {
      assert FutureOk(s, id);
    }
  }

  lemma DiscardKeeps(s: State, s1: State)
    requires Inv(s) && s1 == Discard(s).(failure := s1.failure, writer := s1.writer, closed := s1.closed)
    requires s1.failure ==> s1.writer == Done || s1.writer == Slow
    requires !s1.failure ==> s1.writer == Done && s1.closing && !s.failure
    requires s1.closed ==> s1.closing && s1.writer == Done
    ensures Inv(s1)
    ensures forall id :: 0 <= id < |s1.futures| ==> s1.futures[id] != Waiting
  {
    forall id | 0 <= id < |s1.futures| ensures FutureOk(s1, id) && s1.futures[id] != Waiting {
      assert FutureOk(s, id);
    }
  }

  /** The first entry leaves: marks behind it still count the messages before them. */
  lemma TakeShifts(s: State, i: nat)
    requires Inv(s) && s.writer == Idle && i < |s.queue| - 1 && s.queue[0] != Stop
    ensures FlushOk(Take(s), i)
  {
    assert FlushOk(s, i + 1);
    assert s.queue[..i + 1][1..] == Take(s).queue[..i];
  }

  lemma TakeMessageFifo(s: State)
    requires Fifo(s) && s.writer == Idle && s.queue != [] && s.queue[0].Message?
    ensures Fifo(Take(s))
  {
    assert s.written + [] == s.written;
    Assoc(s.written, [s.queue[0].msg], Messages(s.queue[1..]));
  }

  lemma TakeMessageKeeps(s: State)
    requires Inv(s) && s.writer == Idle && s.queue != [] && s.queue[0].Message?
    ensures Inv(Take(s))
  {
    var s1 := Take(s);
    TakeMessageFifo(s);
    forall i | 0 <= i < |s1.queue| ensures FlushOk(s1, i) {
      TakeShifts(s, i);
    }
    forall id | 0 <= id < |s1.futures| ensures FutureOk(s1, id) {
      assert FutureOk(s, id);
    }
  }

  lemma TakeFlushKeeps(s: State)
    requires Inv(s) && s.writer == Idle && s.queue != [] && s.queue[0].Flush?
    ensures Inv(Take(s))
  {
    var s1 := Take(s);
    assert [] + Messages(s1.queue) == Messages(s1.queue);
    forall i | 0 <= i < |s1.queue| ensures FlushOk(s1, i) {
      TakeShifts(s, i);
    }
    forall id | 0 <= id < |s1.futures| ensures FutureOk(s1, id) {
      assert FutureOk(s, id) && FlushOk(s, 0) && s.queue[..0] == [];
    }
  }

  lemma TakeStopKeeps(s: State)
    requires Inv(s) && s.writer == Idle && s.queue != [] && s.queue[0] == Stop
    ensures Inv(Take(s))
  {
    var s1 := Take(s);
    assert [] + Messages(s1.queue) == Messages(s1.queue);
    forall id | 0 <= id < |s1.futures| ensures FutureOk(s1, id) {
      assert FutureOk(s, id);
    }
  }

  lemma WroteKeeps(s: State)
    requires Inv(s) && s.writer.Writing?
    ensures Inv(Write(s, Wrote))
  {
    var s1 := Write(s, Wrote);
    assert s1.written + [] + Messages(s.queue) == s.accepted;
    forall i | 0 <= i < |s1.queue| ensures FlushOk(s1, i) {
      assert FlushOk(s, i);
    }
    forall id | 0 <= id < |s1.futures| ensures FutureOk(s1, id) {
      assert FutureOk(s, id);
    }
  }

  lemma QuietKeeps(s: State, e: Event)
    requires Inv(s) && (e.Leaves? || e.SlowEnds? || e.Cancel?)
    ensures Inv(Next(s, e))
  {
    var s1 := Next(s, e);
    forall i | 0 <= i < |s1.queue| && s1.writer != Done ensures FlushOk(s1, i) {
      assert FlushOk(s, i);
    }
    forall id | 0 <= id < |s1.futures| ensures FutureOk(s1, id) {
      assert FutureOk(s, id);
    }
  }

  lemma NextKeeps(s: State, e: Event)
    requires Inv(s)
    ensures Inv(Next(s, e))
  {
    match e
    case Sends(m) => if !Refuses(s) { SendKeeps(s, m); }
    case Flushes => if !Refuses(s) { FlushKeeps(s); }
    case Takes =>
      if s.writer == Idle && s.queue != [] {
        match s.queue[0]
        case Message(_) => TakeMessageKeeps(s);
        case Flush(_) => TakeFlushKeeps(s);
        case Stop => TakeStopKeeps(s);
      }
    case Writes(r) =>
      if s.writer.Writing? {
        if r == Wrote { WroteKeeps(s); } else { DiscardKeeps(s, Next(s, e)); }
      }
    case BeginsClose => BeginCloseKeeps(s);
    case EndClose => if s.closing && s.writer == Done { DiscardKeeps(s, Next(s, e)); }
    case _ => QuietKeeps(s, e);
  }

  lemma {:induction false} RunKeeps(evs: seq<Event>)
    ensures Inv(Run(evs))
  {
    if |evs| == 0 {
    } else {
      RunKeeps(evs[..|evs| - 1]);
      NextKeeps(Run(evs[..|evs| - 1]), evs[|evs| - 1]);
    }
  }

  // ---------------------------------------------------------------- main results

  /** The sender refines a FIFO in every run: what is written is a prefix of what was accepted,
      the counters are exact, and while the writer is up nothing is missing in between. */
  lemma OutboundIsFifo(evs: seq<Event>)
    ensures var s := Run(evs);
            && s.written <= s.accepted
            && s.pendingMsgs == |Messages(s.queue)| && s.pendingBytes == Bytes(s.queue)
            && (!s.failure && s.writer != Done ==> s.accepted == s.written + InFlight(s) + Messages(s.queue))
  {
    RunKeeps(evs);
  }

  /** No flush waits any more once a write has failed or an `aclose` has returned. */
  lemma NoFlushLeftWaiting(evs: seq<Event>, id: nat)
    requires id < |Run(evs).futures| && (Run(evs).failure || Run(evs).closed)
    ensures Run(evs).futures[id] != Waiting
  {
    RunKeeps(evs);
    assert FutureOk(Run(evs), id);
  }

  predicate Later(s: State, s1: State) {
    && s.accepted <= s1.accepted && s.written <= s1.written && s.marks <= s1.marks && |s.futures| <= |s1.futures|
    && (Refuses(s) ==> Refuses(s1) && s1.accepted == s.accepted)
  }

  lemma NextLater(s: State, e: Event)
    requires Inv(s)
    ensures Later(s, Next(s, e))
  {
  }

  lemma {:induction false} RunLater(evs: seq<Event>, n: nat)
    requires n <= |evs|
    ensures Later(Run(evs[..n]), Run(evs))
  {
    if n == |evs| {
      assert evs[..n] == evs;
    } else {
      var init := evs[..|evs| - 1];
      RunLater(init, n);
      assert init[..n] == evs[..n];
      RunKeeps(init);
      NextLater(Run(init), evs[|evs| - 1]);
    }
  }

  /** Refusal is permanent: after the first refusal nothing is ever accepted again. */
  lemma RefusalIsPermanent(evs: seq<Event>, n: nat)
    requires n <= |evs| && Refuses(Run(evs[..n]))
    ensures Refuses(Run(evs)) && Run(evs).accepted == Run(evs[..n]).accepted
  {
    RunLater(evs, n);
  }

  /** A flush that succeeded, called as event `n`: everything accepted before it was written. */
  lemma FlushMeansWritten(evs: seq<Event>, n: nat)
    requires n < |evs| && evs[n] == Flushes && !Refuses(Run(evs[..n]))
    ensures var id := |Run(evs[..n]).futures|;
            id < |Run(evs).futures| && (Run(evs).futures[id] == Flushed ==> Run(evs[..n]).accepted <= Run(evs).written)
  {
    var before, s := Run(evs[..n]), Run(evs);
    var id := |before.futures|;
    assert evs[..n + 1][..n] == evs[..n];
    assert Run(evs[..n + 1]) == CallFlush(before);
    RunKeeps(evs[..n]);
    RunLater(evs, n + 1);
    RunLater(evs, n);
    assert s.marks[id] == CallFlush(before).marks[id] == |before.accepted|;
    RunKeeps(evs);
    assert FutureOk(s, id);
  }

  // ---------------------------------------------------------------- closing drains

  /** Nothing but further stops comes after a stop. */
  predicate StopsLast(q: seq<Entry>) { forall i, j :: 0 <= i < j < |q| && q[i] == Stop ==> q[j] == Stop }

  lemma {:induction false} NoMessages(q: seq<Entry>)
    requires forall i :: 0 <= i < |q| ==> q[i] == Stop
    ensures Messages(q) == []
  {
    if |q| == 0 {
    } else {
      NoMessages(q[1..]);
    }
  }

  /** With no failure and no cancelled writer, closing loses nothing. */
  predicate Drains(s: State) {
    && StopsLast(s.queue)
    && (!s.failure && s.writer == Done ==> s.written == s.accepted && forall e :: e in s.queue ==> e == Stop)
  }

  lemma NextDrains(s: State, e: Event)
    requires Inv(s) && Drains(s) && !e.Cancel?
    ensures Drains(Next(s, e))
  {
    if e.Takes? && s.writer == Idle && s.queue != [] && s.queue[0] == Stop {
      forall i | 0 <= i < |s.queue| ensures s.queue[i] == Stop {
        assert i > 0 ==> s.queue[0] == Stop && s.queue[i] == Stop;
      }
      NoMessages(s.queue);
    }
  }

  lemma {:induction false} CleanCloseWritesAll(evs: seq<Event>)
    requires Cancel !in evs
    ensures Drains(Run(evs))
  {
    if |evs| == 0 {
    } else {
      var init := evs[..|evs| - 1];
      CleanCloseWritesAll(init);
      RunKeeps(init);
      NextDrains(Run(init), evs[|evs| - 1]);
    }
  }

  // ---------------------------------------------------------------- peaks

  /** The most messages, and the most bytes, ever pending in a run. */
  function MostMsgs(evs: seq<Event>): int {
    if |evs| == 0 then 0 else Max(MostMsgs(evs[..|evs| - 1]), Run(evs).pendingMsgs)
  }

  function MostBytes(evs: seq<Event>): int {
    if |evs| == 0 then 0 else Max(MostBytes(evs[..|evs| - 1]), Run(evs).pendingBytes)
  }

  lemma NextPending(s: State, e: Event)
    requires Inv(s)
    ensures var s1 := Next(s, e);
            && (s1.pendingMsgs > s.pendingMsgs || s1.pendingBytes > s.pendingBytes ==> e.Sends? && !Refuses(s))
            && (!(e.Sends? && !Refuses(s)) ==> s1.peakMsgs == s.peakMsgs && s1.peakBytes == s.peakBytes)
  {
  }

  lemma {:induction false} PeaksAreExact(evs: seq<Event>)
    ensures var s := Run(evs);
            && s.peakMsgs == MostMsgs(evs) >= s.pendingMsgs && s.peakBytes == MostBytes(evs) >= s.pendingBytes
  {
    if |evs| == 0 {
    } else {
      var init := evs[..|evs| - 1];
      PeaksAreExact(init);
      RunKeeps(init);
      NextPending(Run(init), evs[|evs| - 1]);
    }
  }
}
