/** The text side of an ElevenLabs TTS stream (`speech/elevenlabs/tts.py`): messages queued for
    the socket, written across at most one reopening. */
module TtsText {

  /** `Text`: a non-empty text. `FlushAll` and `EndOfInput` are the two messages of `end`. */
  datatype Msg = Text(text: string, flush: bool) | FlushAll | EndOfInput

  /** What goes over the wire: the opening message, keep-alives and queued messages. */
  datatype Wire = Init | KeepAlive | Queued(msg: Msg)

  /** `Connecting`: opening a socket. `Opening`: writing the opening message. `Writing`: in the
      write loop. `Reading`: waiting for the reader's verdict. */
  datatype Phase = Connecting | Opening | Writing | Reading | Over

  datatype Flight = Nothing | Sending(msg: Msg)

  datatype Stream = Stream(
    pending: seq<Msg>, flight: Flight, closed: bool, endRequested: bool, endSent: bool, reopened: bool,
    phase: Phase, queued: seq<Msg>, wire: seq<Wire>)

  const START := Stream([], Nothing, false, false, false, false, Connecting, [], [])

  // ---------------------------------------------------------------- steps

  /** `send_text_chunk` */
  function SendText(s: Stream, text: string, flush: bool): Stream {
    if s.closed || s.endRequested || text == "" then s
    else s.(pending := s.pending + [Text(text, flush)], queued := s.queued + [Text(text, flush)])
  }

  /** `end` */
  function End(s: Stream): Stream {
    if s.closed || s.endRequested then s
    else s.(endRequested := true, pending := s.pending + [FlushAll, EndOfInput],
            queued := s.queued + [FlushAll, EndOfInput])
  }

  /** `close`; a cancelled runner writes nothing more. */
  function Close(s: Stream): Stream {
    if s.closed then s else s.(closed := true, pending := [], phase := Over, flight := Nothing)
  }

  /** How a write ends. `Cut`: the connection is closed. `Raised`: any other exception. */
  datatype Result = Done | Cut | Raised

  function Opened(s: Stream, r: Result): Stream {
    if s.phase != Opening then s
    else match r
      case Done => s.(phase := Writing, wire := s.wire + [Init])
      case Cut => s.(phase := Reading)
      case Raised => s.(phase := Over)
  }

  /** The loop goes on: not in a write, and the end not written yet. */
  predicate Ready(s: Stream) { s.phase == Writing && s.flight == Nothing && !s.endSent }

  /** The next message leaves `_pending` for the socket. */
  function Take(s: Stream): Stream {
    if !Ready(s) || s.pending == [] then s
    else s.(flight := Sending(s.pending[0]), pending := s.pending[1..])
  }

  function Wrote(s: Stream, r: Result): Stream {
    if s.phase != Writing || s.flight == Nothing then s
    else
      var m := s.flight.msg;
      match r
      case Done => s.(flight := Nothing, wire := s.wire + [Queued(m)], endSent := m == EndOfInput)
      case Cut => s.(flight := Nothing, pending := [m] + s.pending, phase := Reading)
      case Raised => s.(flight := Nothing, phase := Over)
  }

  /** A keep-alive, with nothing pending when its wait began. */
  function Keep(s: Stream, r: Result): Stream {
    if !Ready(s) then s
    else match r
      case Done => s.(wire := s.wire + [KeepAlive])
      case Cut => s.(phase := Reading)
      case Raised => s.(phase := Over)
  }

  /** The write loop gives up: neither text nor `end` for too long. */
  function Expire(s: Stream): Stream {
    if !Ready(s) || s.endRequested then s else s.(closed := true, pending := [], phase := Over)
  }

  /** The reader's verdict: `other` if the socket closed before the audio ended, for no cause
      that forbids trying again. */
  function Verdict(s: Stream, other: bool): Stream {
    if s.phase != Reading then s
    else if !other || s.closed || s.endSent || s.reopened then s.(phase := Over)
    else s.(reopened := true, phase := Connecting)
  }

  /** `Stops`: the loop ends, because the reader is done or the end is written. */
  datatype Event =
    | Sends(text: string, flush: bool) | EndsInput | Closes | Connects(ok: bool) | Opens(r: Result)
    | Takes | Writes(r: Result) | Keeps(r: Result) | Expires | Stops | Verdicts(other: bool)

  function Next(s: Stream, e: Event): Stream {
    match e
    case Sends(text, flush) => SendText(s, text, flush)
    case EndsInput => End(s)
    case Closes => Close(s)
    case Connects(ok) => if s.phase == Connecting then s.(phase := if ok then Opening else Over) else s
    case Opens(r) => Opened(s, r)
    case Takes => Take(s)
    case Writes(r) => Wrote(s, r)
    case Keeps(r) => Keep(s, r)
    case Expires => Expire(s)
    case Stops => if s.phase == Writing && s.flight == Nothing then s.(phase := Reading) else s
    case Verdicts(other) => Verdict(s, other)
  }

  function Run(s: Stream, evs: seq<Event>): Stream {
    if |evs| == 0 then s else Next(Run(s, evs[..|evs| - 1]), evs[|evs| - 1])
  }

  // ---------------------------------------------------------------- the stream as an object

  class ElevenLabsTtsStream {
    var pending: seq<Msg>
    var closed: bool
    var endRequested: bool
    var endSent: bool
    var reopened: bool
    ghost var flight: Flight
    ghost var phase: Phase
    ghost var queued: seq<Msg>
    ghost var wire: seq<Wire>

    ghost function Abs(): Stream
      reads this
    {
      Stream(pending, flight, closed, endRequested, endSent, reopened, phase, queued, wire)
    }

    constructor ()
      ensures Abs() == START
    {
      pending, closed, endRequested, endSent, reopened := [], false, false, false, false;
      flight, phase, queued, wire := Nothing, Connecting, [], [];
    }

    method SendTextChunk(text: string, endsSentence: bool)
      modifies this`pending, this`queued
      ensures Abs() == SendText(old(Abs()), text, endsSentence)
    {
      if closed || endRequested || text == "" {
        return;
      }
      pending := pending + [Text(text, endsSentence)];
      queued := queued + [Text(text, endsSentence)];
    }

    method RequestEnd()
      modifies this`pending, this`queued, this`endRequested
      ensures Abs() == End(old(Abs()))
    {
      if closed || endRequested {
        return;
      }
      endRequested := true;
      pending := pending + [FlushAll];
      pending := pending + [EndOfInput];
      queued := queued + [FlushAll, EndOfInput];
    }

    /** One turn of the write loop with a message pending; `more` is sent by the turn meanwhile,
        each text with whether it ends a sentence. */
    method WriteNext(more: seq<(string, bool)>, r: Result) returns (ghost evs: seq<Event>)
      requires Ready(Abs()) && pending != []
      modifies this
      ensures Abs() == Run(old(Abs()), evs)
      ensures phase == (if r == Done then Writing else if r == Cut then Reading else Over)
    {
      ghost var s0 := Abs();
      var m := PopFirst();
      RunOne(s0, Takes);
      evs := SendMore(more, s0, [Takes]);
      RunSnoc(s0, evs, Writes(r));
      evs := evs + [Writes(r)];
      Settle(m, r);
    }

    method PopFirst() returns (m: Msg)
      requires Ready(Abs()) && pending != []
      modifies this`pending, this`flight
      ensures Abs() == Take(old(Abs())) && flight == Sending(m)
    {
      m := pending[0];
      pending := pending[1..];
      flight := Sending(m);
    }

    /** Texts sent while the runner is suspended. */
    method SendMore(more: seq<(string, bool)>, ghost s0: Stream, ghost past: seq<Event>) returns (ghost evs: seq<Event>)
      requires Abs() == Run(s0, past)
      modifies this`pending, this`queued
      ensures Abs() == Run(s0, evs)
    {
      evs := past;
      for i := 0 to |more|
        invariant Abs() == Run(s0, evs)
      {
        RunSnoc(s0, evs, Sends(more[i].0, more[i].1));
        SendTextChunk(more[i].0, more[i].1);
        evs := evs + [Sends(more[i].0, more[i].1)];
      }
    }

    method Settle(m: Msg, r: Result)
      requires phase == Writing && flight == Sending(m)
      modifies this
      ensures Abs() == Wrote(old(Abs()), r)
    {
      flight := Nothing;
      match r {
        case Done =>
          wire := wire + [Queued(m)];
          endSent := m == EndOfInput;
        case Cut =>
          pending := [m] + pending;
          phase := Reading;
        case Raised =>
          phase := Over;
      }
    }
  }

  lemma RunSnoc(s: Stream, evs: seq<Event>, e: Event)
    ensures Run(s, evs + [e]) == Next(Run(s, evs), e)
  {
    assert (evs + [e])[..|evs|] == evs;
  }

  lemma RunOne(s: Stream, e: Event)
    ensures Run(s, [e]) == Next(s, e)
  {
    assert [e][..0] == [];
  }

  // ---------------------------------------------------------------- what every step keeps

  /** The queued messages on the wire. */
  function Written(wire: seq<Wire>): seq<Msg> {
    if |wire| == 0 then []
    else Written(wire[..|wire| - 1]) + if wire[|wire| - 1].Queued? then [wire[|wire| - 1].msg] else []
  }

  function Openings(wire: seq<Wire>): nat {
    if |wire| == 0 then 0 else Openings(wire[..|wire| - 1]) + if wire[|wire| - 1] == Init then 1 else 0
  }

  function InFlight(s: Stream): seq<Msg> { if s.flight == Nothing then [] else [s.flight.msg] }

  /** Written, in flight and pending messages are those queued, until the stream is over. */
  predicate TextOk(s: Stream) {
    && Written(s.wire) <= s.queued
    && (s.phase != Over ==> !s.closed && Written(s.wire) + InFlight(s) + s.pending == s.queued)
    && (s.flight != Nothing ==> s.phase == Writing && !s.endSent)
  }

  /** The end of input is queued last, and only by `end`. */
  predicate EndOk(s: Stream) {
    && (forall i :: 0 <= i < |s.queued| && s.queued[i] == EndOfInput ==> i == |s.queued| - 1 && s.endRequested)
    && (s.endSent <==> Queued(EndOfInput) in s.wire) && (s.endSent ==> s.endRequested)
    && (s.endSent ==> s.wire[|s.wire| - 1] == Queued(EndOfInput) && Written(s.wire) == s.queued)
    && (s.endSent ==> s.phase == Writing || s.phase == Reading || s.phase == Over)
    && (forall i :: 0 <= i < |s.wire| - 1 ==> s.wire[i] != Queued(EndOfInput))
  }

  predicate OpensOk(s: Stream) {
    && Openings(s.wire) <= (if s.reopened then 2 else 1)
    && (s.phase == Connecting || s.phase == Opening ==> Openings(s.wire) <= if s.reopened then 1 else 0)
  }

  predicate Inv(s: Stream) { TextOk(s) && EndOk(s) && OpensOk(s) }

  lemma WireSnoc(wire: seq<Wire>, w: Wire)
    ensures Written(wire + [w]) == if w.Queued? then Written(wire) + [w.msg] else Written(wire)
    ensures Openings(wire + [w]) == Openings(wire) + if w == Init then 1 else 0
  {
    assert (wire + [w])[..|wire|] == wire;
  }

  lemma QueueKeeps(s: Stream, e: Event)
    requires Inv(s) && (e.Sends? || e.EndsInput?)
    ensures Inv(Next(s, e))
  {
    var s1 := Next(s, e);
    if s1 != s {
      var added := if e.Sends? then [Text(e.text, e.flush)] else [FlushAll, EndOfInput];
      if s.phase != Over {
        assert Written(s.wire) + InFlight(s) + (s.pending + added)
            == (Written(s.wire) + InFlight(s) + s.pending) + added;
      }
    }
  }

  lemma PutBack(written: seq<Msg>, m: Msg, pending: seq<Msg>)
    ensures written + [m] + pending == written + [] + ([m] + pending)
    ensures written + [m] + pending == (written + [m]) + [] + pending
  {
  }

  lemma DoneText(s: Stream)
    requires TextOk(s) && s.phase == Writing && s.flight != Nothing
    ensures TextOk(Wrote(s, Done))
    ensures |Written(s.wire)| < |s.queued| && s.queued[|Written(s.wire)|] == s.flight.msg
    ensures Written(Wrote(s, Done).wire) == Written(s.wire) + [s.flight.msg]
  {
    WireSnoc(s.wire, Queued(s.flight.msg));
    PutBack(Written(s.wire), s.flight.msg, s.pending);
  }

  lemma DoneEnds(s: Stream)
    requires EndOk(s) && s.flight != Nothing && s.phase == Writing && !s.endSent
    requires |Written(s.wire)| < |s.queued| && s.queued[|Written(s.wire)|] == s.flight.msg
    requires Written(Wrote(s, Done).wire) == Written(s.wire) + [s.flight.msg]
    requires Written(Wrote(s, Done).wire) <= s.queued
    ensures EndOk(Wrote(s, Done))
  {
  }

  lemma DoneKeeps(s: Stream)
    requires Inv(s) && s.phase == Writing && s.flight != Nothing
    ensures Inv(Wrote(s, Done))
  {
    DoneText(s);
    WireSnoc(s.wire, Queued(s.flight.msg));
    DoneEnds(s);
  }

  lemma WroteKeeps(s: Stream, r: Result)
    requires Inv(s) && s.phase == Writing && s.flight != Nothing
    ensures Inv(Wrote(s, r))
  {
    if r == Done { DoneKeeps(s); }
    if r == Cut { PutBack(Written(s.wire), s.flight.msg, s.pending); }
  }

  lemma TakeKeeps(s: Stream)
    requires Inv(s) && Ready(s) && s.pending != []
    ensures Inv(Take(s))
  {
    assert Written(s.wire) + [] + s.pending == Written(s.wire) + [s.pending[0]] + s.pending[1..];
  }

  lemma OpenedKeeps(s: Stream, r: Result)
    requires Inv(s) && s.phase == Opening
    ensures Inv(Opened(s, r))
  {
    if r == Done {
      WireSnoc(s.wire, Init);
      assert Opened(s, r).wire == s.wire + [Init];
    }
  }

  lemma KeepKeeps(s: Stream, r: Result)
    requires Inv(s) && Ready(s)
    ensures Inv(Keep(s, r))
  {
    if r == Done {
      WireSnoc(s.wire, KeepAlive);
      assert Keep(s, r).wire == s.wire + [KeepAlive];
    }
  }

  lemma ControlKeeps(s: Stream, e: Event)
    requires Inv(s) && (e.Closes? || e.Connects? || e.Expires? || e.Stops? || e.Verdicts?)
    ensures Inv(Next(s, e))
  {
  }

  lemma NextKeeps(s: Stream, e: Event)
    requires Inv(s)
    ensures Inv(Next(s, e))
  {
    match e
    case Sends(_, _) => QueueKeeps(s, e);
    case EndsInput => QueueKeeps(s, e);
    case Opens(r) => if s.phase == Opening { OpenedKeeps(s, r); }
    case Keeps(r) => if Ready(s) { KeepKeeps(s, r); }
    case Takes => if Ready(s) && s.pending != [] { TakeKeeps(s); }
    case Writes(r) => if s.phase == Writing && s.flight != Nothing { WroteKeeps(s, r); }
    case _ => ControlKeeps(s, e);
  }

  lemma {:induction false} RunKeeps(evs: seq<Event>)
    ensures Inv(Run(START, evs))
  {
    if |evs| == 0 {
    } else {
      RunKeeps(evs[..|evs| - 1]);
      NextKeeps(Run(START, evs[..|evs| - 1]), evs[|evs| - 1]);
    }
  }

  // ---------------------------------------------------------------- main results

  /** Across the one reopening: the messages written are a prefix of those queued, each once
      and in order, and none is missing in between while the stream is not over. */
  lemma WrittenIsPrefix(evs: seq<Event>)
    ensures var s := Run(START, evs);
            && Written(s.wire) <= s.queued && Openings(s.wire) <= 2
            && (s.phase != Over ==> Written(s.wire) + InFlight(s) + s.pending == s.queued)
  {
    RunKeeps(evs);
  }

  /** Nothing of any kind follows the end of input on the wire, and before it went everything
      that was ever queued. */
  lemma NothingAfterEnd(evs: seq<Event>, i: nat)
    requires var s := Run(START, evs); i < |s.wire| && s.wire[i] == Queued(EndOfInput)
    ensures var s := Run(START, evs); i == |s.wire| - 1 && Written(s.wire) == s.queued
  {
    RunKeeps(evs);
  }
}
