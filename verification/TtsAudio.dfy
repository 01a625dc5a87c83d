/** The audio side of an ElevenLabs TTS stream (`speech/elevenlabs/tts.py`): decoded audio is
    cut on sample boundaries into a bounded buffer. */
module TtsAudio {
  import opened Common

  const MAX_BUFFER_BYTES := 10485760

  /** The `audio` field: missing, empty or no string; a string that base64 rejects; or what it
      decodes to, possibly nothing. */
  datatype Audio = Absent | Undecodable | Decoded(bytes: seq<Byte>)

  datatype Message = Message(audio: Audio, isFinal: bool)

  /** `out`: chunks not read yet. `decoded`, `emitted`: all audio decoded and all chunks put
      so far, over every connection of the stream. `over`: reading ended for good. */
  datatype Stream = Stream(
    out: seq<seq<Byte>>, buffered: int, carry: seq<Byte>, overflowed: bool, over: bool,
    decoded: seq<Byte>, emitted: seq<seq<Byte>>)

  const START := Stream([], 0, [], false, false, [], [])

  // ---------------------------------------------------------------- steps

  /** What is kept back of `pcm`: its last byte, if it ends inside a sample. */
  function Rest(pcm: seq<Byte>): seq<Byte> { if |pcm| % 2 == 1 then pcm[|pcm| - 1..] else [] }

  function Cut(pcm: seq<Byte>): seq<Byte> { pcm[..|pcm| - |Rest(pcm)|] }

  /** One turn of the loop of `_read`. A message with an `audio` string that does not decode, or
      that leaves no whole sample, is skipped at once, its `isFinal` unread. */
  function Receive(s: Stream, m: Message): Stream {
    if s.over then s
    else match m.audio
      case Absent => s.(over := m.isFinal)
      case Undecodable => s
      case Decoded(bytes) =>
        var pcm := s.carry + bytes;
        var s1 := s.(carry := Rest(pcm), decoded := s.decoded + bytes);
        var chunk := Cut(pcm);
        if chunk == [] then s1
        else if s.buffered + |chunk| > MAX_BUFFER_BYTES then s1.(overflowed := true, over := true)
        else s1.(buffered := s.buffered + |chunk|, out := s.out + [chunk], emitted := s.emitted + [chunk],
                 over := m.isFinal)
  }

  /** The consumer takes one chunk. */
  function Take(s: Stream): Stream {
    if s.out == [] then s else s.(out := s.out[1..], buffered := s.buffered - |s.out[0]|)
  }

  datatype Event = Receives(m: Message) | Takes

  function Next(s: Stream, e: Event): Stream {
    match e
    case Receives(m) => Receive(s, m)
    case Takes => Take(s)
  }

  function Run(s: Stream, evs: seq<Event>): Stream {
    if |evs| == 0 then s else Next(Run(s, evs[..|evs| - 1]), evs[|evs| - 1])
  }

  // ---------------------------------------------------------------- the reader as the loop it is

  class AudioReader {
    var out: seq<seq<Byte>>
    var buffered: int
    var carry: seq<Byte>
    ghost var overflowed: bool
    var over: bool
    ghost var decoded: seq<Byte>
    ghost var emitted: seq<seq<Byte>>

    ghost function Abs(): Stream
      reads this
    {
      Stream(out, buffered, carry, overflowed, over, decoded, emitted)
    }

    constructor ()
      ensures Abs() == START
    {
      out, buffered, carry := [], 0, [];
      overflowed, over, decoded, emitted := false, false, [], [];
    }

    method TakeChunk()
      modifies this`out, this`buffered
      ensures Abs() == Take(old(Abs()))
    {
      if out != [] {
        buffered := buffered - |out[0]|;
        out := out[1..];
      }
    }

    /** Audio of one message; true if the reader goes on to look at `isFinal`. */
    method Emit(bytes: seq<Byte>) returns (goesOn: bool)
      requires !over
      modifies this
      ensures Abs() == Receive(old(Abs()), Message(Decoded(bytes), false))
      ensures goesOn <==> Cut(old(carry) + bytes) != [] && !over
    {
      var pcm := carry + bytes;
      decoded := decoded + bytes;
      carry := if |pcm| % 2 == 1 then pcm[|pcm| - 1..] else [];
      pcm := pcm[..|pcm| - |carry|];
      if pcm == [] {
        return false;
      }
      if buffered + |pcm| > MAX_BUFFER_BYTES {
        overflowed, over := true, true;
        return false;
      }
      buffered := buffered + |pcm|;
      out := out + [pcm];
      emitted := emitted + [pcm];
      return true;
    }

    /** One message; true if the reader stops here. */
    method Handle(m: Message) returns (stop: bool)
      requires !over
      modifies this
      ensures Abs() == Receive(old(Abs()), m) && stop == over
    {
      if m.audio == Undecodable {
        return false;
      }
      if m.audio.Decoded? {
        var goesOn := Emit(m.audio.bytes);
        if !goesOn {
          return over;
        }
      }
      if m.isFinal {
        over := true;
      }
      return over;
    }

    /** `_read` over the messages of one connection, the consumer taking some chunks before
        each of them. */
    method Read(msgs: seq<(nat, Message)>) returns (ghost evs: seq<Event>)
      requires !over
      modifies this
      ensures Abs() == Run(old(Abs()), evs)
    {
      evs := [];
      for i := 0 to |msgs|
        invariant !over && Abs() == Run(old(Abs()), evs)
      {
        for k := 0 to msgs[i].0
          invariant !over && Abs() == Run(old(Abs()), evs)
        {
          RunSnoc(old(Abs()), evs, Takes);
          TakeChunk();
          evs := evs + [Takes];
        }
        RunSnoc(old(Abs()), evs, Receives(msgs[i].1));
        var stop := Handle(msgs[i].1);
        evs := evs + [Receives(msgs[i].1)];
        if stop {
          return;
        }
      }
    }
  }

  lemma RunSnoc(s: Stream, evs: seq<Event>, e: Event)
    ensures Run(s, evs + [e]) == Next(Run(s, evs), e)
  {
    assert (evs + [e])[..|evs|] == evs;
  }

  // ---------------------------------------------------------------- what every step keeps

  function Sum(chunks: seq<seq<Byte>>): nat {
    if |chunks| == 0 then 0 else |chunks[0]| + Sum(chunks[1..])
  }

  predicate Even(chunks: seq<seq<Byte>>) {
    forall i :: 0 <= i < |chunks| ==> |chunks[i]| % 2 == 0 && chunks[i] != []
  }

  predicate QueueOk(out: seq<seq<Byte>>, emitted: seq<seq<Byte>>, buffered: int) {
    Even(emitted) && IsSuffix(out, emitted) && buffered == Sum(out) <= MAX_BUFFER_BYTES
  }

  predicate AudioOk(emitted: seq<Byte>, carry: seq<Byte>, decoded: seq<Byte>, overflowed: bool) {
    |carry| <= 1 && if overflowed then emitted <= decoded else emitted + carry == decoded
  }

  predicate Inv(s: Stream) {
    && QueueOk(s.out, s.emitted, s.buffered)
    && AudioOk(Concat(s.emitted), s.carry, s.decoded, s.overflowed)
    && (s.overflowed ==> s.over)
  }

  lemma {:induction false} SumSnoc(chunks: seq<seq<Byte>>, c: seq<Byte>)
    ensures Sum(chunks + [c]) == Sum(chunks) + |c|
  {
    if |chunks| == 0 {
      assert chunks + [c] == [c] && [c][1..] == [];
    } else {
      assert (chunks + [c])[1..] == chunks[1..] + [c];
      SumSnoc(chunks[1..], c);
    }
  }

  lemma CutIsWhole(pcm: seq<Byte>)
    ensures Cut(pcm) + Rest(pcm) == pcm && |Cut(pcm)| % 2 == 0 && |Rest(pcm)| <= 1
  {
  }

  lemma Rejoin(emitted: seq<Byte>, carry: seq<Byte>, audio: seq<Byte>, decoded: seq<Byte>)
    requires emitted + carry == decoded
    ensures var pcm := carry + audio;
            && (emitted + Cut(pcm)) + Rest(pcm) == decoded + audio
            && (Cut(pcm) == [] ==> emitted + Rest(pcm) == decoded + audio)
            && emitted <= decoded + audio && |Rest(pcm)| <= 1 && |Cut(pcm)| % 2 == 0
  {
    var pcm := carry + audio;
    CutIsWhole(pcm);
    assert decoded + audio == emitted + pcm;
    assert emitted + (Cut(pcm) + Rest(pcm)) == (emitted + Cut(pcm)) + Rest(pcm);
    assert emitted + [] == emitted;
  }

  lemma PutKeeps(out: seq<seq<Byte>>, emitted: seq<seq<Byte>>, buffered: int, c: seq<Byte>)
    requires QueueOk(out, emitted, buffered) && c != [] && |c| % 2 == 0 && buffered + |c| <= MAX_BUFFER_BYTES
    ensures QueueOk(out + [c], emitted + [c], buffered + |c|)
  {
    SumSnoc(out, c);
    assert (emitted + [c])[|emitted| - |out|..] == emitted[|emitted| - |out|..] + [c];
  }

  lemma ReceiveKeeps(s: Stream, m: Message)
    requires Inv(s) && !s.over && m.audio.Decoded?
    ensures Inv(Receive(s, m))
  {
    var chunk := Cut(s.carry + m.audio.bytes);
    Rejoin(Concat(s.emitted), s.carry, m.audio.bytes, s.decoded);
    if chunk != [] && s.buffered + |chunk| <= MAX_BUFFER_BYTES {
      ConcatSnoc(s.emitted, chunk);
      PutKeeps(s.out, s.emitted, s.buffered, chunk);
    }
  }

  lemma {:induction false} RunKeeps(evs: seq<Event>)
    ensures Inv(Run(START, evs))
  {
    if |evs| == 0 {
    } else {
      var s, e := Run(START, evs[..|evs| - 1]), evs[|evs| - 1];
      RunKeeps(evs[..|evs| - 1]);
      if e.Receives? && !s.over && e.m.audio.Decoded? {
        ReceiveKeeps(s, e.m);
      }
    }
  }

  // ---------------------------------------------------------------- main results

  /** Every chunk emitted is a whole number of samples; together with the byte carried over
      they are the decoded audio, or its beginning if the buffer overflowed. */
  lemma EmittedIsDecoded(evs: seq<Event>)
    ensures var s := Run(START, evs);
            && Even(s.emitted) && |s.carry| <= 1
            && (!s.overflowed ==> Concat(s.emitted) + s.carry == s.decoded)
            && (s.overflowed ==> Concat(s.emitted) <= s.decoded)
  {
    RunKeeps(evs);
  }

  /** The buffer counter is exact and bounded: it counts the chunks emitted and not read. */
  lemma BufferIsBounded(evs: seq<Event>)
    ensures var s := Run(START, evs);
            s.buffered == Sum(s.out) <= MAX_BUFFER_BYTES && IsSuffix(s.out, s.emitted)
  {
    RunKeeps(evs);
  }

  /** A final message ends the reading exactly when it has no `audio` string, or one that
      decodes and, with the byte carried over, completes a sample. */
  lemma FinalEndsReading(s: Stream, m: Message)
    requires !s.over && m.isFinal
    ensures Receive(s, m).over
            <==> m.audio == Absent || (m.audio.Decoded? && |s.carry + m.audio.bytes| >= 2)
  {
    if m.audio.Decoded? { CutIsWhole(s.carry + m.audio.bytes); }
  }

  /** Finals that do not: a lone byte, an empty decoding, and one that base64 rejects. The
      stream is then left reading, however much its consumer takes. */
  lemma {:induction false} FinalIsMissed(audio: Audio, takes: seq<Event>)
    requires audio in {Decoded([0]), Decoded([]), Undecodable} && forall e :: e in takes ==> e == Takes
    ensures !Run(START, [Receives(Message(audio, true))] + takes).over
  {
    var final := [Receives(Message(audio, true))];
    if |takes| == 0 {
      assert final + takes == [] + final;
      RunSnoc(START, [], Receives(Message(audio, true)));
      FinalEndsReading(START, Message(audio, true));
    } else {
      var init := takes[..|takes| - 1];
      assert takes[|takes| - 1] in takes && forall e :: e in init ==> e in takes;
      FinalIsMissed(audio, init);
      assert final + takes == (final + init) + [Takes];
      RunSnoc(START, final + init, Takes);
    }
  }
}
