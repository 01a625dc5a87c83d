/** The audio buffer of an ElevenLabs STT session (`speech/elevenlabs/stt.py`): 16-bit PCM
    waiting to be sent, edited by other tasks while a chunk is in flight. */
module SttBuffer {
  import opened Common

  const MIN_CHUNK_BYTES := 3200
  const MAX_CHUNK_BYTES := 32000
  const CAP := 64000

  /** A chunk, with its place in all PCM produced so far. */
  datatype Chunk = Chunk(pcm: seq<Byte>, commit: bool, at: nat)

  /** `Sending`: whoever holds the send lock is suspended in `ws.send`. */
  datatype Flight = Idle | Sending(chunk: Chunk)

  /** `produced`: all PCM appended so far. `sent`: the chunks whose send returned, on whatever
      connection. */
  datatype State = State(buf: seq<Byte>, flight: Flight, produced: seq<Byte>, sent: seq<Chunk>)

  const START := State([], Idle, [], [])

  function Min(a: nat, b: nat): nat { if a <= b then a else b }

  // ---------------------------------------------------------------- steps

  /** `send_audio` adds what the conversion made of a frame, whole samples always. */
  function Append(s: State, pcm: seq<Byte>): State {
    if |pcm| % 2 != 0 then s else s.(buf := s.buf + pcm, produced := s.produced + pcm)
  }

  /** `_trim_buffer` */
  function Trim(s: State): State {
    var excess := |s.buf| - CAP;
    if excess > 0 then s.(buf := s.buf[excess + excess % 2..]) else s
  }

  function Place(s: State): nat { if |s.buf| <= |s.produced| then |s.produced| - |s.buf| else 0 }

  /** One turn of the loop of `_send_buffer` up to its wait. */
  function StartChunk(s: State): State {
    if s.flight != Idle || |s.buf| < MIN_CHUNK_BYTES then s
    else s.(flight := Sending(Chunk(s.buf[..Min(|s.buf|, MAX_CHUNK_BYTES)], false, Place(s))))
  }

  /** `_send_commit` up to its wait. It follows `_send_buffer` without a suspension, so the
      buffer is short. */
  function StartCommit(s: State): State {
    if s.flight != Idle || |s.buf| >= MIN_CHUNK_BYTES then s
    else s.(flight := Sending(Chunk(s.buf, true, Place(s))), buf := [])
  }

  /** The send returns: a plain chunk's length is cut from the front of what the buffer is now. */
  function Succeed(s: State): State {
    if s.flight == Idle then s
    else
      var c := s.flight.chunk;
      s.(flight := Idle, sent := s.sent + [c],
         buf := if c.commit then s.buf else s.buf[Min(|c.pcm|, |s.buf|)..])
  }

  /** `Clear`: a refused or failed connection, or a degraded provider, empties the buffer.
      `Fail`: the send raises, or its task is cancelled. */
  datatype Event =
    | Appends(pcm: seq<Byte>) | Trims | Clear | StartsChunk | StartsCommit | Succeeds | Fail

  function Next(s: State, e: Event): State {
    match e
    case Appends(pcm) => Append(s, pcm)
    case Trims => Trim(s)
    case Clear => s.(buf := [])
    case StartsChunk => StartChunk(s)
    case StartsCommit => StartCommit(s)
    case Succeeds => Succeed(s)
    case Fail => s.(flight := Idle)
  }

  function Run(s: State, evs: seq<Event>): State {
    if |evs| == 0 then s else Next(Run(s, evs[..|evs| - 1]), evs[|evs| - 1])
  }

  // ---------------------------------------------------------------- the buffer as an object

  /** What other tasks do to the buffer while a send is suspended. */
  datatype Edit = Adds(pcm: seq<Byte>) | Cuts | Empties

  function Does(e: Edit): Event {
    match e
    case Adds(pcm) => Appends(pcm)
    case Cuts => Trims
    case Empties => Clear
  }

  /** One suspended send: what happens meanwhile, and whether it returns. */
  datatype Await = Await(edits: seq<Edit>, ok: bool)

  predicate Whole(edits: seq<Edit>) {
    forall i :: 0 <= i < |edits| && edits[i].Adds? ==> |edits[i].pcm| % 2 == 0
  }

  function Happens(edits: seq<Edit>): seq<Event> {
    seq(|edits|, i requires 0 <= i < |edits| => Does(edits[i]))
  }

  lemma RunSnoc(s: State, evs: seq<Event>, e: Event)
    ensures Run(s, evs + [e]) == Next(Run(s, evs), e)
  {
    assert (evs + [e])[..|evs|] == evs;
  }

  lemma {:induction false} RunSplit(s: State, evs: seq<Event>, more: seq<Event>)
    ensures Run(s, evs + more) == Run(Run(s, evs), more)
  {
    if |more| == 0 {
      assert evs + more == evs;
    } else {
      assert (evs + more)[..|evs + more| - 1] == evs + more[..|more| - 1];
      RunSplit(s, evs, more[..|more| - 1]);
    }
  }

  lemma HappensStep(s: State, edits: seq<Edit>, i: nat)
    requires i < |edits|
    ensures Run(s, Happens(edits[..i + 1])) == Next(Run(s, Happens(edits[..i])), Does(edits[i]))
  {
    assert Happens(edits[..i + 1]) == Happens(edits[..i]) + [Does(edits[i])];
    RunSnoc(s, Happens(edits[..i]), Does(edits[i]));
  }

  lemma {:induction false} FlightStays(s: State, evs: seq<Event>)
    requires forall e :: e in evs ==> e.Appends? || e.Trims? || e.Clear?
    ensures Run(s, evs).flight == s.flight
  {
    if |evs| == 0 {
    } else {
      FlightStays(s, evs[..|evs| - 1]);
    }
  }

  /** The events of one send. */
  function OfSend(start: Event, a: Await): seq<Event> {
    [start] + Happens(a.edits) + [if a.ok then Succeeds else Fail]
  }

  lemma OneSend(s: State, evs: seq<Event>, start: Event, a: Await)
    ensures Run(s, evs + OfSend(start, a))
         == Next(Run(Next(Run(s, evs), start), Happens(a.edits)), if a.ok then Succeeds else Fail)
  {
    var last := if a.ok then Succeeds else Fail;
    assert evs + OfSend(start, a) == ((evs + [start]) + Happens(a.edits)) + [last];
    RunSnoc(s, evs, start);
    RunSplit(s, evs + [start], Happens(a.edits));
    RunSnoc(s, (evs + [start]) + Happens(a.edits), last);
  }

  class ElevenLabsSttSession {
    var buf: seq<Byte>
    ghost var flight: Flight
    ghost var produced: seq<Byte>
    ghost var sent: seq<Chunk>

    ghost function Abs(): State
      reads this
    {
      State(buf, flight, produced, sent)
    }

    constructor ()
      ensures Abs() == START
    {
      buf, flight, produced, sent := [], Idle, [], [];
    }

    method AppendPcm(pcm: seq<Byte>)
      requires |pcm| % 2 == 0
      modifies this
      ensures Abs() == Append(old(Abs()), pcm)
    {
      buf := buf + pcm;
      produced := produced + pcm;
    }

    method TrimBuffer()
      modifies this`buf
      ensures Abs() == Trim(old(Abs()))
    {
      var excess := |buf| - CAP;
      if excess > 0 {
        buf := buf[excess + excess % 2..];
      }
    }

    method Suspend(edits: seq<Edit>)
      requires Whole(edits)
      modifies this
      ensures Abs() == Run(old(Abs()), Happens(edits))
    {
      for i := 0 to |edits|
        invariant Abs() == Run(old(Abs()), Happens(edits[..i]))
      {
        HappensStep(old(Abs()), edits, i);
        match edits[i]
        case Adds(pcm) => AppendPcm(pcm);
        case Cuts => TrimBuffer();
        case Empties => buf := [];
      }
      assert edits[..|edits|] == edits;
    }

    /** `_send_chunk`: true if the send returns. */
    method SendChunk(pcm: seq<Byte>, commit: bool, ghost at: nat, a: Await) returns (ok: bool)
      requires flight == Idle && Whole(a.edits)
      modifies this
      ensures ok == a.ok && flight == Idle
      ensures var c := Chunk(pcm, commit, at);
              var woken := Run(old(Abs()).(flight := Sending(c)), Happens(a.edits));
              woken.flight == Sending(c) && Abs() == woken.(flight := Idle, sent := woken.sent + if ok then [c] else [])
    {
      flight := Sending(Chunk(pcm, commit, at));
      FlightStays(Abs(), Happens(a.edits));
      Suspend(a.edits);
      ok := a.ok;
      sent := sent + if ok then [flight.chunk] else [];
      flight := Idle;
    }

    /** `_send_buffer`, under the send lock: one send after another until the buffer is short, a
        send raises, or `awaits` ends. */
    method SendBuffer(awaits: seq<Await>) returns (ghost evs: seq<Event>, raised: bool)
      requires flight == Idle
      requires forall a :: 0 <= a < |awaits| ==> Whole(awaits[a].edits)
      modifies this
      ensures flight == Idle && Abs() == Run(old(Abs()), evs)
      ensures raised || |buf| < MIN_CHUNK_BYTES || |evs| >= 2 * |awaits|
    {
      evs, raised := [], false;
      var a := 0;
      while |buf| >= MIN_CHUNK_BYTES && a < |awaits|
        invariant 0 <= a <= |awaits| && flight == Idle && Abs() == Run(old(Abs()), evs) && |evs| >= 2 * a
        decreases |awaits| - a
      {
        ghost var s := Abs();
        var n := Min(|buf|, MAX_CHUNK_BYTES);
        var ok := SendChunk(buf[..n], false, Place(s), awaits[a]);
        if !ok {
          OneSend(old(Abs()), evs, StartsChunk, awaits[a]);
          evs := evs + OfSend(StartsChunk, awaits[a]);
          return evs, true;
        }
        buf := buf[Min(n, |buf|)..];
        OneSend(old(Abs()), evs, StartsChunk, awaits[a]);
        evs := evs + OfSend(StartsChunk, awaits[a]);
        a := a + 1;
      }
    }

    /** `_send_commit`, right after `_send_buffer` has left the buffer short. */
    method SendCommit(a: Await) returns (ghost evs: seq<Event>, raised: bool)
      requires flight == Idle && Whole(a.edits) && |buf| < MIN_CHUNK_BYTES
      modifies this
      ensures flight == Idle && Abs() == Run(old(Abs()), evs) && raised == !a.ok
    {
      ghost var at := Place(Abs());
      var rest := buf;
      buf := [];
      var ok := SendChunk(rest, true, at, a);
      evs, raised := OfSend(StartsCommit, a), !ok;
      OneSend(old(Abs()), [], StartsCommit, a);
      assert [] + evs == evs;
    }
  }

  // ---------------------------------------------------------------- what every step keeps

  predicate ChunkOk(produced: seq<Byte>, c: Chunk) {
    && c.at + |c.pcm| <= |produced| && c.pcm == produced[c.at..c.at + |c.pcm|]
    && c.at % 2 == 0 && |c.pcm| % 2 == 0
    && (if c.commit then |c.pcm| < MIN_CHUNK_BYTES else MIN_CHUNK_BYTES <= |c.pcm| <= MAX_CHUNK_BYTES)
  }

  function EndOf(sent: seq<Chunk>): nat {
    if sent == [] then 0 else sent[|sent| - 1].at + |sent[|sent| - 1].pcm|
  }

  /** Each chunk starts where the previous one ended or later. */
  predicate Ordered(produced: seq<Byte>, sent: seq<Chunk>) {
    forall i :: 0 <= i < |sent| ==> ChunkOk(produced, sent[i]) && EndOf(sent[..i]) <= sent[i].at
  }

  /** The buffer is the end of what was produced. */
  predicate BufferOk(s: State) {
    && |s.buf| <= |s.produced| && s.buf == s.produced[Place(s)..] && |s.buf| % 2 == 0 && |s.produced| % 2 == 0
  }

  predicate FlightOk(s: State) {
    match s.flight
    case Idle => EndOf(s.sent) <= Place(s)
    case Sending(c) =>
      && ChunkOk(s.produced, c) && EndOf(s.sent) <= c.at
      && (if c.commit then c.at + |c.pcm| else c.at) <= Place(s)
  }

  predicate Inv(s: State) { BufferOk(s) && Ordered(s.produced, s.sent) && FlightOk(s) }

  lemma ChunkStays(produced: seq<Byte>, pcm: seq<Byte>, c: Chunk)
    requires ChunkOk(produced, c)
    ensures ChunkOk(produced + pcm, c)
  {
    assert (produced + pcm)[c.at..c.at + |c.pcm|] == produced[c.at..c.at + |c.pcm|];
  }

  lemma OrderedStays(produced: seq<Byte>, pcm: seq<Byte>, sent: seq<Chunk>)
    requires Ordered(produced, sent)
    ensures Ordered(produced + pcm, sent)
  {
    forall i | 0 <= i < |sent| ensures ChunkOk(produced + pcm, sent[i]) {
      ChunkStays(produced, pcm, sent[i]);
    }
  }

  lemma BufferGrows(s: State, pcm: seq<Byte>)
    requires BufferOk(s) && |pcm| % 2 == 0
    ensures BufferOk(Append(s, pcm)) && Place(Append(s, pcm)) == Place(s)
  {
    assert (s.produced + pcm)[Place(s)..] == s.produced[Place(s)..] + pcm;
  }

  lemma AppendKeeps(s: State, pcm: seq<Byte>)
    requires Inv(s) && |pcm| % 2 == 0
    ensures Inv(Append(s, pcm))
  {
    BufferGrows(s, pcm);
    OrderedStays(s.produced, pcm, s.sent);
    if s.flight != Idle { ChunkStays(s.produced, pcm, s.flight.chunk); }
  }

  /** Dropping an even number of bytes at the front. */
  lemma DropKeeps(s: State, n: nat)
    requires Inv(s) && n <= |s.buf| && n % 2 == 0
    ensures Inv(s.(buf := s.buf[n..]))
  {
    var s1 := s.(buf := s.buf[n..]);
    assert s.produced[Place(s)..][n..] == s.produced[Place(s1)..];
  }

  /** The first `n` bytes of the buffer, as a chunk. */
  lemma FrontIsChunk(s: State, n: nat, commit: bool)
    requires BufferOk(s) && n <= |s.buf| && n % 2 == 0
    requires if commit then n < MIN_CHUNK_BYTES else MIN_CHUNK_BYTES <= n <= MAX_CHUNK_BYTES
    ensures ChunkOk(s.produced, Chunk(s.buf[..n], commit, Place(s)))
  {
    assert s.produced[Place(s)..][..n] == s.produced[Place(s)..Place(s) + n];
  }

  lemma EmptyIsLatest(s: State)
    requires |s.produced| % 2 == 0 && s.buf == []
    ensures BufferOk(s) && Place(s) == |s.produced|
  {
    assert s.produced[|s.produced|..] == [];
  }

  lemma StartChunkKeeps(s: State)
    requires Inv(s) && s.flight == Idle && |s.buf| >= MIN_CHUNK_BYTES
    ensures Inv(StartChunk(s))
  {
    FrontIsChunk(s, Min(|s.buf|, MAX_CHUNK_BYTES), false);
  }

  lemma StartCommitKeeps(s: State)
    requires Inv(s) && s.flight == Idle && |s.buf| < MIN_CHUNK_BYTES
    ensures Inv(StartCommit(s))
  {
    FrontIsChunk(s, |s.buf|, true);
    assert s.buf[..|s.buf|] == s.buf;
    EmptyIsLatest(StartCommit(s));
  }

  lemma OrderedSnoc(produced: seq<Byte>, sent: seq<Chunk>, c: Chunk)
    requires Ordered(produced, sent) && ChunkOk(produced, c) && EndOf(sent) <= c.at
    ensures Ordered(produced, sent + [c]) && EndOf(sent + [c]) == c.at + |c.pcm|
  {
    var sent1 := sent + [c];
    forall i | 0 <= i < |sent1| ensures ChunkOk(produced, sent1[i]) && EndOf(sent1[..i]) <= sent1[i].at {
      assert sent1[..i] == sent[..i];
      assert sent[..|sent|] == sent;
    }
  }

  lemma SucceedKeeps(s: State)
    requires Inv(s) && s.flight != Idle
    ensures Inv(Succeed(s))
  {
    var c := s.flight.chunk;
    OrderedSnoc(s.produced, s.sent, c);
    if !c.commit {
      var n := Min(|c.pcm|, |s.buf|);
      DropKeeps(s, n);
    }
  }

  lemma TrimKeeps(s: State)
    requires Inv(s)
    ensures Inv(Trim(s))
  {
    var excess := |s.buf| - CAP;
    if excess > 0 { DropKeeps(s, excess + excess % 2); }
  }

  lemma ClearKeeps(s: State)
    requires Inv(s)
    ensures Inv(s.(buf := []))
  {
    EmptyIsLatest(s.(buf := []));
  }

  lemma NextKeeps(s: State, e: Event)
    requires Inv(s)
    ensures Inv(Next(s, e))
  {
    match e
    case Appends(pcm) => if |pcm| % 2 == 0 { AppendKeeps(s, pcm); }
    case Trims => TrimKeeps(s);
    case Clear => ClearKeeps(s);
    case StartsChunk => if s.flight == Idle && |s.buf| >= MIN_CHUNK_BYTES { StartChunkKeeps(s); }
    case StartsCommit => if s.flight == Idle && |s.buf| < MIN_CHUNK_BYTES { StartCommitKeeps(s); }
    case Succeeds => if s.flight != Idle { SucceedKeeps(s); }
    case Fail =>
  }

  lemma {:induction false} RunKeeps(evs: seq<Event>)
    ensures Inv(Run(START, evs))
  {
    if |evs| == 0 {
    } else {
      RunKeeps(evs[..|evs| - 1]);
      NextKeeps(Run(START, evs[..|evs| - 1]), evs[|evs| - 1]);
    }
  }

  // ---------------------------------------------------------------- main results

  lemma {:induction false} EndsBefore(produced: seq<Byte>, sent: seq<Chunk>, i: nat, j: nat)
    requires Ordered(produced, sent) && i < j < |sent|
    ensures sent[i].at + |sent[i].pcm| <= sent[j].at
  {
    assert EndOf(sent[..j]) <= sent[j].at;
    if i < j - 1 { EndsBefore(produced, sent, i, j - 1); }
  }

  /** Whatever is trimmed, cleared or appended while sends are in flight, and whichever of them
      fail: the PCM sent is an in-order, at-most-once selection of the PCM produced, on sample
      boundaries, in plain chunks of 3200 to 32000 bytes and commits of less. */
  lemma SentIsSelection(evs: seq<Event>)
    ensures var s := Run(START, evs);
            && (forall i :: 0 <= i < |s.sent| ==> ChunkOk(s.produced, s.sent[i]))
            && (forall i, j :: 0 <= i < j < |s.sent| ==> s.sent[i].at + |s.sent[i].pcm| <= s.sent[j].at)
  {
    RunKeeps(evs);
    var s := Run(START, evs);
    forall i, j | 0 <= i < j < |s.sent| ensures s.sent[i].at + |s.sent[i].pcm| <= s.sent[j].at {
      EndsBefore(s.produced, s.sent, i, j);
    }
  }

  /** The buffer always is the most recent PCM, and trimming keeps exactly the last 2 s of it. */
  lemma TrimKeepsLatest(evs: seq<Event>)
    ensures var s := Run(START, evs);
            && IsLatest(s.buf, s.produced)
            && IsLatest(Trim(s).buf, s.produced) && |Trim(s).buf| == Min(|s.buf|, CAP)
  {
    RunKeeps(evs);
    TrimIsLatest(Run(START, evs));
  }

  lemma TrimIsLatest(s: State)
    requires BufferOk(s)
    ensures IsLatest(s.buf, s.produced) && IsLatest(Trim(s).buf, s.produced) && |Trim(s).buf| == Min(|s.buf|, CAP)
  {
    var excess := |s.buf| - CAP;
    if excess > 0 {
      assert excess % 2 == 0;
      assert s.produced[Place(s)..][excess..] == s.produced[Place(s) + excess..];
    }
  }

  predicate IsLatest(buf: seq<Byte>, produced: seq<Byte>) {
    |buf| <= |produced| && buf == produced[|produced| - |buf|..]
  }

  // ---------------------------------------------------------------- when nothing is lost

  /** The event drops no audio: no clear, no trim past the cap, no failed commit. */
  predicate Careful(s: State, e: Event) {
    !e.Clear? && (e.Trims? ==> |s.buf| <= CAP) && (e.Fail? ==> s.flight == Idle || !s.flight.chunk.commit)
  }

  predicate AllCareful(evs: seq<Event>) {
    |evs| == 0
    || (AllCareful(evs[..|evs| - 1]) && Careful(Run(START, evs[..|evs| - 1]), evs[|evs| - 1]))
  }

  function Joined(sent: seq<Chunk>): seq<Byte> {
    if sent == [] then [] else Joined(sent[..|sent| - 1]) + sent[|sent| - 1].pcm
  }

  /** Audio sent, then a commit in flight, then the buffer. A plain chunk in flight is still the
      beginning of the buffer. */
  function Whereabouts(s: State): seq<Byte> {
    Joined(s.sent) + (if s.flight != Idle && s.flight.chunk.commit then s.flight.chunk.pcm else []) + s.buf
  }

  predicate Conserved(s: State) {
    && Whereabouts(s) == s.produced
    && (s.flight != Idle && !s.flight.chunk.commit ==> s.flight.chunk.pcm <= s.buf)
  }

  lemma AppendConserves(s: State, pcm: seq<Byte>)
    requires Conserved(s) && |pcm| % 2 == 0
    ensures Conserved(Append(s, pcm))
  {
    var s1 := Append(s, pcm);
    var before := Joined(s.sent) + if s.flight != Idle && s.flight.chunk.commit then s.flight.chunk.pcm else [];
    assert before + (s.buf + pcm) == (before + s.buf) + pcm;
    assert Whereabouts(s1) == before + (s.buf + pcm);
  }

  lemma JoinedSnoc(sent: seq<Chunk>, c: Chunk)
    ensures Joined(sent + [c]) == Joined(sent) + c.pcm
  {
    assert (sent + [c])[..|sent|] == sent;
  }

  lemma Rejoins(joined: seq<Byte>, pcm: seq<Byte>, buf: seq<Byte>)
    ensures (joined + pcm) + [] + buf == joined + pcm + buf
    ensures (joined + pcm) + [] + buf == joined + [] + (pcm + buf)
  {
  }

  lemma SucceedConserves(s: State)
    requires Conserved(s) && s.flight != Idle
    ensures Conserved(Succeed(s))
  {
    if s.flight.chunk.commit { CommitConserves(s); } else { ChunkConserves(s); }
  }

  lemma CommitConserves(s: State)
    requires Conserved(s) && s.flight != Idle && s.flight.chunk.commit
    ensures Conserved(Succeed(s))
  {
    JoinedSnoc(s.sent, s.flight.chunk);
    Rejoins(Joined(s.sent), s.flight.chunk.pcm, s.buf);
  }

  lemma ChunkConserves(s: State)
    requires Conserved(s) && s.flight != Idle && !s.flight.chunk.commit
    ensures Conserved(Succeed(s))
  {
    var pcm := s.flight.chunk.pcm;
    var rest := s.buf[|pcm|..];
    assert s.buf == pcm + rest;
    assert Succeed(s).buf == rest;
    JoinedSnoc(s.sent, s.flight.chunk);
    Rejoins(Joined(s.sent), pcm, rest);
  }

  lemma StartConserves(s: State, e: Event)
    requires Conserved(s) && (e.StartsChunk? || e.StartsCommit?)
    ensures Conserved(Next(s, e))
  {
    if e.StartsCommit? && s.flight == Idle {
      var joined := Joined(s.sent);
      assert joined + [] + s.buf == joined + s.buf + [];
    }
  }

  lemma NextConserves(s: State, e: Event)
    requires Conserved(s) && Careful(s, e)
    ensures Conserved(Next(s, e))
  {
    match e
    case Appends(pcm) => if |pcm| % 2 == 0 { AppendConserves(s, pcm); }
    case Succeeds => if s.flight != Idle { SucceedConserves(s); }
    case StartsChunk => StartConserves(s, e);
    case StartsCommit => StartConserves(s, e);
    case _ =>
  }

  /** While no event drops audio, not one byte is lost or repeated: what was sent, in order,
      followed by what waits, is what was produced, across failed sends and reconnections. */
  lemma {:induction false} NothingIsLost(evs: seq<Event>)
    requires AllCareful(evs)
    ensures Conserved(Run(START, evs))
  {
    if |evs| == 0 {
    } else {
      NothingIsLost(evs[..|evs| - 1]);
      NextConserves(Run(START, evs[..|evs| - 1]), evs[|evs| - 1]);
    }
  }
}
