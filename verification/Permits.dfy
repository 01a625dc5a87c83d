/** Connection permits of the speech providers: upstreams of STT sessions
    (`elevenlabs/stt.py`) and TTS streams (`elevenlabs/tts.py`). */
module Permits {

  /** `Fresh`: its lifecycle task is created and has not begun. `Ended`: it is over, its done-callback
      is not. */
  datatype Phase = Fresh | Running | Ended

  datatype Upstream = Upstream(session: nat, permit: bool, phase: Phase, cancelled: bool)

  /** `conn`: each session's `_conn`. `shut`: sessions closed or with a degraded provider.
      `returned`: whose permit was given back, in order. */
  datatype State = State(
    free: nat, ups: map<nat, Upstream>, conn: map<nat, nat>, shut: set<nat>, next: nat, returned: seq<nat>)

  function Start(limit: nat): State { State(limit, map[], map[], {}, 0, []) }

  // ---------------------------------------------------------------- steps

  /** `_ensure_upstream`, atomic from its checks to the claim. */
  function Ensure(s: State, session: nat): State {
    if session in s.conn || session in s.shut || s.free == 0 then s
    else s.(free := s.free - 1, ups := s.ups[s.next := Upstream(session, true, Fresh, false)],
            conn := s.conn[session := s.next], next := s.next + 1)
  }

  /** `_release_permit` */
  function Release(s: State, u: nat): State {
    if u in s.ups && s.ups[u].permit
    then s.(free := s.free + 1, ups := s.ups[u := s.ups[u].(permit := false)], returned := s.returned + [u])
    else s
  }

  /** The last step of `_life_main`: its `finally` after closing the socket. */
  function EndBody(s: State, u: nat): State {
    if u !in s.ups || s.ups[u].phase != Running then s
    else
      var session := s.ups[u].session;
      var s1 := if session in s.conn && s.conn[session] == u then s.(conn := s.conn - {session}) else s;
      var s2 := Release(s1, u);
      s2.(ups := s2.ups[u := s2.ups[u].(phase := Ended)])
  }

  /** `Cancels`: a closing session or a degraded provider cancels it. `Dies`: the
      cancellation lands before it begins, or inside its `finally`, whose rest is then
      skipped. `Callback`: the done-callback. */
  datatype Event =
    | Ensures(session: nat) | Begins(u: nat) | Cancels(u: nat) | Ends(u: nat) | Dies(u: nat) | Callback(u: nat)

  function Next(s: State, e: Event): State {
    match e
    case Ensures(session) => Ensure(s, session)
    case Begins(u) =>
      if u in s.ups && s.ups[u].phase == Fresh && !s.ups[u].cancelled
      then s.(ups := s.ups[u := s.ups[u].(phase := Running)]) else s
    case Cancels(u) =>
      if u in s.ups
      then s.(ups := s.ups[u := s.ups[u].(cancelled := true)], shut := s.shut + {s.ups[u].session}) else s
    case Ends(u) => EndBody(s, u)
    case Dies(u) =>
      if u in s.ups && s.ups[u].cancelled && s.ups[u].phase != Ended
      then s.(ups := s.ups[u := s.ups[u].(phase := Ended)]) else s
    case Callback(u) =>
      if u in s.ups && s.ups[u].phase == Ended then var s1 := Release(s, u); s1.(ups := s1.ups - {u}) else s
  }

  function Run(limit: nat, evs: seq<Event>): State {
    if |evs| == 0 then Start(limit) else Next(Run(limit, evs[..|evs| - 1]), evs[|evs| - 1])
  }

  // ---------------------------------------------------------------- the same as objects

  class SttPool {
    var free: nat
    var ups: map<nat, Upstream>
    var conn: map<nat, nat>
    var shut: set<nat>
    var next: nat
    ghost var returned: seq<nat>

    ghost function Abs(): State
      reads this
    {
      State(free, ups, conn, shut, next, returned)
    }

    constructor (limit: nat)
      ensures Abs() == Start(limit)
    {
      free, ups, conn, shut, next, returned := limit, map[], map[], {}, 0, [];
    }

    method EnsureUpstream(session: nat)
      modifies this
      ensures Abs() == Ensure(old(Abs()), session)
    {
      if session in conn || session in shut {
        return;
      }
      if free == 0 {
        return;
      }
      free := free - 1;
      ups := ups[next := Upstream(session, true, Fresh, false)];
      conn := conn[session := next];
      next := next + 1;
    }

    method ReleasePermit(u: nat)
      requires u in ups
      modifies this`free, this`ups, this`returned
      ensures Abs() == Release(old(Abs()), u) && u in ups && !ups[u].permit && ups[u].phase == old(ups[u].phase)
    {
      if ups[u].permit {
        ups := ups[u := ups[u].(permit := false)];
        free := free + 1;
        returned := returned + [u];
      }
    }

    method FinishLife(u: nat)
      requires u in ups && ups[u].phase == Running
      modifies this
      ensures Abs() == EndBody(old(Abs()), u)
    {
      var session := ups[u].session;
      if session in conn && conn[session] == u {
        conn := conn - {session};
      }
      ReleasePermit(u);
      ups := ups[u := ups[u].(phase := Ended)];
    }
  }

  // ---------------------------------------------------------------- conservation

  /** The upstreams that hold a permit. */
  function Holders(ups: map<nat, Upstream>): set<nat> { set u | u in ups && ups[u].permit }

  predicate Conserved(s: State, limit: nat) { s.free + |Holders(s.ups)| == limit }

  predicate NoRepeats(r: seq<nat>) { forall i, j :: 0 <= i < j < |r| ==> r[i] != r[j] }

  /** An upstream's permit was returned exactly if it holds none, and only once. */
  ghost predicate ReturnedOk(s: State) {
    && NoRepeats(s.returned)
    && forall u: nat :: u in s.returned <==> u < s.next && !(u in s.ups && s.ups[u].permit)
  }

  predicate Unfinished(s: State, u: nat) { u in s.ups && s.ups[u].phase != Ended }

  /** An unfinished upstream is its session's connection. */
  predicate UpOk(s: State, u: nat)
    requires u in s.ups
  {
    && u < s.next && (s.ups[u].cancelled ==> s.ups[u].session in s.shut)
    && (s.ups[u].phase != Ended ==>
          s.ups[u].permit && s.ups[u].session in s.conn && s.conn[s.ups[u].session] == u)
  }

  /** A session that is not shut refers to an unfinished upstream, or to none. */
  predicate ConnOk(s: State, session: nat)
    requires session in s.conn
  {
    session !in s.shut ==> Unfinished(s, s.conn[session]) && s.ups[s.conn[session]].session == session
  }

  ghost predicate Inv(s: State, limit: nat) {
    && Conserved(s, limit) && ReturnedOk(s)
    && (forall u :: u in s.ups ==> UpOk(s, u))
    && (forall session :: session in s.conn ==> ConnOk(s, session))
  }

  lemma HoldersChange(ups: map<nat, Upstream>, u: nat, up: Upstream)
    ensures Holders(ups[u := up]) == if up.permit then Holders(ups) + {u} else Holders(ups) - {u}
    ensures u in Holders(ups) <==> u in ups && ups[u].permit
  {
  }

  lemma EnsureKeeps(s: State, session: nat, limit: nat)
    requires Inv(s, limit)
    ensures Inv(Ensure(s, session), limit)
  {
    HoldersChange(s.ups, s.next, Upstream(session, true, Fresh, false));
    assert s.next in s.ups ==> UpOk(s, s.next);
    var s1 := Ensure(s, session);
    forall x | x in s1.conn ensures ConnOk(s1, x) {
      if x in s.conn { assert ConnOk(s, x); }
    }
    forall u | u in s1.ups ensures UpOk(s1, u) {
      if u in s.ups { assert UpOk(s, u); }
    }
  }

  lemma ReleaseCounts(s: State, u: nat, limit: nat)
    requires Conserved(s, limit) && ReturnedOk(s) && u in s.ups && u < s.next
    ensures Conserved(Release(s, u), limit) && ReturnedOk(Release(s, u))
  {
    HoldersChange(s.ups, u, s.ups[u].(permit := false));
  }

  lemma EndKeeps(s: State, u: nat, limit: nat)
    requires Inv(s, limit) && u in s.ups && s.ups[u].phase == Running
    ensures Inv(EndBody(s, u), limit)
  {
    assert UpOk(s, u);
    ReleaseCounts(s, u, limit);
    var s1 := EndBody(s, u);
    HoldersChange(Release(s, u).ups, u, s1.ups[u]);
    assert s1.free == Release(s, u).free && Holders(s1.ups) == Holders(Release(s, u).ups);
    forall x | x in s1.conn ensures ConnOk(s1, x) {
      assert ConnOk(s, x);
    }
    forall v | v in s1.ups ensures UpOk(s1, v) {
      assert UpOk(s, v);
    }
  }

  lemma CallbackKeeps(s: State, u: nat, limit: nat)
    requires Inv(s, limit) && u in s.ups && s.ups[u].phase == Ended
    ensures Inv(Next(s, Callback(u)), limit)
  {
    assert UpOk(s, u);
    ReleaseCounts(s, u, limit);
    var s1 := Next(s, Callback(u));
    HoldersChange(Release(s, u).ups, u, Release(s, u).ups[u]);
    assert Holders(s1.ups) == Holders(Release(s, u).ups);
    forall x | x in s1.conn ensures ConnOk(s1, x) {
      assert ConnOk(s, x);
    }
    forall v | v in s1.ups ensures UpOk(s1, v) {
      assert UpOk(s, v);
    }
  }

  /** A change of the phase or the cancelled flag leaves the permits as they are. */
  lemma MarkCounts(s: State, s1: State, u: nat, limit: nat)
    requires Conserved(s, limit) && ReturnedOk(s) && u in s.ups && u in s1.ups
    requires s1 == s.(ups := s.ups[u := s1.ups[u]], shut := s1.shut) && s1.ups[u].permit == s.ups[u].permit
    ensures Conserved(s1, limit) && ReturnedOk(s1)
  {
    HoldersChange(s.ups, u, s1.ups[u]);
    assert Holders(s1.ups) == Holders(s.ups);
  }

  lemma MarkKeeps(s: State, e: Event, limit: nat)
    requires Inv(s, limit) && (e.Begins? || e.Cancels? || e.Dies?) && e.u in s.ups
    ensures Inv(Next(s, e), limit)
  {
    assert UpOk(s, e.u);
    var s1 := Next(s, e);
    MarkCounts(s, s1, e.u, limit);
    forall x | x in s1.conn ensures ConnOk(s1, x) {
      assert ConnOk(s, x);
    }
    forall v | v in s1.ups ensures UpOk(s1, v) {
      assert UpOk(s, v);
    }
  }

  lemma {:induction false} RunKeeps(limit: nat, evs: seq<Event>)
    ensures Inv(Run(limit, evs), limit)
  {
    if |evs| == 0 {
      assert Holders(map[]) == {};
    } else {
      var s, e := Run(limit, evs[..|evs| - 1]), evs[|evs| - 1];
      RunKeeps(limit, evs[..|evs| - 1]);
      match e
      case Ensures(session) => EnsureKeeps(s, session, limit);
      case Ends(u) => if u in s.ups && s.ups[u].phase == Running { EndKeeps(s, u, limit); }
      case Callback(u) => if u in s.ups && s.ups[u].phase == Ended { CallbackKeeps(s, u, limit); }
      case _ => if e.u in s.ups { MarkKeeps(s, e, limit); }
    }
  }

  // ---------------------------------------------------------------- main results

  /** In every reachable state, free permits and those of upstreams not yet over make up the
      limit, and an unfinished upstream always holds one. */
  lemma PermitsAreConserved(limit: nat, evs: seq<Event>, u: nat)
    ensures var s := Run(limit, evs);
            s.free + |Holders(s.ups)| == limit && (Unfinished(s, u) ==> u in Holders(s.ups))
  {
    RunKeeps(limit, evs);
    var s := Run(limit, evs);
    if u in s.ups { assert UpOk(s, u); }
  }

  /** Each permit taken is returned at most once, and has been returned exactly once when the
      done-callback is through, even if its upstream was cancelled before it began. */
  lemma EachReturnedOnce(limit: nat, evs: seq<Event>, u: nat)
    requires u < Run(limit, evs).next && u !in Run(limit, evs).ups
    ensures var r := Run(limit, evs).returned;
            NoRepeats(r) && u in r
  {
    RunKeeps(limit, evs);
  }

  /** A session never has two upstreams at once. */
  lemma OneUpstream(limit: nat, evs: seq<Event>, u: nat, v: nat)
    requires var s := Run(limit, evs);
             Unfinished(s, u) && Unfinished(s, v) && s.ups[u].session == s.ups[v].session
    ensures u == v
  {
    RunKeeps(limit, evs);
    var s := Run(limit, evs);
    assert UpOk(s, u) && UpOk(s, v);
  }

  /** An open session is never stuck on a dead connection: it has an unfinished upstream of its
      own, or is free to open one. */
  lemma SessionNotStuck(limit: nat, evs: seq<Event>, session: nat)
    requires session !in Run(limit, evs).shut
    ensures var s := Run(limit, evs);
            if session in s.conn then Unfinished(s, s.conn[session]) && s.ups[s.conn[session]].session == session
            else s.free > 0 ==> Unfinished(Ensure(s, session), s.next)
  {
    RunKeeps(limit, evs);
    var s := Run(limit, evs);
    if session in s.conn { assert ConnOk(s, session); }
  }

  // ---------------------------------------------------------------- TTS streams

  /** A stream's runner. `callback`: `_finished` is attached to it. */
  datatype Runner = Runner(phase: Phase, cancelled: bool, callback: bool)

  /** Where the constructor raises, if it does: before the runner exists, before the callback is
      attached to it, or after. */
  datatype Raise = Nowhere | BeforeRunner | BeforeCallback | AfterCallback

  /** `runners`: those not yet over, callback included. `failed`: streams whose constructor raised,
      for which `connect` gave the permit back. */
  datatype Streams = Streams(free: int, runners: map<nat, Runner>, failed: set<nat>, next: nat, returned: seq<nat>)

  function StartStreams(limit: nat): Streams { Streams(limit, map[], {}, 0, []) }

  /** `_sem.release()`, on behalf of stream `id`. */
  function GiveBack(s: Streams, id: nat): Streams { s.(free := s.free + 1, returned := s.returned + [id]) }

  /** The constructor of stream `id`, up to where it raises. */
  function Construct(s: Streams, id: nat, at: Raise): Streams {
    if at == BeforeRunner then s else s.(runners := s.runners[id := Runner(Fresh, false, at != BeforeCallback)])
  }

  /** `connect`, past its checks: one permit is taken, and given back if the constructor raises. */
  function ConnectStream(s: Streams, at: Raise): Streams {
    if s.free <= 0 then s
    else
      var s1 := Construct(s.(free := s.free - 1, next := s.next + 1), s.next, at);
      if at == Nowhere then s1 else GiveBack(s1, s.next).(failed := s1.failed + {s.next})
  }

  /** The done-callbacks of a runner that is over: `_finished`, if attached, gives the permit back. */
  function RunnerOver(s: Streams, id: nat): Streams {
    if !(id in s.runners && s.runners[id].phase == Ended) then s
    else
      var s1 := s.(runners := s.runners - {id});
      if s.runners[id].callback then GiveBack(s1, id) else s1
  }

  /** `Ended` comes by itself, or by a cancellation, also one that lands before the runner began. */
  datatype StreamEvent =
    | Connects(at: Raise) | StreamBegins(id: nat) | StreamCancels(id: nat) | StreamEnds(id: nat) | CallsBack(id: nat)

  function NextStream(s: Streams, e: StreamEvent): Streams {
    match e
    case Connects(at) => ConnectStream(s, at)
    case StreamBegins(id) =>
      if id in s.runners && s.runners[id].phase == Fresh && !s.runners[id].cancelled
      then s.(runners := s.runners[id := s.runners[id].(phase := Running)]) else s
    case StreamCancels(id) =>
      if id in s.runners then s.(runners := s.runners[id := s.runners[id].(cancelled := true)]) else s
    case StreamEnds(id) =>
      if id in s.runners && (s.runners[id].phase == Running || s.runners[id].cancelled)
      then s.(runners := s.runners[id := s.runners[id].(phase := Ended)]) else s
    case CallsBack(id) => RunnerOver(s, id)
  }

  function RunStreams(limit: nat, evs: seq<StreamEvent>): Streams {
    if |evs| == 0 then StartStreams(limit)
    else NextStream(RunStreams(limit, evs[..|evs| - 1]), evs[|evs| - 1])
  }

  /** Streams whose permit is out: built, and the callback still to come. */
  function Out(s: Streams): set<nat> { set id | id in s.runners && s.runners[id].callback && id !in s.failed }

  /** How often the permit of `id` has to have come back by now. */
  function Due(s: Streams, id: nat): nat { if id < s.next && id !in Out(s) then 1 else 0 }

  /** No constructor raises with the callback attached. */
  predicate NoneLate(evs: seq<StreamEvent>) { forall i :: 0 <= i < |evs| ==> evs[i] != Connects(AfterCallback) }

  /** The permits that came back are the due ones. */
  ghost predicate ReturnedDue(s: Streams) { forall id: nat :: multiset(s.returned)[id] == Due(s, id) }

  ghost predicate StreamsOk(s: Streams, limit: nat) {
    && s.free + |Out(s)| == limit
    && (forall id :: id in s.runners ==> id < s.next && (id in s.failed ==> !s.runners[id].callback))
    && (forall id :: id in s.failed ==> id < s.next)
    && ReturnedDue(s)
  }

  lemma ReturnedSnoc(returned: seq<nat>, id: nat, x: nat)
    ensures multiset(returned + [id])[x] == multiset(returned)[x] + if x == id then 1 else 0
  {
  }

  lemma ConnectDue(s: Streams, at: Raise, limit: nat, id: nat)
    requires StreamsOk(s, limit) && s.free > 0 && at != AfterCallback
    ensures Due(ConnectStream(s, at), id) == Due(s, id) + if id == s.next && at != Nowhere then 1 else 0
  {
    assert s.next !in s.runners && s.next !in s.failed;
  }

  lemma ConnectReturns(s: Streams, at: Raise, limit: nat)
    requires StreamsOk(s, limit) && s.free > 0 && at != AfterCallback
    ensures ReturnedDue(ConnectStream(s, at))
  {
    var s1 := ConnectStream(s, at);
    forall id: nat ensures multiset(s1.returned)[id] == Due(s1, id) {
      ConnectDue(s, at, limit, id);
      ReturnedSnoc(s.returned, s.next, id);
      assert multiset(s.returned)[id] == Due(s, id);
    }
  }

  lemma ConnectCounts(s: Streams, at: Raise, limit: nat)
    requires StreamsOk(s, limit) && s.free > 0 && at != AfterCallback
    ensures var s1 := ConnectStream(s, at); s1.free + |Out(s1)| == limit
  {
    assert s.next !in s.runners && s.next !in s.failed;
    if at == Nowhere {
      assert Out(ConnectStream(s, at)) == Out(s) + {s.next};
    } else {
      assert Out(ConnectStream(s, at)) == Out(s);
    }
  }

  lemma ConnectKeeps(s: Streams, at: Raise, limit: nat)
    requires StreamsOk(s, limit) && s.free > 0 && at != AfterCallback
    ensures StreamsOk(ConnectStream(s, at), limit)
  {
    ConnectReturns(s, at, limit);
    ConnectCounts(s, at, limit);
  }

  lemma OverReturns(s: Streams, id: nat, limit: nat)
    requires StreamsOk(s, limit) && id in s.runners && s.runners[id].phase == Ended
    ensures ReturnedDue(RunnerOver(s, id))
  {
    var s1 := RunnerOver(s, id);
    forall x: nat ensures multiset(s1.returned)[x] == Due(s1, x) {
      ReturnedSnoc(s.returned, id, x);
      assert multiset(s.returned)[x] == Due(s, x);
    }
  }

  lemma OverKeeps(s: Streams, id: nat, limit: nat)
    requires StreamsOk(s, limit) && id in s.runners && s.runners[id].phase == Ended
    ensures StreamsOk(RunnerOver(s, id), limit)
  {
    OverReturns(s, id, limit);
    assert Out(RunnerOver(s, id)) == Out(s) - {id};
  }

  lemma RunnerKeeps(s: Streams, e: StreamEvent, limit: nat)
    requires StreamsOk(s, limit) && (e.StreamBegins? || e.StreamCancels? || e.StreamEnds?)
    ensures StreamsOk(NextStream(s, e), limit)
  {
    assert Out(NextStream(s, e)) == Out(s);
  }

  lemma {:induction false} RunStreamsKeeps(limit: nat, evs: seq<StreamEvent>)
    requires NoneLate(evs)
    ensures StreamsOk(RunStreams(limit, evs), limit)
  {
    if |evs| == 0 {
      assert Out(StartStreams(limit)) == {};
    } else {
      var s, e := RunStreams(limit, evs[..|evs| - 1]), evs[|evs| - 1];
      RunStreamsKeeps(limit, evs[..|evs| - 1]);
      match e
      case Connects(at) => if s.free > 0 { ConnectKeeps(s, at, limit); }
      case CallsBack(id) => if id in s.runners && s.runners[id].phase == Ended { OverKeeps(s, id, limit); }
      case _ => RunnerKeeps(s, e, limit);
    }
  }

  /** The same for TTS, over its two release sites: free permits and those out make up the limit,
      and each permit comes back exactly once, from `connect` if the constructor raised and from
      the done-callback otherwise, even if the runner was cancelled before it began. It holds for
      every constructor that does nothing that can raise once the callback is attached. */
  lemma StreamsAreConserved(limit: nat, evs: seq<StreamEvent>, id: nat)
    requires NoneLate(evs)
    ensures var s := RunStreams(limit, evs);
            && s.free + |Out(s)| == limit
            && multiset(s.returned)[id] == if id < s.next && id !in Out(s) then 1 else 0
  {
    RunStreamsKeeps(limit, evs);
  }

  /** The condition is needed: a constructor that raised with its callback attached would have its
      permit given back twice. */
  lemma LateRaiseReturnsTwice(limit: nat)
    requires limit > 0
    ensures var s := RunStreams(limit, [Connects(AfterCallback), StreamCancels(0), StreamEnds(0), CallsBack(0)]);
            s.free == limit + 1 && s.returned == [0, 0]
  {
    var evs := [Connects(AfterCallback), StreamCancels(0), StreamEnds(0), CallsBack(0)];
    StreamsSnoc(limit, [], Connects(AfterCallback));
    StreamsSnoc(limit, evs[..1], StreamCancels(0));
    StreamsSnoc(limit, evs[..2], StreamEnds(0));
    StreamsSnoc(limit, evs[..3], CallsBack(0));
    assert [] + [Connects(AfterCallback)] == evs[..1] && evs[..1] + [StreamCancels(0)] == evs[..2];
    assert evs[..2] + [StreamEnds(0)] == evs[..3] && evs[..3] + [CallsBack(0)] == evs;
    var s1 := RunStreams(limit, evs[..1]);
    assert s1.free == limit && s1.returned == [0] && s1.runners == map[0 := Runner(Fresh, false, true)];
    assert RunStreams(limit, evs[..3]).runners == map[0 := Runner(Ended, true, true)];
  }

  lemma StreamsSnoc(limit: nat, evs: seq<StreamEvent>, e: StreamEvent)
    ensures RunStreams(limit, evs + [e]) == NextStream(RunStreams(limit, evs), e)
  {
    assert (evs + [e])[..|evs|] == evs;
  }
}
