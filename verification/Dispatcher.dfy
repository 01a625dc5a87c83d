/** Routing of incoming OpenClaw frames to a turn queue or to a push worker
    (`openclaw/dispatcher.py`). */
module Dispatcher {
  import opened Common
  import ChatText
  import opened TurnItems
  import opened TurnRegistry
  import opened TurnRouting

  datatype Phase = Starts | Ends | Fails | Results | Strange

  /** Incoming frames; a missing `sessionKey` is None. `Response` is a `res` frame. */
  datatype Frame =
    | Response(req: Req, rejected: bool)
    | ChatFrame(key: Option<Key>, ev: ChatText.Event)
    | AgentFrame(key: Option<Key>, phase: Phase)
    | ToolFrame(key: Option<Key>, phase: Phase, id: nat, readable: bool)
    | UnknownFrame

  /** What `enqueue_push` is called with. */
  datatype Push =
    | PushStart(key: Key)
    | PushEnd(key: Key)
    | PushChat(key: Key, ev: ChatText.Event)
    | PushTool(key: Key, id: nat)

  /** A payload goes to the turn owning its key; else, unless the key is tombstoned, to the
      push worker of the client, if it has a session. */
  function Route(r: Registry, bridged: bool, key: Key, item: Item, push: Push, now: real): (Registry, Option<Push>)
    requires key in r.sessions ==> r.sessions[key] in r.queues
  {
    var (r1, owned) := DeliverBySession(r, key, item, now);
    if owned then (r1, None)
    else
      var (r2, aborted) := IsAborted(r1, key, now);
      (r2, if aborted || !bridged then None else Some(push))
  }

  function Dispatch(r: Registry, bridged: bool, f: Frame, now: real): (Registry, Option<Push>)
    requires forall k :: k in r.sessions ==> r.sessions[k] in r.queues
  {
    match f
    case Response(id, rejected) => if rejected then (DeliverByReq(r, id, Rejected, now).0, None) else (r, None)
    case ChatFrame(key, ev) =>
      if key == None then (r, None) else Route(r, bridged, key.value, Chat(ev), PushChat(key.value, ev), now)
    case ToolFrame(key, phase, id, readable) =>
      if key == None || !(phase == Starts || phase == Results) then (r, None)
      else Route(r, bridged, key.value, Tool(id, readable), PushTool(key.value, id), now)
    case AgentFrame(key, phase) =>
      if key == None || !bridged then (r, None)
      else if phase == Starts then
        if key.value in r.sessions then (r, None)
        else
          var (r1, aborted) := IsAborted(r, key.value, now);
          (r1, if aborted then None else Some(PushStart(key.value)))
      else if phase == Ends || phase == Fails then (r, Some(PushEnd(key.value)))
      else (r, None)
    case UnknownFrame => (r, None)
  }

  class FrameDispatcher {
    const turns: TurnRegistry
    const clientOf: Key -> nat   // client_id_from_session_key
    var clients: set<nat>        // clients with a live session

    constructor (turns: TurnRegistry, clientOf: Key -> nat)
      ensures this.turns == turns && this.clientOf == clientOf && clients == {}
    {
      this.turns, this.clientOf, this.clients := turns, clientOf, {};
    }

    /** The client of the frame's key has a live session. */
    predicate Bridged(f: Frame)
      reads this
    {
      !f.Response? && !f.UnknownFrame? && f.key.Some? && clientOf(f.key.value) in clients
    }

    method Handle(f: Frame, now: real) returns (push: Option<Push>)
      requires turns.Valid()
      modifies turns
      ensures turns.Valid() && (turns.Abs(), push) == Dispatch(old(turns.Abs()), Bridged(f), f, now)
    {
      push := None;
      match f
      case Response(id, rejected) =>
        if rejected {
          var _ := turns.DeliverToReq(id, Rejected, now);
        }
      case ChatFrame(key, ev) =>
        if key.Some? {
          push := RoutePayload(key.value, Chat(ev), PushChat(key.value, ev), now);
        }
      case ToolFrame(key, phase, id, readable) =>
        if key.Some? && (phase == Starts || phase == Results) {
          push := RoutePayload(key.value, Tool(id, readable), PushTool(key.value, id), now);
        }
      case AgentFrame(key, phase) =>
        if key.None? || clientOf(key.value) !in clients {
          return;
        }
        if phase == Starts {
          if key.value in turns.sessions {
            return;
          }
          var aborted := turns.AskAborted(key.value, now);
          if aborted {
            return;
          }
          push := Some(PushStart(key.value));
        } else if phase == Ends || phase == Fails {
          push := Some(PushEnd(key.value));
        }
      case UnknownFrame =>
    }

    method RoutePayload(key: Key, item: Item, what: Push, now: real) returns (push: Option<Push>)
      requires turns.Valid()
      modifies turns
      ensures turns.Valid()
      ensures (turns.Abs(), push) == Route(old(turns.Abs()), clientOf(key) in clients, key, item, what, now)
    {
      var owned := turns.DeliverToSession(key, item, now);
      if owned {
        return None;
      }
      var aborted := turns.AskAborted(key, now);
      if aborted {
        return None;
      }
      push := if clientOf(key) in clients then Some(what) else None;
    }
  }

  // ---------------------------------------------------------------- what reaches the push worker

  /** A turn on `key` overflowed less than the tombstone period before `now`. */
  ghost predicate RecentOverflow(w: World, key: Key, now: real) {
    exists i :: 0 <= i < |w.overflows| && w.overflows[i].0 == key && w.overflows[i].1 + TOMBSTONE_S > now
  }

  /** The push event a frame would open or feed, before any suppression. */
  function Wanted(f: Frame): Option<Push> {
    match f
    case ChatFrame(Some(key), ev) => Some(PushChat(key, ev))
    case ToolFrame(Some(key), phase, id, _) =>
      if phase == Starts || phase == Results then Some(PushTool(key, id)) else None
    case AgentFrame(Some(key), phase) =>
      if phase == Starts then Some(PushStart(key))
      else if phase == Ends || phase == Fails then Some(PushEnd(key))
      else None
    case _ => None
  }

  /** In every run: a chat, tool or run-start frame reaches the push worker exactly when its
      client has a session, no turn owns its key and no turn on that key overflowed within
      the tombstone period; a run end always does, if the client has a session. */
  lemma PushedExactly(maxSize: int, ops: seq<Op>, w: World, bridged: bool, f: Frame, now: real)
    requires RunsTo(maxSize, ops, w) && now >= w.clock
    ensures Sound(w)
    ensures Dispatch(w.reg, bridged, f, now).1 ==
            if Wanted(f).Some? && bridged
               && (Wanted(f).value.PushEnd?
                   || (Wanted(f).value.key !in w.reg.sessions && !RecentOverflow(w, Wanted(f).value.key, now)))
            then Wanted(f) else None
  {
    RunInv(maxSize, ops);
    if Wanted(f).Some? {
      AbortedIsHistory(maxSize, ops, w, Wanted(f).value.key, now);
    }
  }

  /** The registry operations a frame amounts to. */
  function Effect(w: World, bridged: bool, f: Frame, now: real): seq<Op> {
    match f
    case Response(id, rejected) => if rejected then [ByReq(id, Rejected, now)] else []
    case ChatFrame(Some(key), ev) =>
      if key in w.reg.sessions then [BySession(key, Chat(ev), now)] else [Ask(key, now)]
    case ToolFrame(Some(key), phase, id, readable) =>
      if !(phase == Starts || phase == Results) then []
      else if key in w.reg.sessions then [BySession(key, Tool(id, readable), now)] else [Ask(key, now)]
    case AgentFrame(Some(key), phase) =>
      if bridged && phase == Starts && key !in w.reg.sessions then [Ask(key, now)] else []
    case _ => []
  }

  lemma EffectSteps(w: World, bridged: bool, f: Frame, now: real)
    requires Sound(w) && now >= w.clock
    ensures var more := Effect(w, bridged, f, now);
            if |more| == 0 then Dispatch(w.reg, bridged, f, now).0 == w.reg
            else |more| == 1 && Allowed(w, more[0]) && Step(w, more[0]).reg == Dispatch(w.reg, bridged, f, now).0
  {
    match f
    case Response(_, _) =>
    case ChatFrame(_, _) => ChatSteps(w, bridged, f, now);
    case ToolFrame(_, _, _, _) =>
    case _ =>
  }

  lemma ChatSteps(w: World, bridged: bool, f: Frame, now: real)
    requires Sound(w) && now >= w.clock && f.ChatFrame?
    ensures var more := Effect(w, bridged, f, now);
            if |more| == 0 then Dispatch(w.reg, bridged, f, now).0 == w.reg
            else |more| == 1 && Allowed(w, more[0]) && Step(w, more[0]).reg == Dispatch(w.reg, bridged, f, now).0
  {
  }

  lemma RunSnoc(maxSize: int, ops: seq<Op>, w: World, op: Op)
    requires RunsTo(maxSize, ops, w) && Sound(w) && Allowed(w, op)
    ensures Run(maxSize, ops + [op]) == Some(Step(w, op))
  {
    assert (ops + [op])[..|ops|] == ops;
  }

  /** Dispatching is one more step of a run, so the results about runs cover it. */
  lemma DispatchIsAStep(maxSize: int, ops: seq<Op>, w: World, bridged: bool, f: Frame, now: real)
    requires RunsTo(maxSize, ops, w) && now >= w.clock
    ensures Sound(w)
    ensures var more := Effect(w, bridged, f, now);
            Run(maxSize, ops + more).Some? && Run(maxSize, ops + more).value.reg == Dispatch(w.reg, bridged, f, now).0
  {
    RunInv(maxSize, ops);
    var more := Effect(w, bridged, f, now);
    EffectSteps(w, bridged, f, now);
    if |more| == 0 {
      assert ops + more == ops;
    } else {
      RunSnoc(maxSize, ops, w, more[0]);
      assert more == [more[0]];
    }
  }
}
