/** One client session (`JotaBridge`) as a transition system.

    The event loop runs one task at a time and switches only where a coroutine suspends, so a
    step of the model is the code between two suspension points of one task. Any number of
    callers of `_start_turn`, `_cancel_turn` and `close_all` run as actors beside the turn
    task, the push worker and the audio tasks; a run is any sequence of enabled steps. */
module Bridge {
  import opened TurnFrames

  /** What a step hands to the client. */
  datatype Output = Silent | Sent(frame: Frame)

  /** The outcome of trying a step. */
  datatype Result<T> = Blocked | Ok(value: T)

  /** Task `_call_orchestrator`. */
  datatype TurnPhase = Created | Running(no: nat) | Over

  /** `wins` counts the `_cancel_turn` calls that returned True for this turn. */
  datatype Turn = Turn(phase: TurnPhase, cancelled: bool, audio: bool, wins: nat)

  /** Who asks for a cancel: a barge-in, a `cancel` message, a final transcription. */
  datatype Reason = BargeIn | CancelMessage | FinalTranscription

  /** Where a caller is suspended. */
  datatype Actor =
    | SendWaitLock
    | SendWaitTurn(turn: nat)
    | SendCutting(push: nat)
    | CancelWaitLock(turn: nat, no: Number, pushSeen: Number, reason: Reason)
    | CancelWaitTurn(turn: nat, no: Number, pushSeen: Number, reason: Reason)
    | CutWaitLock(push: nat, reason: Reason)
    | Cutting(push: nat, reason: Reason)
    | Interrupting(no: Number)
    | CloseWaitLock
    | CloseWaitTurn(turn: nat)
    | CloseWaitWorker
    | CloseWaitAudio
    | CloseWaitTts
    | CloseRest
    | Finished

  /** Where the push worker is suspended; `Ending` to `Recording` are `on_push_turn_end`. */
  datatype Worker =
    | NoWorker
    | AtQueue
    | WaitTurn
    | WaitLock
    | Connecting(push: nat)
    | Ending(push: nat)
    | Draining(push: nat, audio: Number)
    | ClosingTts(push: nat)
    | Recording(push: nat)

  /** The push turn and what serves it. */
  datatype Push = Push(
    open: bool,
    no: Number,    // _push_turn_id
    own: bool,          // _push_session_key is this session's own key
    tts: Number,   // push whose TTS stream is held
    audio: Number, // push whose audio task is held
    live: set<nat>      // pushes with an audio task neither done nor cancelled
  )

  /** The fields shared by all tasks of the session. */
  datatype Core = Core(
    out: Output,               // the frame the current step handed to the sender
    senderOpen: bool,          // a refusal by the sender is permanent
    closing: bool,
    closed: bool,
    turns: seq<Turn>,          // every turn task ever created
    active: Number,       // _active_turn
    activeNo: Number,     // _active_turn_id
    seqNo: nat,                // _turn_seq
    endedAtClose: Number, // _turn_end_sent_at_close
    push: Push,
    worker: Worker,
    workerCancelled: bool
  )

  /** `trace` holds the frames the sender accepted, in order. */
  datatype Session = Session(
    c: Core, turnLock: Number, closeLock: Number, actors: map<nat, Actor>, trace: seq<Frame>)

  function Initial(): Session {
    Session(Core(Silent, true, false, false, [], None, None, 0, None,
                 Push(false, None, false, None, None, {}), NoWorker, false),
            None, None, map[], [])
  }

  /** No step goes back: numbers only grow, `closing` stays, and then no turn is created. */
  predicate Forward(c: Core, c1: Core) {
    && c1.seqNo >= c.seqNo
    && (c.closing ==> c1.closing && |c1.turns| == |c.turns|)
  }

  /** The tasks of the session leave what only `close_all` and `_start_turn` set. */
  predicate TaskFrame(c: Core, c1: Core) {
    && c1.closing == c.closing && c1.closed == c.closed && c1.endedAtClose == c.endedAtClose
    && |c1.turns| == |c.turns| && c1.seqNo >= c.seqNo
  }

  predicate IsOver(c: Core, t: nat) { t < |c.turns| ==> c.turns[t].phase.Over? }

  /** `_active_turn is None or _active_turn.done()` */
  predicate NoTurn(c: Core) { c.active.Some? ==> IsOver(c, c.active.value) }

  function Emit(c: Core, f: Frame): Core {
    if c.senderOpen then c.(out := Sent(f)) else c
  }

  function SetTurn(c: Core, t: nat, u: Turn): Core
    requires t < |c.turns|
  {
    c.(turns := c.turns[t := u])
  }

  function CancelTask(c: Core, t: nat): Core
    requires t < |c.turns|
  {
    SetTurn(c, t, c.turns[t].(cancelled := true))
  }

  /** `_active_turn` is cleared only if it is still that task. */
  function Forget(c: Core, t: nat): Core {
    c.(active := if c.active == Some(t) then None else c.active)
  }

  /** `_close_push_turn` */
  function ClosePush(c: Core, p: nat): Core {
    if c.push.open && c.push.no == Some(p) then Emit(c.(push := c.push.(open := false)), TurnEnd(p)) else c
  }

  function Without(live: set<nat>, audio: Number): set<nat> {
    if audio.Some? then live - {audio.value} else live
  }

  /** `_drop_push_tts` up to its first suspension: the audio task is cancelled here. */
  function DropTts(c: Core): Core {
    if c.push.tts == None then c
    else c.(push := c.push.(tts := None, audio := None, live := Without(c.push.live, c.push.audio)))
  }

  /** Does `_cut_push` suspend before it closes the push? Closing a TTS and aborting the run
      on the session's own key do; otherwise it runs straight through. */
  predicate CutSuspends(c: Core) { c.push.tts.Some? || c.push.own }

  // ---------------------------------------------------------------- callers

  function Put(s: Session, c: Core, a: nat, p: Actor): Session { s.(c := c, actors := s.actors[a := p]) }

  /** The caller takes the turn lock and suspends at `p`. */
  function Lock(s: Session, c: Core, a: nat, p: Actor): Session { Put(s, c, a, p).(turnLock := Some(a)) }

  /** The caller gives the turn lock back and goes on at `p`. */
  function Unlock(s: Session, c: Core, a: nat, p: Actor): Session { Put(s, c, a, p).(turnLock := None) }

  // _start_turn

  function SendEnter(s: Session, a: nat): (r: Result<Session>)
    ensures r.Ok? ==> Forward(s.c, r.value.c)
  {
    if a in s.actors then Blocked
    else Ok(Put(s, s.c, a, if s.c.closing then Finished else SendWaitLock))
  }

  /** Last part of `_start_turn`, still inside the lock. */
  function CreateTurn(c: Core): Core {
    if c.closing then c
    else c.(turns := c.turns + [Turn(Created, false, false, 0)], active := Some(|c.turns|))
  }

  function SendCut(s: Session, c: Core, a: nat): Session {
    if c.push.open && c.push.no.Some? then
      if CutSuspends(c) then Lock(s, DropTts(c), a, SendCutting(c.push.no.value))
      else Unlock(s, CreateTurn(ClosePush(c, c.push.no.value)), a, Finished)
    else Unlock(s, CreateTurn(c), a, Finished)
  }

  function SendAcquire(s: Session, a: nat): (r: Result<Session>)
    ensures r.Ok? ==> Forward(s.c, r.value.c)
  {
    if !(a in s.actors && s.actors[a] == SendWaitLock && s.turnLock == None) then Blocked
    else if s.c.closing then Ok(Unlock(s, s.c, a, Finished))
    else if !NoTurn(s.c) then
      Ok(Lock(s, CancelTask(s.c, s.c.active.value), a, SendWaitTurn(s.c.active.value)))
    else Ok(SendCut(s, s.c, a))
  }

  /** `own`: the caller's own task was cancelled meanwhile, so `_cancel_and_wait` re-raises. */
  function SendTurnOver(s: Session, a: nat, own: bool): (r: Result<Session>)
    ensures r.Ok? ==> Forward(s.c, r.value.c)
  {
    if !(a in s.actors && s.actors[a].SendWaitTurn? && IsOver(s.c, s.actors[a].turn)) then Blocked
    else
      var c := Forget(s.c, s.actors[a].turn);
      Ok(if own then Unlock(s, c, a, Finished) else SendCut(s, c, a))
  }

  function SendCutDone(s: Session, a: nat): (r: Result<Session>)
    ensures r.Ok? ==> Forward(s.c, r.value.c)
  {
    if !(a in s.actors && s.actors[a].SendCutting?) then Blocked
    else Ok(Unlock(s, CreateTurn(ClosePush(s.c, s.actors[a].push)), a, Finished))
  }

  // _cancel_turn, and the cut of a push by a barge-in or a cancel message

  /** Where the caller goes once `_cancel_turn` returned `cancelled`. */
  function AfterCancel(cancelled: bool, no: Number, push: Number, reason: Reason): Actor {
    if reason == BargeIn && cancelled then Interrupting(no)
    else if reason != FinalTranscription && push.Some? then CutWaitLock(push.value, reason)
    else Finished
  }

  function CancelEnter(s: Session, a: nat, reason: Reason): (r: Result<Session>)
    ensures r.Ok? ==> Forward(s.c, r.value.c)
  {
    if a in s.actors then Blocked
    else
      var push := if s.c.push.open then s.c.push.no else None;
      Ok(Put(s, s.c, a,
               if NoTurn(s.c) then AfterCancel(false, None, push, reason)
               else CancelWaitLock(s.c.active.value, s.c.activeNo, push, reason)))
  }

  function CancelAcquire(s: Session, a: nat): (r: Result<Session>)
    ensures r.Ok? ==> Forward(s.c, r.value.c)
  {
    if !(a in s.actors && s.actors[a].CancelWaitLock? && s.turnLock == None) then Blocked
    else
      var w := s.actors[a];
      if IsOver(s.c, w.turn) then Ok(Unlock(s, s.c, a, AfterCancel(false, None, w.pushSeen, w.reason)))
      else Ok(Lock(s, CancelTask(s.c, w.turn), a, CancelWaitTurn(w.turn, w.no, w.pushSeen, w.reason)))
  }

  /** The cancelled turn is over: the call reports success, unless its own task was cancelled. */
  function CancelTurnOver(s: Session, a: nat, own: bool): (r: Result<Session>)
    ensures r.Ok? ==> Forward(s.c, r.value.c)
  {
    if !(a in s.actors && s.actors[a].CancelWaitTurn? && s.actors[a].turn < |s.c.turns|
         && IsOver(s.c, s.actors[a].turn)) then Blocked
    else
      var w := s.actors[a];
      var c := Forget(s.c, w.turn);
      if own then Ok(Unlock(s, c, a, Finished))
      else
        var won := SetTurn(c, w.turn, c.turns[w.turn].(wins := c.turns[w.turn].wins + 1));
        Ok(Unlock(s, won, a, AfterCancel(true, w.no, w.pushSeen, w.reason)))
  }

  function AfterCut(p: nat, reason: Reason): Actor {
    if reason == BargeIn then Interrupting(Some(p)) else Finished
  }

  function CutAcquire(s: Session, a: nat): (r: Result<Session>)
    ensures r.Ok? ==> Forward(s.c, r.value.c)
  {
    if !(a in s.actors && s.actors[a].CutWaitLock? && s.turnLock == None) then Blocked
    else
      var w := s.actors[a];
      if !(s.c.push.open && s.c.push.no == Some(w.push)) then Ok(Unlock(s, s.c, a, Finished))
      else if CutSuspends(s.c) then Ok(Lock(s, DropTts(s.c), a, Cutting(w.push, w.reason)))
      else Ok(Unlock(s, ClosePush(s.c, w.push), a, AfterCut(w.push, w.reason)))
  }

  function CutDone(s: Session, a: nat): (r: Result<Session>)
    ensures r.Ok? ==> Forward(s.c, r.value.c)
  {
    if !(a in s.actors && s.actors[a].Cutting?) then Blocked
    else Ok(Unlock(s, ClosePush(s.c, s.actors[a].push), a, AfterCut(s.actors[a].push, s.actors[a].reason)))
  }

  function InterruptSent(s: Session, a: nat): (r: Result<Session>)
    ensures r.Ok? ==> Forward(s.c, r.value.c)
  {
    if !(a in s.actors && s.actors[a].Interrupting?) then Blocked
    else Ok(Put(s, Emit(s.c, Interrupted(s.actors[a].no)), a, Finished))
  }

  /** Cancellation of a caller's own task, where it takes effect at once. */
  function ActorCancelled(s: Session, a: nat): (r: Result<Session>)
    ensures r.Ok? ==> Forward(s.c, r.value.c)
  {
    if a !in s.actors then Blocked
    else if s.actors[a].SendCutting? || s.actors[a].Cutting? then Ok(Unlock(s, s.c, a, Finished))
    else if s.actors[a].SendWaitLock? || s.actors[a].CancelWaitLock? || s.actors[a].CutWaitLock?
            || s.actors[a].CloseWaitLock? || s.actors[a].Interrupting? then Ok(Put(s, s.c, a, Finished))
    else Blocked
  }

  // close_all

  function CloseEnter(s: Session, a: nat): (r: Result<Session>)
    ensures r.Ok? ==> Forward(s.c, r.value.c)
  {
    if a in s.actors then Blocked else Ok(Put(s, s.c.(closing := true), a, CloseWaitLock))
  }

  function CancelWorker(c: Core): Core { c.(workerCancelled := c.workerCancelled || c.worker != NoWorker) }

  function CloseAcquire(s: Session, a: nat): (r: Result<Session>)
    ensures r.Ok? ==> Forward(s.c, r.value.c)
  {
    if !(a in s.actors && s.actors[a] == CloseWaitLock && s.closeLock == None) then Blocked
    else if s.c.closed then Ok(Put(s, s.c, a, Finished))
    else
      var s1 := s.(closeLock := Some(a));
      if NoTurn(s.c) then Ok(Put(s1, CancelWorker(s.c), a, CloseWaitWorker))
      else Ok(Put(s1, CancelTask(s.c, s.c.active.value), a, CloseWaitTurn(s.c.active.value)))
  }

  /** A turn abandoned at the limit gets its `turn_end` now. */
  function EndAbandoned(c: Core, t: nat): Core {
    if !IsOver(c, t) && c.activeNo.Some? then Emit(c.(endedAtClose := c.activeNo), TurnEnd(c.activeNo.value)) else c
  }

  /** The turn ended or the limit was reached. */
  function CloseTurnOver(s: Session, a: nat): (r: Result<Session>)
    ensures r.Ok? ==> Forward(s.c, r.value.c)
  {
    if !(a in s.actors && s.actors[a].CloseWaitTurn?) then Blocked
    else Ok(Put(s, CancelWorker(EndAbandoned(s.c, s.actors[a].turn)), a, CloseWaitWorker))
  }

  function CloseWorkerOver(s: Session, a: nat): (r: Result<Session>)
    ensures r.Ok? ==> Forward(s.c, r.value.c)
  {
    if !(a in s.actors && s.actors[a] == CloseWaitWorker) then Blocked
    else Ok(Put(s, s.c.(push := s.c.push.(live := Without(s.c.push.live, s.c.push.audio))), a, CloseWaitAudio))
  }

  function CloseAudioOver(s: Session, a: nat): (r: Result<Session>)
    ensures r.Ok? ==> Forward(s.c, r.value.c)
  {
    if !(a in s.actors && s.actors[a] == CloseWaitAudio) then Blocked else Ok(Put(s, s.c, a, CloseWaitTts))
  }

  function CloseTtsOver(s: Session, a: nat): (r: Result<Session>)
    ensures r.Ok? ==> Forward(s.c, r.value.c)
  {
    if !(a in s.actors && s.actors[a] == CloseWaitTts) then Blocked
    else
      var c := s.c.(push := s.c.push.(tts := None));
      Ok(Put(s, if c.push.no.Some? then ClosePush(c, c.push.no.value) else c, a, CloseRest))
  }

  function CloseEnd(s: Session, a: nat): (r: Result<Session>)
    ensures r.Ok? ==> Forward(s.c, r.value.c)
  {
    if !(a in s.actors && s.actors[a] == CloseRest) then Blocked
    else Ok(Put(s, s.c.(closed := true), a, Finished).(closeLock := None))
  }

  // ---------------------------------------------------------------- turn task

  /** First step of `_call_orchestrator`; a task cancelled before it never runs. */
  function TurnBegin(c: Core, t: nat): (r: Result<Core>)
    ensures r.Ok? ==> TaskFrame(c, r.value)
  {
    if !(t < |c.turns| && c.turns[t].phase.Created?) then Blocked
    else if c.turns[t].cancelled then Ok(SetTurn(c, t, c.turns[t].(phase := Over)))
    else
      var n := c.seqNo + 1;
      var c1 := c.(seqNo := n);
      if !c.senderOpen then Ok(SetTurn(c1, t, c.turns[t].(phase := Over)))
      else Ok(SetTurn(Emit(c1, TurnStart(n)), t, c.turns[t].(phase := Running(n))).(activeNo := Some(n)))
  }

  function TurnSays(c: Core, t: nat, tool: bool): (r: Result<Core>)
    ensures r.Ok? ==> TaskFrame(c, r.value)
  {
    if !(t < |c.turns| && c.turns[t].phase.Running? && !c.turns[t].cancelled) then Blocked
    else Ok(Emit(c, if tool then ToolCall(c.turns[t].phase.no) else Token(c.turns[t].phase.no)))
  }

  function TurnAudioStart(c: Core, t: nat): (r: Result<Core>)
    ensures r.Ok? ==> TaskFrame(c, r.value)
  {
    if !(t < |c.turns| && c.turns[t].phase.Running? && !c.turns[t].cancelled) then Blocked
    else Ok(SetTurn(c, t, c.turns[t].(audio := true)))
  }

  /** `pipe_audio` checks `_turn_end_sent_at_close` right before each frame. */
  function TurnAudioFrame(c: Core, t: nat): (r: Result<Core>)
    ensures r.Ok? ==> TaskFrame(c, r.value)
  {
    if !(t < |c.turns| && c.turns[t].phase.Running? && c.turns[t].audio
         && c.endedAtClose != Some(c.turns[t].phase.no)) then Blocked
    else Ok(Emit(c, Audio(c.turns[t].phase.no)))
  }

  function TurnAudioStop(c: Core, t: nat): (r: Result<Core>)
    ensures r.Ok? ==> TaskFrame(c, r.value)
  {
    if !(t < |c.turns|) then Blocked else Ok(SetTurn(c, t, c.turns[t].(audio := false)))
  }

  /** The `finally` of `_call_orchestrator`; the audio task was cancelled by `_run_turn`. */
  function TurnFinish(c: Core, t: nat): (r: Result<Core>)
    ensures r.Ok? ==> TaskFrame(c, r.value)
  {
    if !(t < |c.turns| && c.turns[t].phase.Running?) then Blocked
    else
      var n := c.turns[t].phase.no;
      var c1 := c.(activeNo := if c.activeNo == Some(n) then None else c.activeNo);
      var c2 := if c.endedAtClose == Some(n) then c1 else Emit(c1, TurnEnd(n));
      Ok(SetTurn(c2, t, c.turns[t].(phase := Over, audio := false)))
  }

  // ---------------------------------------------------------------- push worker

  /** `enqueue_push` creates the worker on demand, never once closing. */
  function WorkerSpawn(c: Core): (r: Result<Core>)
    ensures r.Ok? ==> TaskFrame(c, r.value)
  {
    if c.closing || c.worker != NoWorker then Blocked
    else Ok(c.(worker := AtQueue, workerCancelled := false))
  }

  predicate WorkerRuns(c: Core) { c.worker != NoWorker && !c.workerCancelled }

  /** A `turn_start` event was taken from the queue. */
  function WorkerTakeStart(c: Core): (r: Result<Core>)
    ensures r.Ok? ==> TaskFrame(c, r.value)
  {
    if !(WorkerRuns(c) && c.worker == AtQueue) then Blocked else Ok(c.(worker := WaitTurn))
  }

  function WorkerTurnOver(c: Core): (r: Result<Core>)
    ensures r.Ok? ==> TaskFrame(c, r.value)
  {
    if !(WorkerRuns(c) && c.worker == WaitTurn && NoTurn(c)) then Blocked else Ok(c.(worker := WaitLock))
  }

  /** Through the free turn lock, re-check the turn, then `on_push_turn_start` up to its connect.
      `enabled` is the client's push setting, `audio` its output mode. */
  function WorkerPassLock(c: Core, enabled: bool, own: bool, audio: bool): (r: Result<Core>)
    ensures r.Ok? ==> TaskFrame(c, r.value)
  {
    if !(WorkerRuns(c) && c.worker == WaitLock) then Blocked
    else if !NoTurn(c) then Ok(c.(worker := WaitTurn))
    else if !enabled || c.push.open then Ok(c.(worker := AtQueue))
    else
      var n := c.seqNo + 1;
      Ok(Emit(c.(seqNo := n, push := c.push.(no := Some(n), open := true, own := own),
                   worker := if audio then Connecting(n) else AtQueue), TurnStart(n)))
  }

  /** `tts.connect` returned; `got` is false for None. A push cut meanwhile keeps no TTS. */
  function WorkerConnected(c: Core, got: bool): (r: Result<Core>)
    ensures r.Ok? ==> TaskFrame(c, r.value)
  {
    if !(WorkerRuns(c) && c.worker.Connecting?) then Blocked
    else
      var p := c.worker.push;
      if got && c.push.open && c.push.no == Some(p)
      then Ok(c.(worker := AtQueue, push := c.push.(tts := Some(p), audio := Some(p), live := c.push.live + {p})))
      else Ok(c.(worker := AtQueue))
  }

  /** `deliver_push` and `deliver_push_tool_call` */
  function WorkerDelivers(c: Core, tool: bool): (r: Result<Core>)
    ensures r.Ok? ==> TaskFrame(c, r.value)
  {
    if !(WorkerRuns(c) && c.worker == AtQueue && c.push.open && c.push.no.Some?) then Blocked
    else Ok(Emit(c, if tool then ToolCall(c.push.no.value) else Token(c.push.no.value)))
  }

  /** A failed text write makes `deliver_push` abandon the TTS. */
  function WorkerDropsTts(c: Core): (r: Result<Core>)
    ensures r.Ok? ==> TaskFrame(c, r.value)
  {
    if !(WorkerRuns(c) && c.worker == AtQueue) then Blocked else Ok(DropTts(c))
  }

  function WorkerEnds(c: Core): (r: Result<Core>)
    ensures r.Ok? ==> TaskFrame(c, r.value)
  {
    if !(WorkerRuns(c) && c.worker == AtQueue && c.push.open && c.push.no.Some?) then Blocked
    else Ok(c.(worker := Ending(c.push.no.value)))
  }

  /** `tts.end()` returned, or failed and the TTS is dropped; the audio drain begins. */
  function WorkerDrains(c: Core, failed: bool): (r: Result<Core>)
    ensures r.Ok? ==> TaskFrame(c, r.value)
  {
    if !(WorkerRuns(c) && c.worker.Ending?) then Blocked
    else
      var c1 := if failed then DropTts(c) else c;
      Ok(c1.(worker := Draining(c.worker.push, if c1.push.tts.Some? then c1.push.audio else None)))
  }

  /** The audio task ended, or made no progress and was cancelled. */
  function WorkerDrained(c: Core): (r: Result<Core>)
    ensures r.Ok? ==> TaskFrame(c, r.value)
  {
    if !(WorkerRuns(c) && c.worker.Draining?) then Blocked
    else Ok(c.(push := c.push.(live := Without(c.push.live, c.worker.audio), audio := None),
               worker := ClosingTts(c.worker.push)))
  }

  function WorkerTtsClosed(c: Core): (r: Result<Core>)
    ensures r.Ok? ==> TaskFrame(c, r.value)
  {
    if !(WorkerRuns(c) && c.worker.ClosingTts?) then Blocked
    else Ok(c.(push := c.push.(tts := None), worker := Recording(c.worker.push)))
  }

  function WorkerEndDone(c: Core): (r: Result<Core>)
    ensures r.Ok? ==> TaskFrame(c, r.value)
  {
    if !(WorkerRuns(c) && c.worker.Recording?) then Blocked
    else Ok(ClosePush(c, c.worker.push).(worker := AtQueue))
  }

  /** A handler raised: the loop logs it and goes on. */
  function WorkerFails(c: Core): (r: Result<Core>)
    ensures r.Ok? ==> TaskFrame(c, r.value)
  {
    if !WorkerRuns(c) then Blocked else Ok(c.(worker := AtQueue))
  }

  /** The loop ends: closing was seen, or the cancellation arrived. */
  function WorkerLeaves(c: Core): (r: Result<Core>)
    ensures r.Ok? ==> TaskFrame(c, r.value)
  {
    if c.worker == NoWorker || !(c.workerCancelled || (c.closing && c.worker == AtQueue)) then Blocked
    else Ok(c.(worker := NoWorker, workerCancelled := false))
  }

  function PushAudioFrame(c: Core, p: nat): (r: Result<Core>)
    ensures r.Ok? ==> TaskFrame(c, r.value)
  {
    if p !in c.push.live then Blocked else Ok(Emit(c, PushAudio(p)))
  }

  function PushAudioDone(c: Core, p: nat): (r: Result<Core>)
    ensures r.Ok? ==> TaskFrame(c, r.value)
  {
    if p !in c.push.live then Blocked else Ok(c.(push := c.push.(live := c.push.live - {p})))
  }

  // ---------------------------------------------------------------- runs

  datatype TurnTask =
    | TBegin(t: nat) | TSays(t: nat, tool: bool) | TAudioStart(t: nat)
    | TAudioFrame(t: nat) | TAudioStop(t: nat) | TFinish(t: nat)

  function TurnStep(c: Core, e: TurnTask): (r: Result<Core>)
    ensures r.Ok? ==> TaskFrame(c, r.value)
  {
    match e
    case TBegin(t) => TurnBegin(c, t)
    case TSays(t, tool) => TurnSays(c, t, tool)
    case TAudioStart(t) => TurnAudioStart(c, t)
    case TAudioFrame(t) => TurnAudioFrame(c, t)
    case TAudioStop(t) => TurnAudioStop(c, t)
    case TFinish(t) => TurnFinish(c, t)
  }

  datatype WorkerTask =
    | WSpawn | WTakeStart | WTurnOver | WConnected(got: bool) | WDropsTts
    | WEnds | WDrains(failed: bool) | WDrained | WTtsClosed | WFails | WLeaves

  /** Worker steps that send nothing. */
  function WorkerStep(c: Core, e: WorkerTask): (r: Result<Core>)
    ensures r.Ok? ==> TaskFrame(c, r.value)
  {
    match e
    case WSpawn => WorkerSpawn(c)
    case WTakeStart => WorkerTakeStart(c)
    case WTurnOver => WorkerTurnOver(c)
    case WConnected(got) => WorkerConnected(c, got)
    case WDropsTts => WorkerDropsTts(c)
    case WEnds => WorkerEnds(c)
    case WDrains(failed) => WorkerDrains(c, failed)
    case WDrained => WorkerDrained(c)
    case WTtsClosed => WorkerTtsClosed(c)
    case WFails => WorkerFails(c)
    case WLeaves => WorkerLeaves(c)
  }

  /** Steps of the tasks the session itself runs. `SenderFails`: the socket failed or closed. */
  datatype Task =
    | OfTurn(turn: TurnTask)
    | OfWorker(work: WorkerTask)
    | WPassLock(enabled: bool, own: bool, audio: bool)
    | WDelivers(tool: bool)
    | WEndDone
    | AFrame(p: nat)
    | ADone(p: nat)
    | SenderFails

  function TaskStep(c: Core, e: Task): (r: Result<Core>)
    ensures r.Ok? ==> TaskFrame(c, r.value)
  {
    match e
    case OfTurn(turn) => TurnStep(c, turn)
    case OfWorker(work) => WorkerStep(c, work)
    case WPassLock(enabled, own, audio) => WorkerPassLock(c, enabled, own, audio)
    case WDelivers(tool) => WorkerDelivers(c, tool)
    case WEndDone => WorkerEndDone(c)
    case AFrame(p) => PushAudioFrame(c, p)
    case ADone(p) => PushAudioDone(c, p)
    case SenderFails => Ok(c.(senderOpen := false))
  }

  datatype Step =
    | Do(task: Task)
    | SSendEnter(a: nat) | SSendAcquire(a: nat) | SSendTurnOver(a: nat, own: bool) | SSendCutDone(a: nat)
    | SCancelEnter(a: nat, reason: Reason) | SCancelAcquire(a: nat) | SCancelTurnOver(a: nat, own: bool)
    | SCutAcquire(a: nat) | SCutDone(a: nat) | SInterruptSent(a: nat) | SActorCancelled(a: nat)
    | SCloseEnter(a: nat) | SCloseAcquire(a: nat) | SCloseTurnOver(a: nat) | SCloseWorkerOver(a: nat)
    | SCloseAudioOver(a: nat) | SCloseTtsOver(a: nat) | SCloseEnd(a: nat)

  /** The state after `e` but for the trace, or `Blocked` where `e` is not enabled. */
  function Move(s: Session, e: Step): (r: Result<Session>)
    ensures r.Ok? ==> Forward(s.c, r.value.c)
  {
    match e
    case Do(task) =>
      if task.WPassLock? && s.turnLock.Some? then Blocked
      else
        var c := TaskStep(s.c, task);
        if c.Blocked? then Blocked else Ok(s.(c := c.value))
    case SSendEnter(a) => SendEnter(s, a)
    case SSendAcquire(a) => SendAcquire(s, a)
    case SSendTurnOver(a, own) => SendTurnOver(s, a, own)
    case SSendCutDone(a) => SendCutDone(s, a)
    case SCancelEnter(a, reason) => CancelEnter(s, a, reason)
    case SCancelAcquire(a) => CancelAcquire(s, a)
    case SCancelTurnOver(a, own) => CancelTurnOver(s, a, own)
    case SCutAcquire(a) => CutAcquire(s, a)
    case SCutDone(a) => CutDone(s, a)
    case SInterruptSent(a) => InterruptSent(s, a)
    case SActorCancelled(a) => ActorCancelled(s, a)
    case SCloseEnter(a) => CloseEnter(s, a)
    case SCloseAcquire(a) => CloseAcquire(s, a)
    case SCloseTurnOver(a) => CloseTurnOver(s, a)
    case SCloseWorkerOver(a) => CloseWorkerOver(s, a)
    case SCloseAudioOver(a) => CloseAudioOver(s, a)
    case SCloseTtsOver(a) => CloseTtsOver(s, a)
    case SCloseEnd(a) => CloseEnd(s, a)
  }

  function Next(s: Session, e: Step): (r: Result<Session>)
    ensures r.Ok? ==> Forward(s.c, r.value.c)
  {
    var m := Move(s.(c := s.c.(out := Silent)), e);
    if m.Blocked? then Blocked
    else Ok(m.value.(trace := if m.value.c.out.Sent? then s.trace + [m.value.c.out.frame] else s.trace))
  }

  /** The state a run reaches, or `Blocked` if it is not a run. */
  function Exec(steps: seq<Step>): Result<Session> {
    if |steps| == 0 then Ok(Initial())
    else
      var before := Exec(steps[..|steps| - 1]);
      if before.Blocked? then Blocked else Next(before.value, steps[|steps| - 1])
  }

  /** `steps` is a run, and `s` the state it ends in. */
  predicate Reaches(steps: seq<Step>, s: Session) { Exec(steps) == Ok(s) }

  // The steps of the callers of `_start_turn`, of `close_all`, and of all others.

  predicate OfSend(e: Step) { e.SSendEnter? || e.SSendAcquire? || e.SSendTurnOver? || e.SSendCutDone? }

  predicate OfClose(e: Step) {
    e.SCloseEnter? || e.SCloseAcquire? || e.SCloseTurnOver? || e.SCloseWorkerOver? || e.SCloseAudioOver?
    || e.SCloseTtsOver? || e.SCloseEnd?
  }

  predicate OfCancel(e: Step) { !e.Do? && !OfSend(e) && !OfClose(e) }

  predicate OfActor(e: Step, a: nat) { !e.Do? && e.a == a }
}
