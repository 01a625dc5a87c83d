/** The session as an object: what its coroutines do to its fields between two suspensions is
    what the steps of the transition system say. */
module BridgeObject {
  import opened TurnFrames
  import opened Bridge
  import opened BridgeInvariant

  /** The state a run leads to from `s`, or `Blocked` if it is not a run. */
  function RunFrom(s: Session, steps: seq<Step>): Result<Session> {
    if |steps| == 0 then Ok(s)
    else
      var before := RunFrom(s, steps[..|steps| - 1]);
      if before.Blocked? then Blocked else Next(before.value, steps[|steps| - 1])
  }

  lemma RunFromSnoc(s: Session, steps: seq<Step>, s1: Session, e: Step)
    requires RunFrom(s, steps) == Ok(s1)
    ensures RunFrom(s, steps + [e]) == Next(s1, e)
  {
    assert (steps + [e])[..|steps|] == steps;
  }

  lemma {:induction false} RunFromSplit(s: Session, steps: seq<Step>, s1: Session, more: seq<Step>)
    requires RunFrom(s, steps) == Ok(s1)
    ensures RunFrom(s, steps + more) == RunFrom(s1, more)
  {
    if |more| == 0 {
      assert steps + more == steps;
    } else {
      assert (steps + more)[..|steps + more| - 1] == steps + more[..|more| - 1];
      RunFromSplit(s, steps, s1, more[..|more| - 1]);
    }
  }

  /** Such a run goes on from a run of the session, so what holds in every run holds after it. */
  lemma {:induction false} RunGoesOn(steps: seq<Step>, s: Session, more: seq<Step>, s1: Session)
    requires Reaches(steps, s) && RunFrom(s, more) == Ok(s1)
    ensures Reaches(steps + more, s1)
  {
    if |more| == 0 {
      assert steps + more == steps;
    } else {
      var s0 := RunFrom(s, more[..|more| - 1]).value;
      RunGoesOn(steps, s, more[..|more| - 1], s0);
      assert (steps + more)[..|steps + more| - 1] == steps + more[..|more| - 1];
    }
  }

  function Extended(trace: seq<Frame>, c: Core): seq<Frame> { if c.out.Sent? then trace + [c.out.frame] else trace }

  /** The session when caller `a` has cut push `p` and given the lock back. */
  function CutLeft(s: Session, a: nat, p: nat, reason: Reason): Session {
    var c := ClosePush(s.c.(out := Silent), p);
    Unlock(s, c, a, AfterCut(p, reason)).(trace := Extended(s.trace, c))
  }

  /** The session when caller `a` has the lock and has begun to cut, or is through. */
  function CutEntered(s: Session, a: nat): Session
    requires a in s.actors && s.actors[a].CutWaitLock?
  {
    var p, reason, c := s.actors[a].push, s.actors[a].reason, s.c.(out := Silent);
    if !(c.push.open && c.push.no == Some(p)) then Unlock(s, c, a, Finished)
    else if CutSuspends(c) then Lock(s, DropTts(c), a, Cutting(p, reason))
    else CutLeft(s, a, p, reason)
  }

  lemma AcquireIs(s: Session, a: nat)
    requires a in s.actors && s.actors[a].CutWaitLock? && s.turnLock == None
    ensures Next(s, SCutAcquire(a)) == Ok(CutEntered(s, a))
  {
  }

  lemma DoneIs(s: Session, a: nat)
    requires a in s.actors && s.actors[a].Cutting?
    ensures Next(s, SCutDone(a)) == Ok(CutLeft(s, a, s.actors[a].push, s.actors[a].reason))
  {
  }

  /** Caller `a` is suspended with the turn lock. */
  predicate Holding(actors: map<nat, Actor>, a: nat) { a in actors && (actors[a].Cutting? || actors[a].SendCutting?) }

  class JotaBridge {
    var senderOpen: bool
    var closing: bool
    var closed: bool
    var turns: seq<Turn>
    var activeTurn: Number
    var activeTurnId: Number
    var turnSeq: nat
    var turnEndSentAtClose: Number
    var push: Push
    var worker: Worker
    var workerCancelled: bool
    /** The frame handed to the sender by the running step. */
    var out: Output
    // The event loop's side: the two locks, where each caller is suspended, and what the client got.
    var turnLock: Number
    var closeLock: Number
    var actors: map<nat, Actor>
    var trace: seq<Frame>

    function Abs(): Core
      reads this
    {
      Core(out, senderOpen, closing, closed, turns, activeTurn, activeTurnId, turnSeq, turnEndSentAtClose,
           push, worker, workerCancelled)
    }

    function AsSession(): Session
      reads this
    {
      Session(Abs(), turnLock, closeLock, actors, trace)
    }

    constructor ()
      ensures AsSession() == Initial()
    {
      turnLock, closeLock, actors, trace := None, None, map[], [];
      senderOpen, closing, closed, turns := true, false, false, [];
      activeTurn, activeTurnId, turnSeq, turnEndSentAtClose := None, None, 0, None;
      push, worker, workerCancelled, out := Push(false, None, false, None, None, {}), NoWorker, false, Silent;
    }

    /** `send_json`, which never suspends; false where it raises. */
    method Send(f: Frame) returns (sent: bool)
      modifies this`out
      ensures Abs() == Emit(old(Abs()), f) && sent == senderOpen
    {
      if senderOpen {
        out := Sent(f);
      }
      return senderOpen;
    }

    /** The last part of `_start_turn`. */
    method CreateTask()
      modifies this`turns, this`activeTurn
      ensures Abs() == CreateTurn(old(Abs()))
    {
      if closing {
        return;
      }
      activeTurn := Some(|turns|);
      turns := turns + [Turn(Created, false, false, 0)];
    }

    /** `_call_orchestrator` up to its first suspension. */
    method BeginTurn(t: nat)
      requires TurnBegin(Abs(), t).Ok?
      modifies this
      ensures Ok(Abs()) == TurnBegin(old(Abs()), t)
    {
      if turns[t].cancelled {
        turns := turns[t := turns[t].(phase := Over)];
        return;
      }
      turnSeq := turnSeq + 1;
      var sent := Send(TurnStart(turnSeq));
      if !sent {
        turns := turns[t := turns[t].(phase := Over)];
        return;
      }
      turns := turns[t := turns[t].(phase := Running(turnSeq))];
      activeTurnId := Some(turnSeq);
    }

    /** The `finally` of `_call_orchestrator`. */
    method FinishTurn(t: nat)
      requires TurnFinish(Abs(), t).Ok?
      modifies this
      ensures Ok(Abs()) == TurnFinish(old(Abs()), t)
    {
      var no := turns[t].phase.no;
      if activeTurnId == Some(no) {
        activeTurnId := None;
      }
      if turnEndSentAtClose != Some(no) {
        var _ := Send(TurnEnd(no));
      }
      turns := turns[t := turns[t].(phase := Over, audio := false)];
    }

    /** `_close_push_turn`: flags drop before the frame goes out. */
    method ClosePushTurn(p: nat) returns (ended: bool)
      modifies this`push, this`out
      ensures Abs() == ClosePush(old(Abs()), p) && ended == (old(push.open) && old(push.no) == Some(p))
    {
      if !(push.open && push.no == Some(p)) {
        return false;
      }
      push := push.(open := false);
      var _ := Send(TurnEnd(p));
      return true;
    }

    /** `_drop_push_tts` up to its first suspension. */
    method DropPushTts()
      modifies this`push
      ensures Abs() == DropTts(old(Abs()))
    {
      if push.tts == None {
        return;
      }
      var audioTask := push.audio;
      push := push.(tts := None, audio := None);
      if audioTask.Some? {
        push := push.(live := push.live - {audioTask.value});
      }
    }

    /** The worker comes through the turn lock: `on_push_turn_start` up to its connect. */
    method OpenPush(enabled: bool, own: bool, audio: bool)
      requires WorkerPassLock(Abs(), enabled, own, audio).Ok?
      modifies this
      ensures Ok(Abs()) == WorkerPassLock(old(Abs()), enabled, own, audio)
    {
      if activeTurn.Some? && activeTurn.value < |turns| && !turns[activeTurn.value].phase.Over? {
        worker := WaitTurn;
        return;
      }
      if !enabled || push.open {
        worker := AtQueue;
        return;
      }
      turnSeq := turnSeq + 1;
      push := push.(no := Some(turnSeq), own := own, open := true);
      var _ := Send(TurnStart(turnSeq));
      worker := if audio then Connecting(turnSeq) else AtQueue;
    }

    /** The rest of `on_push_turn_start`, once `tts.connect` returned. */
    method PushConnected(got: bool)
      requires WorkerConnected(Abs(), got).Ok?
      modifies this`push, this`worker
      ensures Ok(Abs()) == WorkerConnected(old(Abs()), got)
    {
      var p := worker.push;
      worker := AtQueue;
      if got && push.open && push.no == Some(p) {
        push := push.(tts := Some(p), audio := Some(p), live := push.live + {p});
      }
    }

    /** `close_all` gives a turn abandoned at the limit its end. */
    method EndAbandonedTurn(t: nat)
      modifies this
      ensures Abs() == EndAbandoned(old(Abs()), t)
    {
      if t < |turns| && !turns[t].phase.Over? && activeTurnId.Some? {
        turnEndSentAtClose := activeTurnId;
        var _ := Send(TurnEnd(activeTurnId.value));
      }
    }

    // -------------------------------------------------------------- across suspensions

    method InstallTurns(c: Core)
      modifies this`turns, this`activeTurn, this`activeTurnId, this`turnSeq, this`turnEndSentAtClose
      ensures turns == c.turns && activeTurn == c.active && activeTurnId == c.activeNo
      ensures turnSeq == c.seqNo && turnEndSentAtClose == c.endedAtClose
    {
      turns, activeTurn, activeTurnId := c.turns, c.active, c.activeNo;
      turnSeq, turnEndSentAtClose := c.seqNo, c.endedAtClose;
    }

    method InstallPush(c: Core)
      modifies this`out, this`senderOpen, this`closing, this`closed, this`push, this`worker, this`workerCancelled
      ensures out == c.out && senderOpen == c.senderOpen && closing == c.closing && closed == c.closed
      ensures push == c.push && worker == c.worker && workerCancelled == c.workerCancelled
    {
      out, senderOpen, closing, closed := c.out, c.senderOpen, c.closing, c.closed;
      push, worker, workerCancelled := c.push, c.worker, c.workerCancelled;
    }

    method Install(s: Session)
      modifies this
      ensures AsSession() == s
    {
      InstallTurns(s.c);
      InstallPush(s.c);
      turnLock, closeLock, actors, trace := s.turnLock, s.closeLock, s.actors, s.trace;
    }

    /** Caller `a` is suspended: of `steps`, those of others that are enabled when their turn comes
        happen. */
    method Suspend(a: nat, steps: seq<Step>) returns (ghost happened: seq<Step>)
      requires a in actors
      modifies this
      ensures RunFrom(old(AsSession()), happened) == Ok(AsSession())
      ensures a in actors && actors[a] == old(actors[a])
    {
      ghost var s0 := AsSession();
      happened := [];
      for i := 0 to |steps|
        invariant RunFrom(s0, happened) == Ok(AsSession()) && a in actors && actors[a] == s0.actors[a]
      {
        var r := Next(AsSession(), steps[i]);
        if r.Ok? && !OfActor(steps[i], a) {
          RunFromSnoc(s0, happened, AsSession(), steps[i]);
          OthersMove(AsSession(), steps[i], a);
          Install(r.value);
          happened := happened + [steps[i]];
        }
      }
    }

    /** The push is cut off by a barge-in or a cancel message: `_cut_push` under the turn lock, with
        other steps happening while the caller waits for the lock (`before`) and while it waits for
        the TTS and the abort (`during`). Whatever they are, it is a run of the session, and when
        the call is over the push it was made for is not open. */
    method CutPush(a: nat, before: seq<Step>, during: seq<Step>) returns (ghost steps: seq<Step>, over: bool)
      requires a in actors && actors[a].CutWaitLock?
      modifies this
      ensures RunFrom(old(AsSession()), steps) == Ok(AsSession())
      ensures over ==> !(push.open && push.no == Some(old(actors[a]).push)) && turnLock == None && !Holding(actors, a)
    {
      ghost var s0 := AsSession();
      var p, reason := actors[a].push, actors[a].reason;
      steps := Suspend(a, before);
      if turnLock != None {
        return steps, false;
      }
      RunFromSnoc(s0, steps, AsSession(), SCutAcquire(a));
      AcquireIs(AsSession(), a);
      steps := steps + [SCutAcquire(a)];
      var waits := EnterCut(a);
      if !waits {
        return steps, true;
      }
      ghost var s1 := AsSession();
      ghost var more := Suspend(a, during);
      RunFromSplit(s0, steps, s1, more);
      steps := steps + more;
      RunFromSnoc(s0, steps, AsSession(), SCutDone(a));
      DoneIs(AsSession(), a);
      steps := steps + [SCutDone(a)];
      LeaveCut(a, p, reason);
      return steps, true;
    }

    /** `_cut_push` from the moment it has the lock up to its first suspension, if it has one. */
    method EnterCut(a: nat) returns (waits: bool)
      requires a in actors && actors[a].CutWaitLock? && turnLock == None
      modifies this
      ensures AsSession() == CutEntered(old(AsSession()), a) && a in actors
      ensures waits ==> actors[a] == Cutting(old(actors[a]).push, old(actors[a]).reason)
      ensures !waits ==> !(push.open && push.no == Some(old(actors[a]).push)) && turnLock == None && !Holding(actors, a)
    {
      var p, reason := actors[a].push, actors[a].reason;
      if !(push.open && push.no == Some(p)) {
        out, actors := Silent, actors[a := Finished];
        return false;
      }
      if push.tts != None || push.own {
        BeginCut(a, p, reason);
        return true;
      }
      LeaveCut(a, p, reason);
      return false;
    }

    method BeginCut(a: nat, p: nat, reason: Reason)
      modifies this
      ensures var s := old(AsSession());
              AsSession() == Lock(s, DropTts(s.c.(out := Silent)), a, Cutting(p, reason))
    {
      out := Silent;
      DropPushTts();
      actors, turnLock := actors[a := Cutting(p, reason)], Some(a);
    }

    /** Its end: the push is closed if it is still open, and the lock given back. */
    method LeaveCut(a: nat, p: nat, reason: Reason)
      modifies this
      ensures AsSession() == CutLeft(old(AsSession()), a, p, reason)
      ensures !(push.open && push.no == Some(p)) && turnLock == None && a in actors && !Holding(actors, a)
    {
      CloseAndTrace(p);
      actors, turnLock := actors[a := AfterCut(p, reason)], None;
    }

    method CloseAndTrace(p: nat)
      modifies this`out, this`push, this`trace
      ensures Abs() == ClosePush(old(Abs()).(out := Silent), p) && trace == Extended(old(trace), Abs())
      ensures !(push.open && push.no == Some(p))
    {
      out := Silent;
      var _ := ClosePushTurn(p);
      if out.Sent? {
        trace := trace + [out.frame];
      }
    }
  }
}
