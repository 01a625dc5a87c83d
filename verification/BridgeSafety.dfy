/** Every step of a session keeps its invariant, and what follows for whole runs. */
module BridgeSafety {
  import opened TurnFrames
  import opened Bridge
  import opened BridgeInvariant

  /** The part of the invariant that does not depend on where caller `a` is. */
  predicate OthersOk(s: Session, c: Core, a: nat) {
    && LockInv(s) && CoreInv(c)
    && (forall b :: b in s.actors && b != a ==> ActorOk(c, s.actors[b]))
    && (c.endedAtClose.Some? ==> c.closed || s.closeLock.Some?)
    && s.closeLock != Some(a)
    && (s.turnLock == None || s.turnLock == Some(a))
  }

  /** Inside the turn lock, with no turn alive and no push open. */
  lemma CreateKeeps(s: Session, c: Core, a: nat)
    requires OthersOk(s, c, a) && NoTurn(c) && !c.push.open
    ensures Inv(Unlock(s, CreateTurn(c), a, Finished)) && Quiet(c, CreateTurn(c))
  {
    forall b | b in s.actors && b != a ensures ActorOk(CreateTurn(c), s.actors[b]) {
      CreateTurnKeeps(c, s.actors[b]);
    }
    CreateTurnKeeps(c, Finished);
    Moved(s, Unlock(s, CreateTurn(c), a, Finished), a, Finished);
  }

  lemma ClosePushOthers(s: Session, c: Core, a: nat, p: nat)
    requires OthersOk(s, c, a) && c.out == Silent
    ensures Sends(c, ClosePush(c, p)) && OthersOk(s, ClosePush(c, p), a)
    ensures c.push.no == Some(p) ==> !ClosePush(c, p).push.open && Expected(ClosePush(c, p)) != Some(p)
  {
    ClosePushKeeps(c, p);
    forall b | b in s.actors && b != a ensures ActorOk(ClosePush(c, p), s.actors[b]) {
      ClosePushStable(c, p, s.actors[b]);
    }
  }

  lemma DropOthers(s: Session, c: Core, a: nat)
    requires OthersOk(s, c, a) && c.out == Silent
    ensures OthersOk(s, DropTts(c), a) && Sends(c, DropTts(c))
  {
    assert SameButTts(c, DropTts(c));
    forall b | b in s.actors && b != a ensures ActorOk(DropTts(c), s.actors[b]) {
      TtsKeeps(c, DropTts(c), s.actors[b]);
    }
    TtsKeeps(c, DropTts(c), Finished);
  }

  /** A cut that suspends keeps the lock and leaves the push open for now. */
  lemma CutBegins(s: Session, c: Core, a: nat, p: Actor)
    requires OthersOk(s, c, a) && c.out == Silent && ActorOk(DropTts(c), p) && Holds(p) && !InClose(p)
    ensures Inv(Lock(s, DropTts(c), a, p)) && Sends(c, DropTts(c))
  {
    DropOthers(s, c, a);
    Moved(s, Lock(s, DropTts(c), a, p), a, p);
  }

  lemma SendCutKeeps(s: Session, c: Core, a: nat)
    requires OthersOk(s, c, a) && c.out == Silent && NoTurn(c)
    ensures Inv(SendCut(s, c, a)) && Sends(c, SendCut(s, c, a).c)
  {
    if !c.push.open {
      CreateKeeps(s, c, a);
    } else if CutSuspends(c) {
      CutBegins(s, c, a, SendCutting(c.push.no.value));
    } else {
      CloseThenCreate(s, c, a, c.push.no.value);
    }
  }

  /** The push is closed and the turn created in one go. */
  lemma CloseThenCreate(s: Session, c: Core, a: nat, p: nat)
    requires OthersOk(s, c, a) && c.out == Silent && NoTurn(c) && c.push.no == Some(p)
    ensures Inv(Unlock(s, CreateTurn(ClosePush(c, p)), a, Finished)) && Sends(c, CreateTurn(ClosePush(c, p)))
  {
    ClosePushOthers(s, c, a, p);
    CreateKeeps(s, ClosePush(c, p), a);
  }

  lemma SendAcquireKeeps(s: Session, a: nat)
    requires Inv(s) && s.c.out == Silent && SendAcquire(s, a).Ok?
    ensures Inv(SendAcquire(s, a).value) && Sends(s.c, SendAcquire(s, a).value.c)
  {
    assert !InClose(s.actors[a]) && !Holds(s.actors[a]);
    if s.c.closing {
      Moved(s, SendAcquire(s, a).value, a, Finished);
    } else if !NoTurn(s.c) {
      var t := s.c.active.value;
      CancelOthers(s, a, t);
      assert !s.c.push.open;
      Moved(s, SendAcquire(s, a).value, a, SendWaitTurn(t));
    } else {
      SendCutKeeps(s, s.c, a);
    }
  }

  lemma CancelOthers(s: Session, a: nat, t: nat)
    requires Inv(s) && s.c.out == Silent && t < |s.c.turns|
    ensures CoreInv(CancelTask(s.c, t)) && Sends(s.c, CancelTask(s.c, t))
    ensures forall b :: b in s.actors ==> ActorOk(CancelTask(s.c, t), s.actors[b])
  {
    CancelTaskKeeps(s.c, t, Finished);
    forall b | b in s.actors ensures ActorOk(CancelTask(s.c, t), s.actors[b]) {
      CancelTaskKeeps(s.c, t, s.actors[b]);
    }
  }

  lemma ForgetOthers(s: Session, a: nat, t: nat)
    requires Inv(s) && s.c.out == Silent && a in s.actors && s.turnLock == Some(a) && t < |s.c.turns| && IsOver(s.c, t)
    requires !NoTurn(s.c) ==> s.c.active == Some(t)
    ensures OthersOk(s, Forget(s.c, t), a) && Quiet(s.c, Forget(s.c, t)) && NoTurn(Forget(s.c, t))
  {
    assert Holds(s.actors[a]);
    ForgetKeeps(s.c, t, Finished);
    forall b | b in s.actors ensures ActorOk(Forget(s.c, t), s.actors[b]) {
      ForgetKeeps(s.c, t, s.actors[b]);
    }
  }

  lemma SendTurnOverKeeps(s: Session, a: nat, own: bool)
    requires Inv(s) && s.c.out == Silent && SendTurnOver(s, a, own).Ok?
    ensures Inv(SendTurnOver(s, a, own).value) && Sends(s.c, SendTurnOver(s, a, own).value.c)
  {
    var t := s.actors[a].turn;
    assert ActorOk(s.c, s.actors[a]);
    ForgetOthers(s, a, t);
    if own {
      Moved(s, SendTurnOver(s, a, own).value, a, Finished);
    } else {
      SendCutKeeps(s, Forget(s.c, t), a);
    }
  }

  lemma SendCutDoneKeeps(s: Session, a: nat)
    requires Inv(s) && s.c.out == Silent && SendCutDone(s, a).Ok?
    ensures Inv(SendCutDone(s, a).value) && Sends(s.c, SendCutDone(s, a).value.c)
  {
    var p := s.actors[a].push;
    assert ActorOk(s.c, s.actors[a]) && Holds(s.actors[a]);
    CloseThenCreate(s, s.c, a, p);
  }

  /** Where `_cancel_turn` leads is outside both locks. */
  lemma AfterCancelOk(c: Core, cancelled: bool, no: Number, push: Number, reason: Reason)
    requires cancelled ==> Ended(c, no)
    ensures var p := AfterCancel(cancelled, no, push, reason); ActorOk(c, p) && !Holds(p) && !InClose(p)
  {
  }

  lemma CancelEnterKeeps(s: Session, a: nat, reason: Reason)
    requires Inv(s) && s.c.out == Silent && CancelEnter(s, a, reason).Ok?
    ensures Inv(CancelEnter(s, a, reason).value) && Sends(s.c, CancelEnter(s, a, reason).value.c)
  {
    if NoTurn(s.c) {
      var push := if s.c.push.open then s.c.push.no else None;
      AfterCancelOk(s.c, false, None, push, reason);
      Moved(s, CancelEnter(s, a, reason).value, a, AfterCancel(false, None, push, reason));
    } else {
      var p := CancelEnter(s, a, reason).value.actors[a];
      assert p.CancelWaitLock? && ActorOk(s.c, p);
      Moved(s, CancelEnter(s, a, reason).value, a, p);
    }
  }

  lemma CancelAcquireKeeps(s: Session, a: nat)
    requires Inv(s) && s.c.out == Silent && CancelAcquire(s, a).Ok?
    ensures Inv(CancelAcquire(s, a).value) && Sends(s.c, CancelAcquire(s, a).value.c)
  {
    var w := s.actors[a];
    assert ActorOk(s.c, w) && !Holds(w) && !InClose(w);
    if IsOver(s.c, w.turn) {
      var p := AfterCancel(false, None, w.pushSeen, w.reason);
      AfterCancelOk(s.c, false, None, w.pushSeen, w.reason);
      Moved(s, Unlock(s, s.c, a, p), a, p);
    } else {
      CancelBegins(s, a);
    }
  }

  lemma CancelBegins(s: Session, a: nat)
    requires Inv(s) && s.c.out == Silent && a in s.actors && s.actors[a].CancelWaitLock? && s.turnLock == None
    requires !IsOver(s.c, s.actors[a].turn)
    ensures var w := s.actors[a];
            var p := CancelWaitTurn(w.turn, w.no, w.pushSeen, w.reason);
            Inv(Lock(s, CancelTask(s.c, w.turn), a, p)) && Sends(s.c, CancelTask(s.c, w.turn))
  {
    var w := s.actors[a];
    var p := CancelWaitTurn(w.turn, w.no, w.pushSeen, w.reason);
    assert ActorOk(s.c, w) && !InClose(w);
    assert ActorOk(s.c, p);
    CancelOthers(s, a, w.turn);
    CancelTaskKeeps(s.c, w.turn, p);
    Moved(s, Lock(s, CancelTask(s.c, w.turn), a, p), a, p);
  }

  lemma CancelTurnOverKeeps(s: Session, a: nat, own: bool)
    requires Inv(s) && s.c.out == Silent && CancelTurnOver(s, a, own).Ok?
    ensures Inv(CancelTurnOver(s, a, own).value) && Sends(s.c, CancelTurnOver(s, a, own).value.c)
  {
    var w := s.actors[a];
    assert ActorOk(s.c, w) && Holds(w);
    ForgetOthers(s, a, w.turn);
    if own {
      Moved(s, CancelTurnOver(s, a, own).value, a, Finished);
    } else {
      WinOthers(s, Forget(s.c, w.turn), a, w.turn);
      AfterWin(s.c, w);
      Moved(s, CancelTurnOver(s, a, own).value, a, AfterCancel(true, w.no, w.pushSeen, w.reason));
    }
  }

  lemma WinOthers(s: Session, c: Core, a: nat, t: nat)
    requires OthersOk(s, c, a) && s.turnLock == Some(a) && t < |c.turns| && IsOver(c, t) && c.turns[t].wins == 0
    ensures OthersOk(s, Won(c, t), a) && Quiet(c, Won(c, t))
  {
    WonKeeps(c, t, Finished);
    forall b | b in s.actors && b != a ensures ActorOk(Won(c, t), s.actors[b]) {
      WonKeeps(c, t, s.actors[b]);
    }
  }

  lemma AfterWin(c: Core, w: Actor)
    requires CoreInv(c) && w.CancelWaitTurn? && ActorOk(c, w) && IsOver(c, w.turn)
    ensures var p := AfterCancel(true, w.no, w.pushSeen, w.reason);
            ActorOk(Won(Forget(c, w.turn), w.turn), p) && !Holds(p) && !InClose(p)
  {
    AfterCancelOk(Won(Forget(c, w.turn), w.turn), true, w.no, w.pushSeen, w.reason);
  }

  lemma CutAcquireKeeps(s: Session, a: nat)
    requires Inv(s) && s.c.out == Silent && CutAcquire(s, a).Ok?
    ensures Inv(CutAcquire(s, a).value) && Sends(s.c, CutAcquire(s, a).value.c)
  {
    var w := s.actors[a];
    assert !Holds(w) && !InClose(w);
    if !(s.c.push.open && s.c.push.no == Some(w.push)) {
      Moved(s, CutAcquire(s, a).value, a, Finished);
    } else if CutSuspends(s.c) {
      CutBegins(s, s.c, a, Cutting(w.push, w.reason));
    } else {
      CutEnds(s, a, w.push, w.reason);
    }
  }

  lemma CutEnds(s: Session, a: nat, p: nat, reason: Reason)
    requires OthersOk(s, s.c, a) && s.c.out == Silent && s.c.push.no == Some(p)
    ensures Inv(Unlock(s, ClosePush(s.c, p), a, AfterCut(p, reason))) && Sends(s.c, ClosePush(s.c, p))
  {
    ClosePushOthers(s, s.c, a, p);
    if reason == BargeIn {
      assert Ended(ClosePush(s.c, p), Some(p));
      Moved(s, Unlock(s, ClosePush(s.c, p), a, AfterCut(p, reason)), a, Interrupting(Some(p)));
    } else {
      Moved(s, Unlock(s, ClosePush(s.c, p), a, AfterCut(p, reason)), a, Finished);
    }
  }

  lemma CutDoneKeeps(s: Session, a: nat)
    requires Inv(s) && s.c.out == Silent && CutDone(s, a).Ok?
    ensures Inv(CutDone(s, a).value) && Sends(s.c, CutDone(s, a).value.c)
  {
    var w := s.actors[a];
    assert ActorOk(s.c, w) && Holds(w);
    CutEnds(s, a, w.push, w.reason);
  }

  lemma InterruptSentKeeps(s: Session, a: nat)
    requires Inv(s) && s.c.out == Silent && InterruptSent(s, a).Ok?
    ensures Inv(InterruptSent(s, a).value) && Sends(s.c, InterruptSent(s, a).value.c)
  {
    var no := s.actors[a].no;
    assert ActorOk(s.c, s.actors[a]);
    InterruptedKeeps(s.c, no, Finished);
    forall b | b in s.actors ensures ActorOk(Emit(s.c, Interrupted(no)), s.actors[b]) {
      InterruptedKeeps(s.c, no, s.actors[b]);
    }
    Moved(s, InterruptSent(s, a).value, a, Finished);
  }

  lemma ActorCancelledKeeps(s: Session, a: nat)
    requires Inv(s) && s.c.out == Silent && ActorCancelled(s, a).Ok?
    ensures Inv(ActorCancelled(s, a).value) && Sends(s.c, ActorCancelled(s, a).value.c)
  {
    Moved(s, ActorCancelled(s, a).value, a, Finished);
  }

  lemma CloseEnterKeeps(s: Session, a: nat)
    requires Inv(s) && s.c.out == Silent && CloseEnter(s, a).Ok?
    ensures Inv(CloseEnter(s, a).value) && Sends(s.c, CloseEnter(s, a).value.c)
  {
    ClosingKeeps(s.c, Finished);
    forall b | b in s.actors ensures ActorOk(s.c.(closing := true), s.actors[b]) {
      ClosingKeeps(s.c, s.actors[b]);
    }
    Moved(s, CloseEnter(s, a).value, a, CloseWaitLock);
  }

  lemma CloseAcquireKeeps(s: Session, a: nat)
    requires Inv(s) && s.c.out == Silent && CloseAcquire(s, a).Ok?
    ensures Inv(CloseAcquire(s, a).value) && Sends(s.c, CloseAcquire(s, a).value.c)
  {
    assert ActorOk(s.c, s.actors[a]) && !Holds(s.actors[a]);
    if !s.c.closed {
      if NoTurn(s.c) {
        forall b | b in s.actors ensures ActorOk(CancelWorker(s.c), s.actors[b]) {
          TtsKeeps(s.c, CancelWorker(s.c), s.actors[b]);
        }
        TtsKeeps(s.c, CancelWorker(s.c), Finished);
      } else {
        CancelOthers(s, a, s.c.active.value);
      }
    }
    Moved(s, CloseAcquire(s, a).value, a, CloseAcquire(s, a).value.actors[a]);
  }

  lemma CloseTurnOverKeeps(s: Session, a: nat)
    requires Inv(s) && s.c.out == Silent && CloseTurnOver(s, a).Ok?
    ensures Inv(CloseTurnOver(s, a).value) && Sends(s.c, CloseTurnOver(s, a).value.c)
  {
    var t := s.actors[a].turn;
    assert ActorOk(s.c, CloseWaitTurn(t)) && InClose(s.actors[a]);
    EndAbandonedKeeps(s.c, t);
    var c := EndAbandoned(s.c, t);
    forall b | b in s.actors && b != a ensures ActorOk(CancelWorker(c), s.actors[b]) {
      EndAbandonedStable(s.c, t, s.actors[b]);
      CancelWorkerKeeps(c, s.actors[b]);
    }
    CancelWorkerKeeps(c, Finished);
    Moved(s, CloseTurnOver(s, a).value, a, CloseWaitWorker);
  }

  lemma CancelWorkerKeeps(c: Core, p: Actor)
    requires CoreInv(c)
    ensures CoreInv(CancelWorker(c)) && Quiet(c, CancelWorker(c)) && (ActorOk(c, p) ==> ActorOk(CancelWorker(c), p))
  {
  }

  lemma CloseWorkerOverKeeps(s: Session, a: nat)
    requires Inv(s) && s.c.out == Silent && CloseWorkerOver(s, a).Ok?
    ensures Inv(CloseWorkerOver(s, a).value) && Sends(s.c, CloseWorkerOver(s, a).value.c)
  {
    assert ActorOk(s.c, s.actors[a]) && InClose(s.actors[a]);
    var c := CloseWorkerOver(s, a).value.c;
    forall b | b in s.actors ensures ActorOk(c, s.actors[b]) {
      TtsKeeps(s.c, c, s.actors[b]);
    }
    TtsKeeps(s.c, c, Finished);
    Moved(s, CloseWorkerOver(s, a).value, a, CloseWaitAudio);
  }

  lemma CloseAudioOverKeeps(s: Session, a: nat)
    requires Inv(s) && s.c.out == Silent && CloseAudioOver(s, a).Ok?
    ensures Inv(CloseAudioOver(s, a).value) && Sends(s.c, CloseAudioOver(s, a).value.c)
  {
    assert ActorOk(s.c, s.actors[a]) && InClose(s.actors[a]);
    Moved(s, CloseAudioOver(s, a).value, a, CloseWaitTts);
  }

  lemma CloseTtsOverKeeps(s: Session, a: nat)
    requires Inv(s) && s.c.out == Silent && CloseTtsOver(s, a).Ok?
    ensures Inv(CloseTtsOver(s, a).value) && Sends(s.c, CloseTtsOver(s, a).value.c)
  {
    assert ActorOk(s.c, s.actors[a]) && InClose(s.actors[a]);
    var c := s.c.(push := s.c.push.(tts := None));
    TtsKeeps(s.c, c, Finished);
    var c1 := CloseTtsOver(s, a).value.c;
    if c.push.no.Some? { ClosePushKeeps(c, c.push.no.value); }
    forall b | b in s.actors ensures ActorOk(c1, s.actors[b]) {
      TtsKeeps(s.c, c, s.actors[b]);
      if c.push.no.Some? { ClosePushStable(c, c.push.no.value, s.actors[b]); }
    }
    assert Settled(c1) && !c1.push.open;
    Moved(s, CloseTtsOver(s, a).value, a, CloseRest);
  }

  lemma CloseEndKeeps(s: Session, a: nat)
    requires Inv(s) && s.c.out == Silent && CloseEnd(s, a).Ok?
    ensures Inv(CloseEnd(s, a).value) && Sends(s.c, CloseEnd(s, a).value.c)
  {
    assert ActorOk(s.c, s.actors[a]) && InClose(s.actors[a]);
    ClosedKeeps(s.c, Finished);
    forall b | b in s.actors ensures ActorOk(s.c.(closed := true), s.actors[b]) {
      ClosedKeeps(s.c, s.actors[b]);
    }
    Moved(s, CloseEnd(s, a).value, a, Finished);
  }

  lemma TaskStepKeeps(s: Session, e: Task)
    requires Inv(s) && s.c.out == Silent && Move(s, Do(e)).Ok?
    ensures Inv(Move(s, Do(e)).value) && Sends(s.c, Move(s, Do(e)).value.c)
  {
    TaskKeeps(s.c, e, Finished);
    forall a | a in s.actors ensures ActorOk(TaskStep(s.c, e).value, s.actors[a]) {
      TaskKeeps(s.c, e, s.actors[a]);
    }
  }

  lemma EnterKeeps(s: Session, a: nat)
    requires Inv(s) && s.c.out == Silent && SendEnter(s, a).Ok?
    ensures Inv(SendEnter(s, a).value) && Sends(s.c, SendEnter(s, a).value.c)
  {
    Moved(s, SendEnter(s, a).value, a, SendEnter(s, a).value.actors[a]);
  }

  lemma SendMoveKeeps(s: Session, e: Step)
    requires Inv(s) && s.c.out == Silent && Move(s, e).Ok? && OfSend(e)
    ensures Inv(Move(s, e).value) && Sends(s.c, Move(s, e).value.c)
  {
    if e.SSendEnter? {
      EnterKeeps(s, e.a);
    } else if e.SSendAcquire? {
      SendAcquireKeeps(s, e.a);
    } else if e.SSendTurnOver? {
      SendTurnOverKeeps(s, e.a, e.own);
    } else {
      SendCutDoneKeeps(s, e.a);
    }
  }

  lemma CancelMoveKeeps(s: Session, e: Step)
    requires Inv(s) && s.c.out == Silent && Move(s, e).Ok? && OfCancel(e)
    ensures Inv(Move(s, e).value) && Sends(s.c, Move(s, e).value.c)
  {
    if e.SCancelEnter? {
      CancelEnterKeeps(s, e.a, e.reason);
    } else if e.SCancelAcquire? {
      CancelAcquireKeeps(s, e.a);
    } else if e.SCancelTurnOver? {
      CancelTurnOverKeeps(s, e.a, e.own);
    } else if e.SCutAcquire? {
      CutAcquireKeeps(s, e.a);
    } else if e.SCutDone? {
      CutDoneKeeps(s, e.a);
    } else if e.SInterruptSent? {
      InterruptSentKeeps(s, e.a);
    } else {
      ActorCancelledKeeps(s, e.a);
    }
  }

  lemma CloseMoveKeeps(s: Session, e: Step)
    requires Inv(s) && s.c.out == Silent && Move(s, e).Ok? && OfClose(e)
    ensures Inv(Move(s, e).value) && Sends(s.c, Move(s, e).value.c)
  {
    if e.SCloseEnter? {
      CloseEnterKeeps(s, e.a);
    } else if e.SCloseAcquire? {
      CloseAcquireKeeps(s, e.a);
    } else if e.SCloseTurnOver? {
      CloseTurnOverKeeps(s, e.a);
    } else if e.SCloseWorkerOver? {
      CloseWorkerOverKeeps(s, e.a);
    } else if e.SCloseAudioOver? {
      CloseAudioOverKeeps(s, e.a);
    } else if e.SCloseTtsOver? {
      CloseTtsOverKeeps(s, e.a);
    } else {
      CloseEndKeeps(s, e.a);
    }
  }

  lemma MoveKeeps(s: Session, e: Step)
    requires Inv(s) && s.c.out == Silent && Move(s, e).Ok?
    ensures Inv(Move(s, e).value) && Sends(s.c, Move(s, e).value.c)
  {
    if e.Do? {
      TaskStepKeeps(s, e.task);
    } else if OfSend(e) {
      SendMoveKeeps(s, e);
    } else if OfClose(e) {
      CloseMoveKeeps(s, e);
    } else {
      CancelMoveKeeps(s, e);
    }
  }

  // ---------------------------------------------------------------- the trace

  predicate AllStarted(t: seq<Frame>, last: nat) {
    forall n: nat :: 0 < n <= last ==> TurnStart(n) in t
  }

  /** The accepted frames agree with the state. */
  predicate Traced(s: Session, strict: bool) {
    && Bracketed(s.trace, strict)
    && Top(s.trace) <= s.c.seqNo
    && (s.c.senderOpen ==> Open(s.trace) == Expected(s.c) && AllStarted(s.trace, s.c.seqNo))
  }

  lemma TraceGrows(t: seq<Frame>, c: Core, c1: Core, strict: bool)
    requires Bracketed(t, strict) && Top(t) <= c.seqNo <= c1.seqNo
    requires c.senderOpen ==> Open(t) == Expected(c) && AllStarted(t, c.seqNo)
    requires Sends(c, c1)
    requires strict && c1.out.Sent? && c1.out.frame.PushAudio? ==> Expected(c) == Some(c1.out.frame.no)
    ensures var t1 := if c1.out.Sent? then t + [c1.out.frame] else t;
            && Bracketed(t1, strict) && Top(t1) <= c1.seqNo
            && (c1.senderOpen ==> Open(t1) == Expected(c1) && AllStarted(t1, c1.seqNo))
  {
    if c1.out.Sent? {
      var f := c1.out.frame;
      Snoc(t, f, strict);
      if f.Interrupted? && f.cut.Some? {
        StartedThenEnded(t, f.cut.value, strict);
      }
      assert forall g :: g in t ==> g in t + [f];
      assert f in t + [f];
    }
  }

  lemma InitialOk()
    ensures Inv(Initial()) && Traced(Initial(), true) && Traced(Initial(), false)
  {
  }

  lemma NextKeeps(s: Session, e: Step)
    requires Inv(s) && Traced(s, false) && Next(s, e).Ok?
    ensures Inv(Next(s, e).value) && Traced(Next(s, e).value, false)
  {
    var s0 := s.(c := s.c.(out := Silent));
    Silenced(s);
    MoveKeeps(s0, e);
    var s1 := Move(s0, e).value;
    TraceGrows(s.trace, s0.c, s1.c, false);
    Retraced(s1, Next(s, e).value.trace);
  }

  lemma Silenced(s: Session)
    requires Inv(s)
    ensures Inv(s.(c := s.c.(out := Silent))) && Expected(s.c.(out := Silent)) == Expected(s.c)
  {
    var c0 := s.c.(out := Silent);
    forall a | a in s.actors ensures ActorOk(c0, s.actors[a]) {
      assert ActorOk(s.c, s.actors[a]);
    }
  }

  lemma Retraced(s: Session, t: seq<Frame>)
    requires Inv(s)
    ensures Inv(s.(trace := t))
  {
  }

  /** Every reachable state satisfies the invariant, and its trace agrees with it. */
  lemma {:induction false} Reached(steps: seq<Step>)
    requires Exec(steps).Ok?
    ensures Inv(Exec(steps).value) && Traced(Exec(steps).value, false)
  {
    if |steps| == 0 {
      InitialOk();
    } else {
      Reached(steps[..|steps| - 1]);
      NextKeeps(Exec(steps[..|steps| - 1]).value, steps[|steps| - 1]);
    }
  }

  lemma ReachedState(steps: seq<Step>, s: Session)
    requires Reaches(steps, s)
    ensures Inv(s) && Traced(s, false)
  {
    Reached(steps);
  }

  // ---------------------------------------------------------------- main results

  predicate Alive(s: Session, t: nat) { t < |s.c.turns| && !s.c.turns[t].phase.Over? }

  /** In every run the turn frames the client got are well bracketed: fresh numbers, one end
      per start before the next start, tokens, tool calls and user-turn audio inside their own
      bracket, `interrupted` only after the end of the turn it names. Once `close_all` has
      finished with the sender still open, no bracket is left open. */
  lemma TurnsAreBracketed(steps: seq<Step>, s: Session)
    requires Reaches(steps, s)
    ensures Bracketed(s.trace, false)
    ensures s.c.closed && s.c.senderOpen ==> Open(s.trace) == None
  {
    ReachedState(steps, s);
  }

  /** At most one user turn task is alive, and never while a push turn is open. */
  lemma OneTurnAlive(steps: seq<Step>, s: Session, t: nat, u: nat)
    requires Reaches(steps, s) && Alive(s, t)
    ensures Alive(s, u) ==> t == u
    ensures s.c.active == Some(t) && !s.c.push.open
  {
    ReachedState(steps, s);
  }

  /** However many calls race to cancel it, at most one reports success for a turn, and by
      then that turn is over. */
  lemma OneCancelWins(steps: seq<Step>, s: Session, t: nat)
    requires Reaches(steps, s) && t < |s.c.turns|
    ensures s.c.turns[t].wins <= 1
    ensures s.c.turns[t].wins == 1 ==> !Alive(s, t)
  {
    ReachedState(steps, s);
  }

  /** The last step of a run, and that it goes forward. */
  lemma LastStep(steps: seq<Step>, more: seq<Step>, s1: Session) returns (before: Session)
    requires |more| > 0 && Reaches(steps + more, s1)
    ensures Reaches(steps + more[..|more| - 1], before) && Next(before, more[|more| - 1]) == Ok(s1)
    ensures Forward(before.c, s1.c)
  {
    assert (steps + more)[..|steps + more| - 1] == steps + more[..|more| - 1];
    before := Exec(steps + more[..|more| - 1]).value;
  }

  /** Once any caller has entered `close_all`, no turn is created any more. */
  lemma {:induction false} NoTurnAfterClosing(steps: seq<Step>, s: Session, more: seq<Step>, s1: Session)
    requires Reaches(steps, s) && s.c.closing && Reaches(steps + more, s1)
    ensures s1.c.closing && |s1.c.turns| == |s.c.turns|
    decreases |more|
  {
    if |more| == 0 {
      assert steps + more == steps;
    } else {
      var before := LastStep(steps, more, s1);
      NoTurnAfterClosing(steps, s, more[..|more| - 1], before);
    }
  }
}
