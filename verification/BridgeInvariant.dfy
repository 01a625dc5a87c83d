/** What every step of a session keeps, whatever the interleaving. */
module BridgeInvariant {
  import opened TurnFrames
  import opened Bridge

  /** Callers that hold `_turn_lock`. */
  predicate Holds(p: Actor) { p.SendWaitTurn? || p.SendCutting? || p.CancelWaitTurn? || p.Cutting? }

  /** Callers inside the body of `close_all`. */
  predicate InClose(p: Actor) {
    p.CloseWaitTurn? || p.CloseWaitWorker? || p.CloseWaitAudio? || p.CloseWaitTts? || p.CloseRest?
  }

  /** The bracket the client must see open while the sender accepts frames. */
  function Expected(c: Core): Number {
    if c.activeNo.Some? && c.endedAtClose != c.activeNo then c.activeNo
    else if c.push.open then c.push.no
    else None
  }

  /** At most one turn task is alive, and it is the one `_active_turn` refers to. */
  predicate TurnInv(c: Core) {
    && (forall t :: 0 <= t < |c.turns| && !c.turns[t].phase.Over? ==> c.active == Some(t))
    && (c.active.Some? ==> c.active.value < |c.turns|)
    && (forall t :: 0 <= t < |c.turns| ==> c.turns[t].wins <= (if c.turns[t].phase.Over? then 1 else 0))
    && (c.activeNo.Some? ==> c.active.Some? && c.turns[c.active.value].phase == Running(c.activeNo.value))
    && (c.active.Some? && c.turns[c.active.value].phase.Running? ==>
          c.activeNo == Some(c.turns[c.active.value].phase.no))
    && (c.activeNo.Some? && c.endedAtClose == c.activeNo ==> c.turns[c.active.value].cancelled)
    && (c.push.open ==> NoTurn(c))
  }

  predicate NumberInv(c: Core) {
    && (c.push.open ==> c.push.no.Some?)
    && (c.push.no.Some? ==> 0 < c.push.no.value <= c.seqNo)
    && (c.activeNo.Some? ==> 0 < c.activeNo.value <= c.seqNo && c.activeNo != c.push.no)
    && (c.endedAtClose.Some? ==> c.endedAtClose.value <= c.seqNo)
  }

  /** Once the turn step of `close_all` is over: a turn still alive never starts, or its end
      was already sent; and the worker only unwinds. */
  predicate Settled(c: Core) {
    && c.closing
    && (!NoTurn(c) ==>
          var u := c.turns[c.active.value];
          u.cancelled && (u.phase.Running? ==> c.endedAtClose == c.activeNo))
    && !WorkerRuns(c)
  }

  predicate CoreInv(c: Core) {
    && TurnInv(c) && NumberInv(c)
    && (c.closed ==> Settled(c) && !c.push.open)
  }

  /** Number `no` was given to a turn that is not open any more. */
  predicate Ended(c: Core, no: Number) {
    no.Some? ==> 0 < no.value <= c.seqNo && Expected(c) != no
  }

  /** What each suspended caller may rely on. */
  predicate ActorOk(c: Core, p: Actor) {
    match p
    case SendWaitTurn(t) => t < |c.turns| && !c.push.open && (!NoTurn(c) ==> c.active == Some(t))
    case SendCutting(n) => NoTurn(c) && c.push.no == Some(n)
    case CancelWaitLock(t, no, _, _) =>
      t < |c.turns| && (no.Some? ==> 0 < no.value <= c.seqNo && c.push.no != no)
    case CancelWaitTurn(t, no, _, _) =>
      && t < |c.turns| && (no.Some? ==> 0 < no.value <= c.seqNo)
      && !c.push.open && (!NoTurn(c) ==> c.active == Some(t)) && c.turns[t].wins == 0
    case Cutting(n, _) => c.push.no == Some(n)
    case Interrupting(no) => Ended(c, no)
    case CloseWaitLock => c.closing
    case CloseWaitTurn(t) =>
      && c.closing && t < |c.turns| && c.endedAtClose == None
      && (!NoTurn(c) ==> c.active == Some(t) && c.turns[t].cancelled)
    case CloseWaitWorker => Settled(c)
    case CloseWaitAudio => Settled(c)
    case CloseWaitTts => Settled(c)
    case CloseRest => Settled(c) && !c.push.open
    case _ => true
  }

  /** May the client see `f` when the state goes from `c` to `c1`? */
  predicate Allowed(c: Core, f: Frame, c1: Core) {
    match f
    case TurnStart(n) => Expected(c) == None && n == c.seqNo + 1 == c1.seqNo && Expected(c1) == Some(n)
    case TurnEnd(n) => Expected(c) == Some(n) && Expected(c1) == None && c1.seqNo == c.seqNo
    case Token(n) => Expected(c) == Some(n) == Expected(c1) && c1.seqNo == c.seqNo
    case ToolCall(n) => Expected(c) == Some(n) == Expected(c1) && c1.seqNo == c.seqNo
    case Audio(n) => Expected(c) == Some(n) == Expected(c1) && c1.seqNo == c.seqNo
    case PushAudio(n) => n in c.push.live && Expected(c) == Expected(c1) && c1.seqNo == c.seqNo
    case Interrupted(no) => Ended(c, no) && Expected(c) == Expected(c1) && c1.seqNo == c.seqNo
  }

  /** A step sends at most one frame, an allowed one; without a frame the open bracket stays. */
  predicate Sends(c: Core, c1: Core) {
    && (c1.senderOpen ==> c.senderOpen)
    && if c1.out == Silent then c1.senderOpen ==> Expected(c1) == Expected(c) && c1.seqNo == c.seqNo
       else c.senderOpen && Allowed(c, c1.out.frame, c1)
  }

  // ---------------------------------------------------------------- turn task

  lemma TurnBeginKeeps(c: Core, t: nat)
    requires CoreInv(c) && c.out == Silent && TurnBegin(c, t).Ok?
    ensures CoreInv(TurnBegin(c, t).value) && Sends(c, TurnBegin(c, t).value)
  {
    assert c.active == Some(t) && c.activeNo == None && !c.push.open;
    if c.turns[t].cancelled || !c.senderOpen {
      NeverStarts(c, t, c.seqNo);
      NeverStarts(c, t, c.seqNo + 1);
    } else {
      StartsRunning(c, t);
    }
  }

  /** A turn task that ends before it has started a turn. */
  lemma NeverStarts(c: Core, t: nat, seqNo: nat)
    requires CoreInv(c) && c.out == Silent && t < |c.turns| && c.turns[t].phase.Created? && seqNo >= c.seqNo
    requires c.active == Some(t) && c.activeNo == None
    ensures var c1 := SetTurn(c.(seqNo := seqNo), t, c.turns[t].(phase := Over));
            CoreInv(c1) && Expected(c1) == Expected(c)
  {
  }

  lemma StartsRunning(c: Core, t: nat)
    requires CoreInv(c) && c.out == Silent && TurnBegin(c, t).Ok? && !c.turns[t].cancelled && c.senderOpen
    requires c.active == Some(t) && c.activeNo == None && !c.push.open
    ensures CoreInv(TurnBegin(c, t).value) && Sends(c, TurnBegin(c, t).value)
  {
  }

  lemma TurnBeginStable(c: Core, t: nat, p: Actor)
    requires CoreInv(c) && c.out == Silent && TurnBegin(c, t).Ok? && ActorOk(c, p)
    ensures ActorOk(TurnBegin(c, t).value, p)
  {
    assert c.active == Some(t) && c.activeNo == None && !c.push.open;
  }

  lemma TurnSaysKeeps(c: Core, t: nat, tool: bool, p: Actor)
    requires CoreInv(c) && c.out == Silent && TurnSays(c, t, tool).Ok?
    ensures CoreInv(TurnSays(c, t, tool).value) && Sends(c, TurnSays(c, t, tool).value)
    ensures ActorOk(c, p) ==> ActorOk(TurnSays(c, t, tool).value, p)
  {
  }

  lemma TurnAudioKeeps(c: Core, t: nat, on: bool, p: Actor)
    requires CoreInv(c) && c.out == Silent && t < |c.turns|
    ensures var c1 := SetTurn(c, t, c.turns[t].(audio := on));
            CoreInv(c1) && Sends(c, c1) && (ActorOk(c, p) ==> ActorOk(c1, p))
  {
  }

  lemma TurnAudioFrameKeeps(c: Core, t: nat, p: Actor)
    requires CoreInv(c) && c.out == Silent && TurnAudioFrame(c, t).Ok?
    ensures CoreInv(TurnAudioFrame(c, t).value) && Sends(c, TurnAudioFrame(c, t).value)
    ensures ActorOk(c, p) ==> ActorOk(TurnAudioFrame(c, t).value, p)
  {
  }

  lemma TurnFinishKeeps(c: Core, t: nat)
    requires CoreInv(c) && c.out == Silent && TurnFinish(c, t).Ok?
    ensures CoreInv(TurnFinish(c, t).value) && Sends(c, TurnFinish(c, t).value)
  {
    assert c.active == Some(t) && c.activeNo == Some(c.turns[t].phase.no);
  }

  lemma TurnFinishStable(c: Core, t: nat, p: Actor)
    requires CoreInv(c) && c.out == Silent && TurnFinish(c, t).Ok? && ActorOk(c, p)
    ensures ActorOk(TurnFinish(c, t).value, p)
  {
  }

  // ---------------------------------------------------------------- push

  lemma PassLockKeeps(c: Core, enabled: bool, own: bool, audio: bool)
    requires CoreInv(c) && c.out == Silent && WorkerPassLock(c, enabled, own, audio).Ok?
    ensures CoreInv(WorkerPassLock(c, enabled, own, audio).value)
    ensures Sends(c, WorkerPassLock(c, enabled, own, audio).value)
  {
    if NoTurn(c) {
      assert c.activeNo == None;
    }
  }

  lemma PassLockStable(c: Core, enabled: bool, own: bool, audio: bool, p: Actor)
    requires CoreInv(c) && c.out == Silent && WorkerPassLock(c, enabled, own, audio).Ok? && ActorOk(c, p) && !Holds(p)
    ensures ActorOk(WorkerPassLock(c, enabled, own, audio).value, p)
  {
  }

  lemma ClosePushKeeps(c: Core, n: nat)
    requires CoreInv(c) && c.out == Silent
    ensures CoreInv(ClosePush(c, n)) && Sends(c, ClosePush(c, n))
    ensures c.push.no == Some(n) ==> !ClosePush(c, n).push.open && Expected(ClosePush(c, n)) != Some(n)
  {
    if c.push.open && c.push.no == Some(n) {
      assert c.activeNo == None;
    }
  }

  lemma ClosePushStable(c: Core, n: nat, p: Actor)
    requires CoreInv(c) && ActorOk(c, p)
    ensures ActorOk(ClosePush(c, n), p)
  {
  }

  lemma DeliversKeeps(c: Core, tool: bool, p: Actor)
    requires CoreInv(c) && c.out == Silent && WorkerDelivers(c, tool).Ok?
    ensures CoreInv(WorkerDelivers(c, tool).value) && Sends(c, WorkerDelivers(c, tool).value)
    ensures ActorOk(c, p) ==> ActorOk(WorkerDelivers(c, tool).value, p)
  {
  }

  lemma AudioFrameKeeps(c: Core, n: nat, p: Actor)
    requires CoreInv(c) && c.out == Silent && PushAudioFrame(c, n).Ok?
    ensures CoreInv(PushAudioFrame(c, n).value) && Sends(c, PushAudioFrame(c, n).value)
    ensures ActorOk(c, p) ==> ActorOk(PushAudioFrame(c, n).value, p)
  {
  }

  /** `c1` differs from `c` only where neither the trace nor any caller looks. */
  predicate SameButTts(c: Core, c1: Core) {
    && c1 == c.(push := c1.push, worker := c1.worker, workerCancelled := c1.workerCancelled)
    && c1.push.open == c.push.open && c1.push.no == c.push.no
    && (c.closing && !WorkerRuns(c) ==> !WorkerRuns(c1))
  }

  lemma TtsKeeps(c: Core, c1: Core, p: Actor)
    requires CoreInv(c) && c.out == Silent && SameButTts(c, c1)
    ensures CoreInv(c1) && Sends(c, c1) && (ActorOk(c, p) ==> ActorOk(c1, p))
  {
  }

  lemma WorkerEndDoneKeeps(c: Core, p: Actor)
    requires CoreInv(c) && c.out == Silent && WorkerEndDone(c).Ok?
    ensures CoreInv(WorkerEndDone(c).value) && Sends(c, WorkerEndDone(c).value)
    ensures ActorOk(c, p) ==> ActorOk(WorkerEndDone(c).value, p)
  {
    ClosePushKeeps(c, c.worker.push);
    if ActorOk(c, p) { ClosePushStable(c, c.worker.push, p); }
    IdleWorker(ClosePush(c, c.worker.push), p);
  }

  /** The worker goes back to its queue. */
  lemma IdleWorker(c: Core, p: Actor)
    requires CoreInv(c) && WorkerRuns(c)
    ensures var c1 := c.(worker := AtQueue); CoreInv(c1) && Quiet(c, c1) && (ActorOk(c, p) ==> ActorOk(c1, p))
  {
  }

  lemma SenderFailsKeeps(c: Core, p: Actor)
    requires CoreInv(c) && c.out == Silent
    ensures var c1 := c.(senderOpen := false); CoreInv(c1) && Sends(c, c1) && (ActorOk(c, p) ==> ActorOk(c1, p))
  {
  }

  lemma WorkerStepKeeps(c: Core, e: WorkerTask, p: Actor)
    requires CoreInv(c) && c.out == Silent && WorkerStep(c, e).Ok?
    ensures SameButTts(c, WorkerStep(c, e).value)
    ensures CoreInv(WorkerStep(c, e).value) && Sends(c, WorkerStep(c, e).value)
    ensures ActorOk(c, p) ==> ActorOk(WorkerStep(c, e).value, p)
  {
    TtsKeeps(c, WorkerStep(c, e).value, p);
  }

  lemma TurnStepKeeps(c: Core, e: TurnTask, p: Actor)
    requires CoreInv(c) && c.out == Silent && TurnStep(c, e).Ok? && ActorOk(c, p)
    ensures CoreInv(TurnStep(c, e).value) && Sends(c, TurnStep(c, e).value) && ActorOk(TurnStep(c, e).value, p)
  {
    match e
    case TBegin(t) => TurnBeginKeeps(c, t); TurnBeginStable(c, t, p);
    case TSays(t, tool) => TurnSaysKeeps(c, t, tool, p);
    case TAudioStart(t) => TurnAudioKeeps(c, t, true, p);
    case TAudioFrame(t) => TurnAudioFrameKeeps(c, t, p);
    case TAudioStop(t) => TurnAudioKeeps(c, t, false, p);
    case TFinish(t) => TurnFinishKeeps(c, t); TurnFinishStable(c, t, p);
  }

  lemma TaskKeeps(c: Core, e: Task, p: Actor)
    requires CoreInv(c) && c.out == Silent && TaskStep(c, e).Ok? && ActorOk(c, p) && (e.WPassLock? ==> !Holds(p))
    ensures CoreInv(TaskStep(c, e).value) && Sends(c, TaskStep(c, e).value) && ActorOk(TaskStep(c, e).value, p)
  {
    match e
    case OfTurn(turn) => TurnStepKeeps(c, turn, p);
    case OfWorker(work) => WorkerStepKeeps(c, work, p);
    case WPassLock(enabled, own, audio) =>
      PassLockKeeps(c, enabled, own, audio);
      PassLockStable(c, enabled, own, audio, p);
    case WDelivers(tool) => DeliversKeeps(c, tool, p);
    case WEndDone => WorkerEndDoneKeeps(c, p);
    case AFrame(n) => AudioFrameKeeps(c, n, p);
    case ADone(n) => TtsKeeps(c, TaskStep(c, e).value, p);
    case SenderFails => SenderFailsKeeps(c, p);
  }

  // ---------------------------------------------------------------- callers

  /** `c2` keeps what `Sends` speaks of in `c1`. */
  predicate Quiet(c1: Core, c2: Core) {
    c2.out == c1.out && c2.senderOpen == c1.senderOpen && Expected(c2) == Expected(c1) && c2.seqNo == c1.seqNo
  }

  lemma CancelTaskKeeps(c: Core, t: nat, p: Actor)
    requires CoreInv(c) && t < |c.turns|
    ensures CoreInv(CancelTask(c, t)) && Quiet(c, CancelTask(c, t)) && (ActorOk(c, p) ==> ActorOk(CancelTask(c, t), p))
  {
  }

  lemma ForgetKeeps(c: Core, t: nat, p: Actor)
    requires CoreInv(c) && t < |c.turns| && IsOver(c, t)
    ensures CoreInv(Forget(c, t)) && Quiet(c, Forget(c, t)) && (ActorOk(c, p) ==> ActorOk(Forget(c, t), p))
  {
  }

  lemma CreateTurnKeeps(c: Core, p: Actor)
    requires CoreInv(c) && NoTurn(c) && !c.push.open
    ensures CoreInv(CreateTurn(c)) && Quiet(c, CreateTurn(c))
    ensures ActorOk(c, p) && !Holds(p) ==> ActorOk(CreateTurn(c), p)
  {
  }

  function Won(c: Core, t: nat): Core
    requires t < |c.turns|
  {
    SetTurn(c, t, c.turns[t].(wins := c.turns[t].wins + 1))
  }

  lemma WonKeeps(c: Core, t: nat, p: Actor)
    requires CoreInv(c) && t < |c.turns| && IsOver(c, t) && c.turns[t].wins == 0
    ensures CoreInv(Won(c, t)) && Quiet(c, Won(c, t))
    ensures ActorOk(c, p) && !Holds(p) ==> ActorOk(Won(c, t), p)
  {
  }

  lemma ClosingKeeps(c: Core, p: Actor)
    requires CoreInv(c)
    ensures var c1 := c.(closing := true); CoreInv(c1) && Quiet(c, c1) && (ActorOk(c, p) ==> ActorOk(c1, p))
  {
  }

  lemma EndAbandonedKeeps(c: Core, t: nat)
    requires CoreInv(c) && c.out == Silent && ActorOk(c, CloseWaitTurn(t))
    ensures CoreInv(EndAbandoned(c, t)) && Sends(c, EndAbandoned(c, t))
    ensures Settled(CancelWorker(EndAbandoned(c, t)))
  {
    if !IsOver(c, t) { assert c.active == Some(t); }
  }

  lemma EndAbandonedStable(c: Core, t: nat, p: Actor)
    requires CoreInv(c) && ActorOk(c, CloseWaitTurn(t)) && ActorOk(c, p) && !InClose(p)
    ensures ActorOk(EndAbandoned(c, t), p)
  {
    if !IsOver(c, t) { assert c.active == Some(t); }
  }

  lemma InterruptedKeeps(c: Core, no: Number, p: Actor)
    requires CoreInv(c) && c.out == Silent && Ended(c, no)
    ensures var c1 := Emit(c, Interrupted(no)); CoreInv(c1) && Sends(c, c1) && (ActorOk(c, p) ==> ActorOk(c1, p))
  {
  }

  lemma ClosedKeeps(c: Core, p: Actor)
    requires CoreInv(c) && Settled(c) && !c.push.open
    ensures var c1 := c.(closed := true); CoreInv(c1) && Quiet(c, c1) && (ActorOk(c, p) ==> ActorOk(c1, p))
  {
  }

  // ---------------------------------------------------------------- one caller at a time

  /** Caller `a` is where it was. */
  predicate Stays(s: Session, s1: Session, a: nat) { a in s.actors && a in s1.actors && s1.actors[a] == s.actors[a] }

  lemma ClosePuts(s: Session, e: Step, a: nat)
    requires a in s.actors && OfClose(e) && e.a != a && Move(s, e).Ok?
    ensures Stays(s, Move(s, e).value, a)
  {
  }

  lemma SendPuts(s: Session, e: Step, a: nat)
    requires a in s.actors && OfSend(e) && e.a != a && Move(s, e).Ok?
    ensures Stays(s, Move(s, e).value, a)
  {
  }

  lemma CancelPuts(s: Session, e: Step, a: nat)
    requires a in s.actors && OfCancel(e) && e.a != a && Move(s, e).Ok?
    ensures Stays(s, Move(s, e).value, a)
  {
  }

  /** A step of another caller or task leaves `a` where it is. */
  lemma OthersMove(s: Session, e: Step, a: nat)
    requires a in s.actors && !OfActor(e, a) && Next(s, e).Ok?
    ensures Stays(s, Next(s, e).value, a)
  {
    var s0 := s.(c := s.c.(out := Silent));
    if OfClose(e) {
      ClosePuts(s0, e, a);
    } else if OfSend(e) {
      SendPuts(s0, e, a);
    } else if OfCancel(e) {
      CancelPuts(s0, e, a);
    }
  }

  // ---------------------------------------------------------------- sessions

  predicate LockInv(s: Session) {
    && (forall a :: a in s.actors ==> (Holds(s.actors[a]) <==> s.turnLock == Some(a)))
    && (s.turnLock.Some? ==> s.turnLock.value in s.actors)
    && (forall a :: a in s.actors ==> (InClose(s.actors[a]) <==> s.closeLock == Some(a)))
    && (s.closeLock.Some? ==> s.closeLock.value in s.actors)
  }

  predicate Inv(s: Session) {
    && CoreInv(s.c) && LockInv(s)
    && (forall a :: a in s.actors ==> ActorOk(s.c, s.actors[a]))
    && (s.c.endedAtClose.Some? ==> s.c.closed || s.closeLock.Some?)
  }

  /** Caller `a` moves to `p` while the shared fields become `c`; the locks follow. */
  lemma Moved(s: Session, s1: Session, a: nat, p: Actor)
    requires LockInv(s) && CoreInv(s1.c) && ActorOk(s1.c, p)
    requires s1.actors == s.actors[a := p]
    requires forall b :: b in s.actors && b != a ==> ActorOk(s1.c, s.actors[b])
    requires if Holds(p) then s1.turnLock == Some(a) && (s.turnLock == None || s.turnLock == Some(a))
             else s1.turnLock == (if s.turnLock == Some(a) then None else s.turnLock)
    requires if InClose(p) then s1.closeLock == Some(a) && (s.closeLock == None || s.closeLock == Some(a))
             else s1.closeLock == (if s.closeLock == Some(a) then None else s.closeLock)
    requires s1.c.endedAtClose.Some? ==> s1.c.closed || s1.closeLock.Some?
    ensures Inv(s1)
  {
  }
}
