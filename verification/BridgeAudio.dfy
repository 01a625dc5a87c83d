/** Push audio and its bracket: when the audio of a push stays inside its turn, exactly.

    A cut (`_cut_push`) of a push on the session's own key waits for `chat.abort` before it
    closes the push. If the push worker is still inside `tts.connect` when the cut begins, the
    connect can return during that wait: the push still counts as open, so an audio task is
    created that nobody cancels, and its frames follow the push's `turn_end`. */
module BridgeAudio {
  import opened TurnFrames
  import opened Bridge
  import opened BridgeInvariant
  import opened BridgeSafety

  /** Some caller is inside `_cut_push`. */
  predicate CutInProgress(s: Session) {
    s.turnLock.Some? && s.turnLock.value in s.actors
    && (s.actors[s.turnLock.value].SendCutting? || s.actors[s.turnLock.value].Cutting?)
  }

  /** A cut is waiting while the TTS of the open push is still connecting. */
  predicate CutWhileConnecting(s: Session) {
    s.c.push.open && s.c.worker.Connecting? && s.c.push.no == Some(s.c.worker.push) && !s.c.workerCancelled
    && CutInProgress(s)
  }

  /** A live audio task belongs to the open push and is the one a cut or a close cancels. */
  predicate AudioInv(c: Core, cutting: bool) {
    && (!c.push.open || c.worker.Connecting? || c.worker.Recording? || cutting ==> c.push.tts == None)
    && (forall n :: n in c.push.live ==>
          && c.push.no == Some(n) && c.push.tts == Some(n) && c.push.audio == Some(n)
          && !c.worker.ClosingTts? && (c.worker.Draining? ==> c.worker.audio == Some(n)))
  }

  /** The teardown is past cancelling the push audio. */
  predicate AudioStopped(s: Session) {
    s.closeLock.Some? && s.closeLock.value in s.actors
    && (s.actors[s.closeLock.value].CloseWaitAudio? || s.actors[s.closeLock.value].CloseWaitTts?)
  }

  predicate SessionAudio(s: Session) {
    AudioInv(s.c, CutInProgress(s)) && (AudioStopped(s) ==> s.c.push.live == {})
  }

  lemma TurnAudio(c: Core, e: TurnTask, cutting: bool)
    requires AudioInv(c, cutting) && TurnStep(c, e).Ok?
    ensures AudioInv(TurnStep(c, e).value, cutting)
  {
  }

  lemma WorkerAudio(c: Core, e: WorkerTask, cutting: bool)
    requires CoreInv(c) && AudioInv(c, cutting) && WorkerStep(c, e).Ok?
    requires e.WConnected? && e.got && c.push.open && c.push.no == Some(c.worker.push) ==> !cutting
    ensures AudioInv(WorkerStep(c, e).value, cutting)
  {
  }

  lemma TaskAudio(c: Core, e: Task, cutting: bool)
    requires CoreInv(c) && AudioInv(c, cutting) && TaskStep(c, e).Ok?
    requires e == OfWorker(WConnected(true)) && c.push.open && c.push.no == Some(c.worker.push) ==> !cutting
    ensures AudioInv(TaskStep(c, e).value, cutting)
  {
    if e.OfTurn? { TurnAudio(c, e.turn, cutting); }
    if e.OfWorker? { WorkerAudio(c, e.work, cutting); }
  }

  lemma DropAudio(c: Core)
    requires AudioInv(c, false)
    ensures AudioInv(DropTts(c), true)
  {
  }

  /** A push whose TTS is gone may be closed. */
  lemma CloseAudio(c: Core, p: nat)
    requires AudioInv(c, false) && c.push.tts == None
    ensures AudioInv(ClosePush(c, p), false)
  {
  }

  lemma SendCutAudio(s: Session, c: Core, a: nat)
    requires AudioInv(c, false)
    ensures AudioInv(SendCut(s, c, a).c, CutInProgress(SendCut(s, c, a)))
  {
    DropAudio(c);
    if c.push.open && c.push.no.Some? && !CutSuspends(c) {
      CloseAudio(c, c.push.no.value);
    }
  }

  lemma TurnKeepsPush(c: Core, e: TurnTask)
    requires TurnStep(c, e).Ok?
    ensures TurnStep(c, e).value.push == c.push
  {
  }

  lemma WorkerStopped(c: Core, e: WorkerTask)
    requires !WorkerRuns(c) && WorkerStep(c, e).Ok?
    ensures WorkerStep(c, e).value.push == c.push
  {
  }

  /** A worker that no longer runs starts no audio. */
  lemma NoNewAudio(c: Core, e: Task)
    requires !WorkerRuns(c) && TaskStep(c, e).Ok?
    ensures TaskStep(c, e).value.push.live <= c.push.live
  {
    if e.OfTurn? {
      TurnKeepsPush(c, e.turn);
    } else if e.OfWorker? {
      WorkerStopped(c, e.work);
    }
  }

  lemma SendAcquireAudio(s: Session, a: nat)
    requires Inv(s) && SessionAudio(s) && SendAcquire(s, a).Ok?
    ensures SessionAudio(SendAcquire(s, a).value)
  {
    assert !CutInProgress(s);
    if !s.c.closing && NoTurn(s.c) {
      SendCutAudio(s, s.c, a);
    } else {
      WaitAudio(s, a);
    }
  }

  lemma WaitAudio(s: Session, a: nat)
    requires Inv(s) && SessionAudio(s) && SendAcquire(s, a).Ok? && (s.c.closing || !NoTurn(s.c)) && !CutInProgress(s)
    ensures SessionAudio(SendAcquire(s, a).value)
  {
  }

  lemma SendTurnOverAudio(s: Session, a: nat, own: bool)
    requires Inv(s) && SessionAudio(s) && SendTurnOver(s, a, own).Ok?
    ensures SessionAudio(SendTurnOver(s, a, own).value)
  {
    assert s.turnLock == Some(a);
    if !own { SendCutAudio(s, Forget(s.c, s.actors[a].turn), a); }
  }

  lemma SendCutDoneAudio(s: Session, a: nat)
    requires Inv(s) && SessionAudio(s) && SendCutDone(s, a).Ok?
    ensures SessionAudio(SendCutDone(s, a).value)
  {
    assert s.turnLock == Some(a);
    CloseAudio(s.c, s.actors[a].push);
  }

  lemma SendAudio(s: Session, e: Step)
    requires Inv(s) && SessionAudio(s) && Move(s, e).Ok?
    requires e.SSendEnter? || e.SSendAcquire? || e.SSendTurnOver? || e.SSendCutDone?
    ensures SessionAudio(Move(s, e).value)
  {
    match e
    case SSendEnter(a) =>
    case SSendAcquire(a) => SendAcquireAudio(s, a);
    case SSendTurnOver(a, own) => SendTurnOverAudio(s, a, own);
    case SSendCutDone(a) => SendCutDoneAudio(s, a);
    case _ =>
  }

  lemma CancelEnterAudio(s: Session, a: nat, reason: Reason)
    requires Inv(s) && SessionAudio(s) && CancelEnter(s, a, reason).Ok?
    ensures SessionAudio(CancelEnter(s, a, reason).value)
  {
  }

  lemma CancelAcquireAudio(s: Session, a: nat)
    requires Inv(s) && SessionAudio(s) && CancelAcquire(s, a).Ok?
    ensures SessionAudio(CancelAcquire(s, a).value)
  {
    assert !CutInProgress(s);
  }

  lemma CancelTurnOverAudio(s: Session, a: nat, own: bool)
    requires Inv(s) && SessionAudio(s) && CancelTurnOver(s, a, own).Ok?
    ensures SessionAudio(CancelTurnOver(s, a, own).value)
  {
    assert s.turnLock == Some(a);
  }

  lemma CancelAudio(s: Session, e: Step)
    requires Inv(s) && SessionAudio(s) && Move(s, e).Ok?
    requires e.SCancelEnter? || e.SCancelAcquire? || e.SCancelTurnOver? || e.SInterruptSent? || e.SActorCancelled?
    ensures SessionAudio(Move(s, e).value)
  {
    if e.SCancelEnter? {
      CancelEnterAudio(s, e.a, e.reason);
    } else if e.SCancelAcquire? {
      CancelAcquireAudio(s, e.a);
    } else if e.SCancelTurnOver? {
      CancelTurnOverAudio(s, e.a, e.own);
    } else {
      LeaveAudio(s, e);
    }
  }

  lemma LeaveAudio(s: Session, e: Step)
    requires Inv(s) && SessionAudio(s) && Move(s, e).Ok? && (e.SInterruptSent? || e.SActorCancelled?)
    ensures SessionAudio(Move(s, e).value)
  {
    assert Holds(s.actors[e.a]) ==> s.turnLock == Some(e.a);
  }

  lemma CutAudio(s: Session, e: Step)
    requires Inv(s) && SessionAudio(s) && Move(s, e).Ok?
    requires e.SCutAcquire? || e.SCutDone?
    ensures SessionAudio(Move(s, e).value)
  {
    match e
    case SCutAcquire(a) =>
      assert !CutInProgress(s);
      DropAudio(s.c);
      if !CutSuspends(s.c) { CloseAudio(s.c, s.actors[a].push); }
    case SCutDone(a) =>
      assert s.turnLock == Some(a);
      CloseAudio(s.c, s.actors[a].push);
    case _ =>
  }

  lemma CloseAudioSteps(s: Session, e: Step)
    requires Inv(s) && SessionAudio(s) && Move(s, e).Ok?
    requires e.SCloseWorkerOver? || e.SCloseAudioOver? || e.SCloseTtsOver? || e.SCloseEnd?
    ensures SessionAudio(Move(s, e).value)
  {
    assert !Holds(s.actors[e.a]) && s.closeLock == Some(e.a);
  }

  lemma CloseEnterAudio(s: Session, a: nat)
    requires Inv(s) && SessionAudio(s) && CloseEnter(s, a).Ok?
    ensures SessionAudio(CloseEnter(s, a).value)
  {
  }

  lemma CloseAcquireAudio(s: Session, a: nat)
    requires Inv(s) && SessionAudio(s) && CloseAcquire(s, a).Ok?
    ensures SessionAudio(CloseAcquire(s, a).value)
  {
    assert !Holds(s.actors[a]);
  }

  lemma CloseTurnOverAudio(s: Session, a: nat)
    requires Inv(s) && SessionAudio(s) && CloseTurnOver(s, a).Ok?
    ensures SessionAudio(CloseTurnOver(s, a).value)
  {
    assert !Holds(s.actors[a]);
  }

  lemma MoveAudio(s: Session, e: Step)
    requires Inv(s) && SessionAudio(s) && !CutWhileConnecting(s) && Move(s, e).Ok?
    ensures SessionAudio(Move(s, e).value)
  {
    if e.Do? {
      TaskAudio(s.c, e.task, CutInProgress(s));
      if AudioStopped(s) {
        assert ActorOk(s.c, s.actors[s.closeLock.value]);
        NoNewAudio(s.c, e.task);
      }
    } else if e.SSendEnter? || e.SSendAcquire? || e.SSendTurnOver? || e.SSendCutDone? {
      SendAudio(s, e);
    } else if e.SCutAcquire? || e.SCutDone? {
      CutAudio(s, e);
    } else if e.SCancelEnter? || e.SCancelAcquire? || e.SCancelTurnOver? || e.SInterruptSent? || e.SActorCancelled? {
      CancelAudio(s, e);
    } else if e.SCloseEnter? {
      CloseEnterAudio(s, e.a);
    } else if e.SCloseAcquire? {
      CloseAcquireAudio(s, e.a);
    } else if e.SCloseTurnOver? {
      CloseTurnOverAudio(s, e.a);
    } else {
      CloseAudioSteps(s, e);
    }
  }

  // ---------------------------------------------------------------- runs

  /** No state of the run has a cut waiting while the push TTS connects. */
  predicate Undisturbed(steps: seq<Step>) {
    && Exec(steps).Ok? && !CutWhileConnecting(Exec(steps).value)
    && (|steps| > 0 ==> Undisturbed(steps[..|steps| - 1]))
  }

  lemma AudioFits(c: Core, c1: Core, cutting: bool)
    requires CoreInv(c) && AudioInv(c, cutting) && Sends(c, c1) && c1.out.Sent? && c1.out.frame.PushAudio?
    ensures Expected(c) == Some(c1.out.frame.no)
  {
  }

  lemma TraceFits(t: seq<Frame>, s: Session, c1: Core)
    requires CoreInv(s.c) && SessionAudio(s) && Sends(s.c, c1) && s.c.seqNo <= c1.seqNo
    requires Traced(s, true) && t == s.trace
    ensures var t1 := if c1.out.Sent? then t + [c1.out.frame] else t;
            && Bracketed(t1, true) && Top(t1) <= c1.seqNo
            && (c1.senderOpen ==> Open(t1) == Expected(c1) && AllStarted(t1, c1.seqNo))
  {
    if c1.out.Sent? && c1.out.frame.PushAudio? { AudioFits(s.c, c1, CutInProgress(s)); }
    TraceGrows(t, s.c, c1, true);
  }

  lemma SilencedAudio(s: Session)
    requires SessionAudio(s) && !CutWhileConnecting(s) && Traced(s, true)
    ensures var s0 := s.(c := s.c.(out := Silent)); SessionAudio(s0) && !CutWhileConnecting(s0) && Traced(s0, true)
  {
  }

  lemma NextAudio(s: Session, e: Step)
    requires Inv(s) && Traced(s, true) && SessionAudio(s) && !CutWhileConnecting(s) && Next(s, e).Ok?
    ensures Inv(Next(s, e).value) && Traced(Next(s, e).value, true) && SessionAudio(Next(s, e).value)
  {
    var s0 := s.(c := s.c.(out := Silent));
    Silenced(s);
    SilencedAudio(s);
    MoveKeeps(s0, e);
    MoveAudio(s0, e);
    var s1 := Move(s0, e).value;
    TraceFits(s.trace, s0, s1.c);
    Retraced(s1, Next(s, e).value.trace);
    RetracedAudio(s1, Next(s, e).value.trace);
  }

  lemma RetracedAudio(s: Session, t: seq<Frame>)
    requires SessionAudio(s)
    ensures SessionAudio(s.(trace := t))
  {
  }

  lemma {:induction false} UndisturbedKeeps(steps: seq<Step>)
    requires Undisturbed(steps)
    ensures Inv(Exec(steps).value) && Traced(Exec(steps).value, true) && SessionAudio(Exec(steps).value)
  {
    if |steps| == 0 {
      InitialOk();
    } else {
      UndisturbedKeeps(steps[..|steps| - 1]);
      NextAudio(Exec(steps[..|steps| - 1]).value, steps[|steps| - 1]);
    }
  }

  /** Without such a cut, push audio too stays inside its own bracket, in every run. */
  lemma PushAudioIsBracketed(steps: seq<Step>, s: Session)
    requires Reaches(steps, s) && Undisturbed(steps)
    ensures Bracketed(s.trace, true)
  {
    UndisturbedKeeps(steps);
  }

  lemma ExecSnoc(steps: seq<Step>, e: Step)
    requires Exec(steps).Ok?
    ensures Exec(steps + [e]) == Next(Exec(steps).value, e)
  {
    assert (steps + [e])[..|steps|] == steps;
  }

  function CutEndStep(s: Session): Step
    requires CutInProgress(s)
  {
    if s.actors[s.turnLock.value].SendCutting? then SSendCutDone(s.turnLock.value) else SCutDone(s.turnLock.value)
  }

  /** The connect returns while the cut waits: an audio task is born that the cut will not see. */
  lemma LateConnect(s: Session)
    requires CutWhileConnecting(s)
    ensures var r := Next(s, Do(OfWorker(WConnected(true))));
            r.Ok? && r.value == s.(c := r.value.c) && r.value.c.senderOpen == s.c.senderOpen
            && r.value.c.push == s.c.push.(tts := Some(s.c.worker.push), audio := Some(s.c.worker.push),
                                           live := s.c.push.live + {s.c.worker.push})
  {
  }

  lemma CutCloses(s: Session, p: nat)
    requires CutInProgress(s) && s.c.push.open && s.c.push.no == Some(p) && s.c.senderOpen
    requires s.actors[s.turnLock.value].push == p
    ensures var r := Next(s, CutEndStep(s));
            && r.Ok? && r.value.trace == s.trace + [TurnEnd(p)]
            && r.value.c.push.live == s.c.push.live && r.value.c.senderOpen
  {
  }

  lemma LeakedFrame(s: Session, p: nat)
    requires p in s.c.push.live && s.c.senderOpen
    ensures var r := Next(s, Do(AFrame(p))); r.Ok? && r.value.trace == s.trace + [PushAudio(p)]
  {
  }

  /** The condition is exact: from every reachable state with such a cut and the sender open,
      three more steps put a push audio frame after the `turn_end` of its turn. */
  lemma CutWhileConnectingLeaks(steps: seq<Step>, s: Session) returns (more: seq<Step>, end: Session)
    requires Reaches(steps, s) && CutWhileConnecting(s) && s.c.senderOpen
    ensures Reaches(steps + more, end) && !Bracketed(end.trace, true)
  {
    var p := s.c.worker.push;
    Reached(steps);
    assert ActorOk(s.c, s.actors[s.turnLock.value]);
    var e1 := Do(OfWorker(WConnected(true)));
    LateConnect(s);
    ExecSnoc(steps, e1);
    var s1 := Next(s, e1).value;
    var e2 := CutEndStep(s1);
    CutCloses(s1, p);
    ExecSnoc(steps + [e1], e2);
    var s2 := Next(s1, e2).value;
    var e3 := Do(AFrame(p));
    LeakedFrame(s2, p);
    ExecSnoc(steps + [e1] + [e2], e3);
    more := [e1, e2, e3];
    assert steps + more == steps + [e1] + [e2] + [e3];
    end := Next(s2, e3).value;
    Snoc(s1.trace, TurnEnd(p), true);
    Snoc(s2.trace, PushAudio(p), true);
  }

  // ---------------------------------------------------------------- the guard

  /** What a caller of `_cut_push` could check first: the open push is on the session's own
      key and its TTS is still connecting. */
  predicate TtsStillConnecting(c: Core) {
    c.push.open && c.push.own && c.worker.Connecting? && c.push.no == Some(c.worker.push) && !c.workerCancelled
  }

  /** Step `e` gets the turn lock and begins to cut the open push. */
  predicate BeginsCut(s: Session, e: Step) {
    || (e.SSendAcquire? && !s.c.closing && NoTurn(s.c))
    || (e.SCutAcquire? && e.a in s.actors && s.actors[e.a].CutWaitLock? && s.c.push.no == Some(s.actors[e.a].push))
  }

  predicate AtRisk(c: Core) {
    c.push.open && c.worker.Connecting? && c.push.no == Some(c.worker.push) && !c.workerCancelled
  }

  lemma TurnRisk(c: Core, e: TurnTask)
    requires TurnStep(c, e).Ok? && AtRisk(TurnStep(c, e).value)
    ensures AtRisk(c)
  {
  }

  lemma WorkerRisk(c: Core, e: WorkerTask)
    requires WorkerStep(c, e).Ok?
    ensures AtRisk(WorkerStep(c, e).value) ==> AtRisk(c)
  {
  }

  lemma TaskGuard(c: Core, e: Task)
    requires TaskStep(c, e).Ok? && !e.WPassLock? && AtRisk(TaskStep(c, e).value)
    ensures AtRisk(c)
  {
    if e.OfTurn? { TurnRisk(c, e.turn); }
    if e.OfWorker? { WorkerRisk(c, e.work); }
  }

  lemma SendGuard(s: Session, e: Step)
    requires Inv(s) && SessionAudio(s) && !CutWhileConnecting(s) && Move(s, e).Ok?
    requires e.SSendEnter? || e.SSendAcquire? || e.SSendTurnOver? || e.SSendCutDone?
    ensures CutWhileConnecting(Move(s, e).value) <==> BeginsCut(s, e) && TtsStillConnecting(s.c)
  {
    if !e.SSendEnter? {
      assert ActorOk(s.c, s.actors[e.a]);
      assert Holds(s.actors[e.a]) <==> s.turnLock == Some(e.a);
    }
  }

  lemma CutGuard(s: Session, e: Step)
    requires Inv(s) && SessionAudio(s) && !CutWhileConnecting(s) && Move(s, e).Ok?
    requires e.SCutAcquire? || e.SCutDone?
    ensures CutWhileConnecting(Move(s, e).value) <==> BeginsCut(s, e) && TtsStillConnecting(s.c)
  {
    assert Holds(s.actors[e.a]) <==> s.turnLock == Some(e.a);
  }

  lemma OtherGuard(s: Session, e: Step)
    requires Inv(s) && !CutWhileConnecting(s) && Move(s, e).Ok?
    requires e.SCancelEnter? || e.SCancelAcquire? || e.SCancelTurnOver? || e.SInterruptSent? || e.SActorCancelled?
    ensures !CutWhileConnecting(Move(s, e).value)
  {
    if !e.SCancelEnter? { assert Holds(s.actors[e.a]) <==> s.turnLock == Some(e.a); }
  }

  lemma CloseGuard(s: Session, e: Step)
    requires Inv(s) && !CutWhileConnecting(s) && Move(s, e).Ok?
    requires e.SCloseEnter? || e.SCloseAcquire? || e.SCloseTurnOver? || e.SCloseWorkerOver? || e.SCloseAudioOver?
             || e.SCloseTtsOver? || e.SCloseEnd?
    ensures !CutWhileConnecting(Move(s, e).value)
  {
    if !e.SCloseEnter? { assert Holds(s.actors[e.a]) <==> s.turnLock == Some(e.a); }
  }

  /** A run gets into that state exactly when a cut begins although the guard holds. */
  lemma LeakNeedsGuard(s: Session, e: Step)
    requires Inv(s) && SessionAudio(s) && !CutWhileConnecting(s) && Move(s, e).Ok?
    ensures CutWhileConnecting(Move(s, e).value) <==> BeginsCut(s, e) && TtsStillConnecting(s.c)
  {
    if e.Do? {
      if AtRisk(Move(s, e).value.c) && !e.task.WPassLock? { TaskGuard(s.c, e.task); }
    } else if e.SSendEnter? || e.SSendAcquire? || e.SSendTurnOver? || e.SSendCutDone? {
      SendGuard(s, e);
    } else if e.SCutAcquire? || e.SCutDone? {
      CutGuard(s, e);
    } else if e.SCancelEnter? || e.SCancelAcquire? || e.SCancelTurnOver? || e.SInterruptSent? || e.SActorCancelled? {
      OtherGuard(s, e);
    } else {
      CloseGuard(s, e);
    }
  }

  /** In the whole run no cut begins although the guard holds. */
  predicate Guarded(steps: seq<Step>) {
    && Exec(steps).Ok?
    && (|steps| > 0 ==>
          && Guarded(steps[..|steps| - 1])
          && var s := Exec(steps[..|steps| - 1]).value;
             !(BeginsCut(s, steps[|steps| - 1]) && TtsStillConnecting(s.c)))
  }

  lemma GuardStep(s: Session, e: Step)
    requires Inv(s) && SessionAudio(s) && Traced(s, true) && !CutWhileConnecting(s) && Next(s, e).Ok?
    ensures CutWhileConnecting(Next(s, e).value) <==> BeginsCut(s, e) && TtsStillConnecting(s.c)
  {
    var s0 := s.(c := s.c.(out := Silent));
    Silenced(s);
    SilencedAudio(s);
    LeakNeedsGuard(s0, e);
  }

  /** So the runs that `PushAudioIsBracketed` covers are exactly the guarded ones. */
  lemma {:induction false} GuardIsExact(steps: seq<Step>, s: Session)
    requires Reaches(steps, s)
    ensures Undisturbed(steps) <==> Guarded(steps)
  {
    if |steps| == 0 {
    } else {
      var before := steps[..|steps| - 1];
      GuardIsExact(before, Exec(before).value);
      if Undisturbed(before) {
        UndisturbedKeeps(before);
        GuardStep(Exec(before).value, steps[|steps| - 1]);
      }
    }
  }

  /** Nothing happened yet but for the worker. */
  function Idle(w: Worker): Session { Initial().(c := Initial().c.(worker := w)) }

  function PushOpened(): Session {
    Session(Core(Sent(TurnStart(1)), true, false, false, [], None, None, 1, None,
                 Push(true, Some(1), true, None, None, {}), Connecting(1), false),
            None, None, map[], [TurnStart(1)])
  }

  lemma WorkerComes(steps: seq<Step>)
    requires Exec(steps) == Ok(Initial())
    ensures Exec(steps + [Do(OfWorker(WSpawn))]) == Ok(Idle(AtQueue))
  {
    ExecSnoc(steps, Do(OfWorker(WSpawn)));
  }

  lemma EventTaken(steps: seq<Step>)
    requires Exec(steps) == Ok(Idle(AtQueue))
    ensures Exec(steps + [Do(OfWorker(WTakeStart))]) == Ok(Idle(WaitTurn))
  {
    ExecSnoc(steps, Do(OfWorker(WTakeStart)));
  }

  lemma NoTurnSeen(steps: seq<Step>)
    requires Exec(steps) == Ok(Idle(WaitTurn))
    ensures Exec(steps + [Do(OfWorker(WTurnOver))]) == Ok(Idle(WaitLock))
  {
    ExecSnoc(steps, Do(OfWorker(WTurnOver)));
  }

  lemma PushOpens(steps: seq<Step>)
    requires Exec(steps) == Ok(Idle(WaitLock))
    ensures Exec(steps + [Do(WPassLock(true, true, true))]) == Ok(PushOpened())
  {
    ExecSnoc(steps, Do(WPassLock(true, true, true)));
    var c := Idle(WaitLock).c;
    assert c.(out := Silent) == c;
    assert WorkerPassLock(c, true, true, true) == Ok(PushOpened().c);
    assert [] + [TurnStart(1)] == [TurnStart(1)];
  }

  lemma SendArrives(steps: seq<Step>)
    requires Exec(steps) == Ok(PushOpened())
    ensures var r := Exec(steps + [SSendEnter(0)] + [SSendAcquire(0)]);
            r.Ok? && CutWhileConnecting(r.value) && r.value.c.senderOpen
  {
    ExecSnoc(steps, SSendEnter(0));
    ExecSnoc(steps + [SSendEnter(0)], SSendAcquire(0));
  }

  /** The state is reachable: a `send` arrives while the TTS of a fresh push connects. */
  lemma LeakIsReachable() returns (steps: seq<Step>, s: Session)
    ensures Reaches(steps, s) && CutWhileConnecting(s) && s.c.senderOpen
  {
    steps := [];
    WorkerComes(steps);
    steps := steps + [Do(OfWorker(WSpawn))];
    EventTaken(steps);
    steps := steps + [Do(OfWorker(WTakeStart))];
    NoTurnSeen(steps);
    steps := steps + [Do(OfWorker(WTurnOver))];
    PushOpens(steps);
    steps := steps + [Do(WPassLock(true, true, true))];
    SendArrives(steps);
    steps := steps + [SSendEnter(0)] + [SSendAcquire(0)];
    s := Exec(steps).value;
  }
}
