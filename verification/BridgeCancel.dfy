/** What a cancel may do to a turn other than the one it was called for, over whole runs. */
module BridgeCancel {
  import opened TurnFrames
  import opened Bridge
  import opened BridgeInvariant
  import opened BridgeSafety

  /** Callers that are through with `_cancel_turn`. */
  predicate PastCancel(p: Actor) { p.Interrupting? || p.CutWaitLock? || p.Cutting? || p.Finished? }

  /** Caller `a` waits for the turn it cancelled. */
  predicate Waits(s: Session, a: nat) { a in s.actors && s.actors[a].CancelWaitTurn? }

  /** Nothing that a cancel in progress relies on has changed. */
  predicate SameTurns(s: Session, s1: Session, a: nat) {
    && a in s.actors && a in s1.actors && s1.actors[a] == s.actors[a]
    && |s1.c.turns| == |s.c.turns| && s1.c.active == s.c.active
  }

  predicate Past(s: Session, a: nat) { a in s.actors && PastCancel(s.actors[a]) }

  lemma TaskSpares(c: Core, e: Task)
    requires TaskStep(c, e).Ok?
    ensures TaskStep(c, e).value.active == c.active
  {
    match e
    case OfTurn(turn) => TurnSpares(c, turn);
    case OfWorker(work) => WorkerSpares(c, work);
    case _ =>
  }

  lemma TurnSpares(c: Core, e: TurnTask)
    requires TurnStep(c, e).Ok?
    ensures TurnStep(c, e).value.active == c.active
  {
  }

  lemma WorkerSpares(c: Core, e: WorkerTask)
    requires WorkerStep(c, e).Ok?
    ensures WorkerStep(c, e).value.active == c.active
  {
  }

  /** The caller itself moves only by its own step. */
  lemma OwnStep(s: Session, e: Step, a: nat)
    requires Waits(s, a) && Move(s, e).Ok? && !e.Do? && e.a == a
    ensures e.SCancelTurnOver? && Past(Move(s, e).value, a)
  {
  }

  /** No other caller can create or forget a turn while `a` holds the turn lock. */
  lemma OtherStep(s: Session, e: Step, a: nat)
    requires LockInv(s) && Waits(s, a) && Move(s, e).Ok? && !e.Do? && e.a != a
    ensures SameTurns(s, Move(s, e).value, a)
  {
    assert Holds(s.actors[a]) && s.turnLock == Some(a);
    if e.a in s.actors { assert !Holds(s.actors[e.a]); }
  }

  lemma WaitStep(s: Session, e: Step, a: nat)
    requires Inv(s) && Waits(s, a) && Next(s, e).Ok?
    ensures Past(Next(s, e).value, a) || SameTurns(s, Next(s, e).value, a)
  {
    var s0 := s.(c := s.c.(out := Silent));
    if e.Do? {
      TaskSpares(s0.c, e.task);
    } else if e.a == a {
      OwnStep(s0, e, a);
    } else {
      OtherStep(s0, e, a);
    }
  }

  lemma PastStep(s: Session, e: Step, a: nat)
    requires Past(s, a) && Next(s, e).Ok?
    ensures Past(Next(s, e).value, a)
  {
    if OfActor(e, a) {
      OwnPastStep(s.(c := s.c.(out := Silent)), e, a);
    } else {
      OthersMove(s, e, a);
    }
  }

  lemma OwnPastStep(s: Session, e: Step, a: nat)
    requires Past(s, a) && Move(s, e).Ok? && OfActor(e, a)
    ensures Past(Move(s, e).value, a)
  {
  }

  /** From the moment the wait begins: it is still going on and no turn was created, forgotten or
      replaced; or the call is over. */
  lemma {:induction false} WaitRun(steps: seq<Step>, s: Session, mid: seq<Step>, s1: Session, a: nat)
    requires Reaches(steps, s) && Waits(s, a) && Reaches(steps + mid, s1)
    ensures Past(s1, a) || SameTurns(s, s1, a)
    decreases |mid|
  {
    if |mid| == 0 {
      assert steps + mid == steps;
    } else {
      var s0 := LastStep(steps, mid, s1);
      WaitRun(steps, s, mid[..|mid| - 1], s0, a);
      ReachedState(steps + mid[..|mid| - 1], s0);
      if Past(s0, a) {
        PastStep(s0, mid[|mid| - 1], a);
      } else {
        WaitStep(s0, mid[|mid| - 1], a);
      }
    }
  }

  lemma {:induction false} PastRun(steps: seq<Step>, s: Session, mid: seq<Step>, s1: Session, a: nat)
    requires Reaches(steps, s) && Past(s, a) && Reaches(steps + mid, s1)
    ensures Past(s1, a)
    decreases |mid|
  {
    if |mid| == 0 {
      assert steps + mid == steps;
    } else {
      var s0 := LastStep(steps, mid, s1);
      PastRun(steps, s, mid[..|mid| - 1], s0, a);
      PastStep(s0, mid[|mid| - 1], a);
    }
  }

  /** What the call does when it gets the lock. */
  lemma AcquireStep(s: Session, a: nat, s1: Session)
    requires Inv(s) && Next(s, SCancelAcquire(a)) == Ok(s1)
    ensures a in s.actors && s.actors[a].CancelWaitLock?
    ensures if Alive(s, s.actors[a].turn)
            then Waits(s1, a) && s1.actors[a].turn == s.actors[a].turn && |s1.c.turns| == |s.c.turns|
                 && s1.c.active == s.c.active == Some(s.actors[a].turn)
            else Past(s1, a) && s1.c == s.c.(out := Silent)
  {
    assert ActorOk(s.c, s.actors[a]);
  }

  lemma {:induction false} PrefixReached(steps: seq<Step>, mid: seq<Step>, s1: Session) returns (s: Session)
    requires Reaches(steps + mid, s1)
    ensures Reaches(steps, s)
    decreases |mid|
  {
    if |mid| == 0 {
      assert steps + mid == steps;
      s := s1;
    } else {
      var before := LastStep(steps, mid, s1);
      s := PrefixReached(steps, mid[..|mid| - 1], before);
    }
  }

  lemma OneStep(steps: seq<Step>, s: Session, e: Step, s1: Session)
    requires Reaches(steps, s) && Reaches(steps + [e], s1)
    ensures Next(s, e) == Ok(s1)
  {
    var before := LastStep(steps, [e], s1);
    assert steps + [e][..0] == steps;
  }

  lemma Held(steps: seq<Step>, s: Session, a: nat, mid: seq<Step>, s1: Session)
    requires Reaches(steps, s) && a in s.actors && s.actors[a].CancelWaitLock?
    requires Reaches(steps + [SCancelAcquire(a)] + mid, s1) && !Past(s1, a)
    ensures |s1.c.turns| == |s.c.turns| && s1.c.active == Some(s.actors[a].turn)
    ensures Inv(s1) && Waits(s1, a) && s1.actors[a].turn == s.actors[a].turn
  {
    var begun := steps + [SCancelAcquire(a)];
    var s0 := PrefixReached(begun, mid, s1);
    OneStep(steps, s, SCancelAcquire(a), s0);
    ReachedState(steps, s);
    AcquireStep(s, a, s0);
    if Past(s0, a) {
      PastRun(begun, s0, mid, s1, a);
    } else {
      WaitRun(begun, s0, mid, s1, a);
    }
    ReachedState(begun + mid, s1);
  }

  lemma OverStepEnabled(s: Session, a: nat, own: bool, s1: Session)
    requires Next(s, SCancelTurnOver(a, own)) == Ok(s1)
    ensures Waits(s, a) && IsOver(s.c, s.actors[a].turn) && !Past(s, a)
  {
  }

  lemma OverStep(s: Session, a: nat, own: bool, s1: Session)
    requires Inv(s) && Waits(s, a) && s.c.active == Some(s.actors[a].turn)
    requires Next(s, SCancelTurnOver(a, own)) == Ok(s1)
    ensures s1.c.active == None && |s1.c.turns| == |s.c.turns| && forall u :: !Alive(s1, u)
  {
    assert forall u :: !Alive(s, u);
    assert forall u :: 0 <= u < |s.c.turns| ==> s1.c.turns[u].phase == s.c.turns[u].phase;
  }

  // ---------------------------------------------------------------- main results

  /** A turn started while the call waited for the lock is neither cancelled nor forgotten: the
      call finds its own target over, changes no turn and reports nothing. */
  lemma CancelSparesNewer(steps: seq<Step>, s: Session, a: nat, s1: Session, u: nat)
    requires Reaches(steps, s) && Next(s, SCancelAcquire(a)) == Ok(s1)
    requires Alive(s, u) && (a in s.actors && s.actors[a].CancelWaitLock? ==> u != s.actors[a].turn)
    ensures s1.c.turns == s.c.turns && s1.c.active == Some(u) && Alive(s1, u) && Past(s1, a)
  {
    ReachedState(steps, s);
    AcquireStep(s, a, s1);
  }

  /** Across the whole wait of a cancel, from the step that gets the lock and cancels the turn
      to any later state in which the call is not over: no turn is created, the reference stays
      on the cancelled turn, and no other turn is alive. */
  lemma CancelKeepsReference(steps: seq<Step>, s: Session, a: nat, mid: seq<Step>, s1: Session, u: nat)
    requires Reaches(steps, s) && a in s.actors && s.actors[a].CancelWaitLock?
    requires Reaches(steps + [SCancelAcquire(a)] + mid, s1) && !Past(s1, a)
    ensures |s1.c.turns| == |s.c.turns| && s1.c.active == Some(s.actors[a].turn)
    ensures Alive(s1, u) ==> u == s.actors[a].turn
  {
    Held(steps, s, a, mid, s1);
  }

  /** So a call that gets to report success leaves no turn alive and nothing referenced: whatever
      the interleaving, clearing `_active_turn` loses no turn. */
  lemma SuccessLosesNothing(steps: seq<Step>, s: Session, a: nat, mid: seq<Step>, s1: Session, own: bool, s2: Session)
    requires Reaches(steps, s) && a in s.actors && s.actors[a].CancelWaitLock?
    requires Reaches(steps + [SCancelAcquire(a)] + mid, s1) && Next(s1, SCancelTurnOver(a, own)) == Ok(s2)
    ensures s2.c.active == None && |s2.c.turns| == |s.c.turns| && forall u :: !Alive(s2, u)
  {
    OverStepEnabled(s1, a, own, s2);
    Held(steps, s, a, mid, s1);
    OverStep(s1, a, own, s2);
  }
}
