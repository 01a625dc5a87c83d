/** The reconnecting wrapper around the one OpenClaw connection (`openclaw/reconnecting.py`):
    its breaker, its two background tasks, and the lock and listener of the inner client. */
module Reconnecting {
  import opened Health

  /** `Nap`: asleep. `Queued`: waiting for the connect lock. `Closing`: holding it and closing
      the previous connection, whose listener may run until the end of this phase. `Shaking`:
      holding it, in the handshake. */
  datatype Phase = Nap | Queued | Closing | Shaking

  datatype Kind = Reconnect | SlowRetry

  /** `doomed`: cancelled. It may hold the lock while it closes things, but never succeeds. */
  datatype Task = Task(kind: Kind, phase: Phase, doomed: bool)

  /** `tasks` holds the unfinished tasks; `reconnect` and `slow` are the wrapper's references,
      0 for None; `lock` is the holder of the connect lock, 0 for none; `link`: a listener is
      reading an open socket; `job` numbers the reconnect jobs. */
  datatype State = State(
    mode: Mode, exhausted: bool, closed: bool, job: nat, reconnect: nat, slow: nat,
    tasks: map<nat, Task>, next: nat, lock: nat, link: bool)

  const START := State(Degraded, false, false, 0, 0, 0, map[], 1, 0, false)

  // ---------------------------------------------------------------- what the wrapper does

  /** `_ensure_reconnecting` */
  function Ensure(s: State): State {
    if s.exhausted || s.closed || s.reconnect in s.tasks then s
    else s.(job := s.job + 1, mode := Mode.Reconnecting, reconnect := s.next,
            tasks := s.tasks[s.next := Task(Reconnect, Queued, false)], next := s.next + 1)
  }

  /** `_start_slow_retry` */
  function StartSlow(s: State): State {
    if s.closed || s.slow in s.tasks then s
    else s.(slow := s.next, tasks := s.tasks[s.next := Task(SlowRetry, Nap, false)], next := s.next + 1)
  }

  function Doom(tasks: map<nat, Task>, id: nat): map<nat, Task> {
    if id in tasks then tasks[id := tasks[id].(doomed := true)] else tasks
  }

  /** `_cancel_slow_retry` */
  function CancelSlow(s: State): State { s.(slow := 0, tasks := Doom(s.tasks, s.slow)) }

  /** `trigger_reconnect` */
  function Trigger(s: State): State { Ensure(CancelSlow(s.(exhausted := false))) }

  /** `ping`, and `stream_response` on its way to refusing a turn. */
  function Probe(s: State): State { if s.mode == Degraded then Ensure(s) else s }

  /** `connect`, from its success or failure on; the attempt has ended the previous connection. */
  function Connect(s: State, ok: bool): State {
    if ok then s.(mode := Connected, exhausted := false, link := true) else Ensure(s.(link := false))
  }

  /** It is called once, at start-up. */
  function First(ok: bool): State { Connect(START, ok) }

  /** `close` up to its first suspension: it cancels the slow retry, and the reconnection too
      unless there is a slow retry to wait for. */
  function Close(s: State): State {
    var s1 := CancelSlow(s.(closed := true));
    if s.slow in s.tasks then s1 else s1.(tasks := Doom(s1.tasks, s.reconnect))
  }

  /** The task is over and gives back the lock it may hold. */
  function Finish(s: State, id: nat): State {
    s.(tasks := s.tasks - {id}, lock := if s.lock == id then 0 else s.lock)
  }

  /** The cancellation of a task lands. A teardown it is in the middle of is finished first. */
  function Cancelled(s: State, id: nat): State
    requires id in s.tasks
  {
    Finish(s, id).(link := s.link && s.tasks[id].phase != Closing)
  }

  /** How a handshake ends; `GiveUp` is a failure past `max_duration`. */
  datatype Outcome = Succeed | Fail | GiveUp

  /** One step of a background task, from one suspension to the next. */
  function Advance(s: State, id: nat, outcome: Outcome): State {
    if id !in s.tasks then s
    else
      var t := s.tasks[id];
      if t.doomed then Cancelled(s, id)
      else match t.phase
        case Nap =>
          if t.kind == SlowRetry && !s.exhausted then Finish(s, id)
          else s.(tasks := s.tasks[id := t.(phase := Queued)])
        case Queued =>
          if s.lock != 0 then s
          else s.(lock := id, tasks := s.tasks[id := t.(phase := Closing)])
        case Closing => s.(link := false, tasks := s.tasks[id := t.(phase := Shaking)])
        case Shaking =>
          if outcome == Succeed then
            Finish(s, id).(mode := Connected, link := true, exhausted := t.kind == Reconnect && s.exhausted)
          else if outcome == GiveUp && t.kind == Reconnect then
            StartSlow(Finish(s, id).(mode := Degraded, exhausted := true))
          else s.(lock := 0, tasks := s.tasks[id := t.(phase := Nap)])
  }

  /** `Drop`: the listener ends because the connection did, and `on_disconnect` fires.
      `CloseOn` and `CloseLink` are the rest of `close`, once its waits are over. */
  datatype Event =
    | Drop | Probing | Triggering | Step(id: nat, outcome: Outcome) | Closes | CloseOn | CloseLink

  function Next(s: State, e: Event): State {
    match e
    case Drop => if s.link then Ensure(s.(link := false)) else s
    case Probing => Probe(s)
    case Triggering => Trigger(s)
    case Step(id, outcome) => Advance(s, id, outcome)
    case Closes => Close(s)
    case CloseOn => if s.closed then s.(tasks := Doom(s.tasks, s.reconnect)) else s
    case CloseLink => if s.closed then s.(link := false) else s
  }

  function Run(s: State, evs: seq<Event>): State {
    if |evs| == 0 then s else Next(Run(s, evs[..|evs| - 1]), evs[|evs| - 1])
  }

  // ---------------------------------------------------------------- the wrapper as an object

  /** The wrapper's fields with the event loop's view of its tasks. */
  class ReconnectingOpenClawClient {
    var mode: Mode
    var exhausted: bool
    var closed: bool
    var job: nat
    var reconnectTask: nat
    var slowRetryTask: nat
    var tasks: map<nat, Task>
    var next: nat
    var lock: nat
    var link: bool

    ghost function Abs(): State
      reads this
    {
      State(mode, exhausted, closed, job, reconnectTask, slowRetryTask, tasks, next, lock, link)
    }

    constructor ()
      ensures Abs() == START
    {
      mode, exhausted, closed, job, reconnectTask, slowRetryTask := Degraded, false, false, 0, 0, 0;
      tasks, next, lock, link := map[], 1, 0, false;
    }

    method CreateTask(kind: Kind, phase: Phase) returns (id: nat)
      modifies this`tasks, this`next
      ensures id == old(next) && next == id + 1 && tasks == old(tasks)[id := Task(kind, phase, false)]
    {
      id := next;
      tasks := tasks[id := Task(kind, phase, false)];
      next := next + 1;
    }

    method EnsureReconnecting() returns (jobId: nat)
      modifies this
      ensures Abs() == Ensure(old(Abs())) && jobId == job
    {
      if exhausted || closed {
        return job;
      }
      if reconnectTask !in tasks {
        job := job + 1;
        mode := Mode.Reconnecting;
        reconnectTask := CreateTask(Reconnect, Queued);
      }
      return job;
    }

    method StartSlowRetry()
      modifies this
      ensures Abs() == StartSlow(old(Abs()))
    {
      if closed {
        return;
      }
      if slowRetryTask !in tasks {
        slowRetryTask := CreateTask(SlowRetry, Nap);
      }
    }

    method CancelSlowRetry()
      modifies this
      ensures Abs() == CancelSlow(old(Abs()))
    {
      var task := slowRetryTask;
      slowRetryTask := 0;
      if task in tasks {
        tasks := tasks[task := tasks[task].(doomed := true)];
      }
    }

    method TriggerReconnect() returns (jobId: nat)
      modifies this
      ensures Abs() == Trigger(old(Abs())) && jobId == job
    {
      exhausted := false;
      CancelSlowRetry();
      jobId := EnsureReconnecting();
    }

    method ConnectOnce(ok: bool)
      modifies this
      ensures Abs() == Connect(old(Abs()), ok)
    {
      if ok {
        mode, exhausted, link := Connected, false, true;
      } else {
        link := false;
        var _ := EnsureReconnecting();
      }
    }

    method ProbeConnection() returns (usable: bool)
      modifies this
      ensures Abs() == Probe(old(Abs())) && (usable <==> old(mode) == Connected)
    {
      if mode != Connected {
        if mode == Degraded {
          var _ := EnsureReconnecting();
        }
        return false;
      }
      return true;
    }
  }

  // ---------------------------------------------------------------- what every step keeps

  predicate HoldsLock(t: Task) { t.phase == Closing || t.phase == Shaking }

  predicate Owned(s: State, id: nat, t: Task) {
    && 0 < id < s.next
    && (id == s.reconnect ==> t.kind == Reconnect)
    && (id == s.slow ==> t.kind == SlowRetry)
    && (!t.doomed ==> id == s.reconnect || id == s.slow)
    && (HoldsLock(t) <==> id == s.lock)
  }

  /** The task behind `id` is unfinished and not cancelled. */
  predicate Alive(s: State, id: nat) { id in s.tasks && !s.tasks[id].doomed }

  /** Connected with the breaker closed, or reconnecting with a live task, or degraded and
      exhausted with a live slow retry; and no other task is at work. */
  predicate NotWedged(s: State) {
    match s.mode
    case Connected => s.link && !s.exhausted && s.reconnect !in s.tasks && s.slow !in s.tasks
    case Reconnecting => !s.exhausted && Alive(s, s.reconnect) && s.slow !in s.tasks
    case Degraded => s.exhausted && Alive(s, s.slow) && s.reconnect !in s.tasks && !s.link
  }

  predicate Inv(s: State) {
    && 0 < s.next && s.reconnect < s.next && s.slow < s.next
    && (forall id :: id in s.tasks ==> Owned(s, id, s.tasks[id]))
    && (s.lock != 0 ==> s.lock in s.tasks)
    && (s.link && s.lock != 0 ==> s.tasks[s.lock].phase == Closing && (s.closed || s.lock == s.reconnect))
    && (if s.closed then forall id :: id in s.tasks ==> s.tasks[id].doomed else NotWedged(s))
  }

  lemma CancelledKeeps(s: State, id: nat)
    requires Inv(s) && id in s.tasks && s.tasks[id].doomed
    ensures Inv(Cancelled(s, id))
  {
    assert Owned(s, id, s.tasks[id]);
    var s1 := Cancelled(s, id);
    forall b | b in s1.tasks ensures Owned(s1, b, s1.tasks[b]) {
      assert Owned(s, b, s.tasks[b]);
    }
  }

  lemma PhaseKeeps(s: State, id: nat, outcome: Outcome)
    requires Inv(s) && Alive(s, id) && s.tasks[id].phase != Shaking
    ensures Inv(Advance(s, id, outcome))
  {
    assert Owned(s, id, s.tasks[id]);
    var s1 := Advance(s, id, outcome);
    forall b | b in s1.tasks ensures Owned(s1, b, s1.tasks[b]) {
      assert Owned(s, b, s.tasks[b]);
    }
  }

  lemma ShakeKeeps(s: State, id: nat, outcome: Outcome)
    requires Inv(s) && Alive(s, id) && s.tasks[id].phase == Shaking
    ensures Inv(Advance(s, id, outcome))
  {
    assert Owned(s, id, s.tasks[id]);
    var s1 := Advance(s, id, outcome);
    forall b | b in s1.tasks ensures Owned(s1, b, s1.tasks[b]) {
      if b in s.tasks { assert Owned(s, b, s.tasks[b]); }
    }
  }

  lemma NextKeeps(s: State, e: Event)
    requires Inv(s)
    ensures Inv(Next(s, e))
  {
    match e
    case Step(id, outcome) =>
      if id in s.tasks {
        if s.tasks[id].doomed {
          CancelledKeeps(s, id);
        } else if s.tasks[id].phase == Shaking {
          ShakeKeeps(s, id, outcome);
        } else {
          PhaseKeeps(s, id, outcome);
        }
      }
    case Drop => DropKeeps(s);
    case Triggering => TriggerKeeps(s);
    case Closes => CloseKeeps(s);
    case CloseOn => CloseOnKeeps(s);
    case CloseLink =>
    case Probing =>
  }

  lemma DropKeeps(s: State)
    requires Inv(s)
    ensures Inv(Next(s, Drop))
  {
    var s1 := Next(s, Drop);
    forall b | b in s1.tasks ensures Owned(s1, b, s1.tasks[b]) {
      if b in s.tasks { assert Owned(s, b, s.tasks[b]); }
    }
  }

  lemma TriggerKeeps(s: State)
    requires Inv(s)
    ensures Inv(Trigger(s))
  {
    var s1 := Trigger(s);
    forall b | b in s1.tasks ensures Owned(s1, b, s1.tasks[b]) {
      if b in s.tasks { assert Owned(s, b, s.tasks[b]); }
    }
  }

  lemma CloseKeeps(s: State)
    requires Inv(s)
    ensures Inv(Close(s))
  {
    var s1 := Close(s);
    forall b | b in s1.tasks ensures Owned(s1, b, s1.tasks[b]) && s1.tasks[b].doomed {
      assert Owned(s, b, s.tasks[b]);
    }
  }

  lemma CloseOnKeeps(s: State)
    requires Inv(s)
    ensures Inv(Next(s, CloseOn))
  {
    var s1 := Next(s, CloseOn);
    forall b | b in s1.tasks ensures Owned(s1, b, s1.tasks[b]) {
      assert Owned(s, b, s.tasks[b]);
    }
  }

  lemma {:induction false} RunKeeps(s: State, evs: seq<Event>)
    requires Inv(s)
    ensures Inv(Run(s, evs))
  {
    if |evs| == 0 {
    } else {
      RunKeeps(s, evs[..|evs| - 1]);
      NextKeeps(Run(s, evs[..|evs| - 1]), evs[|evs| - 1]);
    }
  }

  // ---------------------------------------------------------------- main results

  /** Whatever the first connection did and whatever happened since, until `close`. */
  lemma NeverWedged(ok: bool, evs: seq<Event>)
    ensures var s := Run(First(ok), evs); !s.closed ==> NotWedged(s)
  {
    RunKeeps(First(ok), evs);
  }

  /** Probes never start an attempt: in no reachable state does one change anything. */
  lemma ProbesStartNothing(ok: bool, evs: seq<Event>)
    ensures Probe(Run(First(ok), evs)) == Run(First(ok), evs)
  {
    RunKeeps(First(ok), evs);
  }

  /** At most one task is in the inner `connect`, from the teardown of the previous connection
      to the end of the handshake, and no handshake ever runs beside a live listener. */
  lemma OneHandshake(ok: bool, evs: seq<Event>, a: nat, b: nat)
    requires var s := Run(First(ok), evs); a in s.tasks && b in s.tasks && HoldsLock(s.tasks[a])
    ensures var s := Run(First(ok), evs);
            && (HoldsLock(s.tasks[b]) ==> a == b)
            && (s.tasks[a].phase == Shaking ==> !s.link)
  {
    RunKeeps(First(ok), evs);
    var s := Run(First(ok), evs);
    assert Owned(s, a, s.tasks[a]) && Owned(s, b, s.tasks[b]);
  }

  /** The old listener may still end while an attempt tears it down or waits to: the job that
      is running goes on and no other is started. */
  lemma LateDropIsHarmless(ok: bool, evs: seq<Event>)
    requires var s := Run(First(ok), evs); s.mode == Mode.Reconnecting && s.link
    ensures var s := Run(First(ok), evs);
            Next(s, Drop) == s.(link := false) && (!s.closed ==> NotWedged(Next(s, Drop)))
  {
    RunKeeps(First(ok), evs);
  }

  /** A trigger leaves exactly one task at work, the reconnection with the newest job: the one
      already running when there was one, a new one otherwise. */
  lemma TriggerCoalesces(ok: bool, evs: seq<Event>, id: nat)
    requires !Run(First(ok), evs).closed
    ensures var s, s1 := Run(First(ok), evs), Trigger(Run(First(ok), evs));
            && s1.mode == Mode.Reconnecting && (Alive(s1, id) <==> id == s1.reconnect)
            && (s.mode == Mode.Reconnecting ==> s1.job == s.job && s1.reconnect == s.reconnect)
            && (s.mode != Mode.Reconnecting ==> s1.job == s.job + 1 && s1.reconnect !in s.tasks)
  {
    var s := Run(First(ok), evs);
    RunKeeps(First(ok), evs);
    NextKeeps(s, Triggering);
    if id in s.tasks { assert Owned(s, id, s.tasks[id]); }
    assert s.next !in s.tasks && 0 !in s.tasks;
  }

  lemma {:induction false} RunSplit(s: State, evs: seq<Event>, more: seq<Event>)
    ensures Run(s, evs + more) == Run(Run(s, evs), more)
  {
    if |more| == 0 {
      assert evs + more == evs;
    } else {
      assert (evs + more)[..|evs + more| - 1] == evs + more[..|more| - 1];
      RunSplit(s, evs, more[..|more| - 1]);
    }
  }

  /** What a closed wrapper may still do. */
  predicate WindsDown(s: State, s1: State) {
    && s1.closed && s1.next == s.next && s1.job == s.job
    && s1.tasks.Keys <= s.tasks.Keys && (!s.link ==> !s1.link)
  }

  lemma ClosedStep(s: State, e: Event)
    requires Inv(s) && s.closed
    ensures WindsDown(s, Next(s, e))
  {
  }

  lemma {:induction false} ClosedStays(s: State, evs: seq<Event>)
    requires Inv(s) && s.closed
    ensures WindsDown(s, Run(s, evs))
  {
    if |evs| == 0 {
    } else {
      ClosedStays(s, evs[..|evs| - 1]);
      RunKeeps(s, evs[..|evs| - 1]);
      ClosedStep(Run(s, evs[..|evs| - 1]), evs[|evs| - 1]);
    }
  }

  /** From the moment `close` is entered nothing starts: no task is created, every task left is
      cancelled, and none of them brings the connection back. */
  lemma NothingStartsAfterClose(ok: bool, evs: seq<Event>, more: seq<Event>, id: nat)
    requires Run(First(ok), evs).closed
    ensures var s, s1 := Run(First(ok), evs), Run(First(ok), evs + more);
            WindsDown(s, s1) && !Alive(s1, id)
  {
    var s := Run(First(ok), evs);
    RunSplit(First(ok), evs, more);
    RunKeeps(First(ok), evs);
    RunKeeps(First(ok), evs + more);
    ClosedStays(s, more);
  }

  // ---------------------------------------------------------------- recovery is always possible

  /** The task that has to make the next connection. */
  function Worker(s: State): nat { if s.mode == Degraded then s.slow else s.reconnect }

  function Rank(s: State): nat {
    if s.mode == Connected || Worker(s) !in s.tasks then 0
    else
      (if s.lock != 0 && s.lock != Worker(s) then 1 else 0)
      + match s.tasks[Worker(s)].phase case Nap => 4 case Queued => 3 case Closing => 2 case Shaking => 1
  }

  /** Let a cancelled task that still holds the lock finish, else the worker go on. */
  function Helpful(s: State): Event {
    Step(if s.lock != 0 && s.lock != Worker(s) then s.lock else Worker(s), Succeed)
  }

  function Recovery(s: State): (evs: seq<Event>)
    requires Inv(s) && !s.closed
    ensures forall e :: e in evs ==> e.Step?
    decreases Rank(s)
  {
    if s.mode == Connected then []
    else
      HelpfulHelps(s);
      [Helpful(s)] + Recovery(Next(s, Helpful(s)))
  }

  lemma HelpfulHelps(s: State)
    requires Inv(s) && !s.closed && s.mode != Connected
    ensures Inv(Next(s, Helpful(s))) && !Next(s, Helpful(s)).closed
    ensures Rank(Next(s, Helpful(s))) < Rank(s)
  {
    NextKeeps(s, Helpful(s));
    assert Owned(s, Worker(s), s.tasks[Worker(s)]);
    if s.lock != 0 { assert Owned(s, s.lock, s.tasks[s.lock]); }
  }

  lemma {:induction false} RecoveryWorks(s: State)
    requires Inv(s) && !s.closed
    ensures Run(s, Recovery(s)).mode == Connected
    decreases Rank(s)
  {
    if s.mode != Connected {
      HelpfulHelps(s);
      var s1 := Next(s, Helpful(s));
      RecoveryWorks(s1);
      RunSplit(s, [Helpful(s)], Recovery(s1));
      assert [Helpful(s)][..0] == [] && Run(s, [Helpful(s)]) == s1;
    }
  }

  /** From every state reached before `close`, steps of the background tasks alone lead back
      to a connection, at most five of them, if the handshake then succeeds. */
  lemma AlwaysRecoverable(ok: bool, evs: seq<Event>)
    ensures var s := Run(First(ok), evs);
            !s.closed ==> Inv(s) && Run(First(ok), evs + Recovery(s)).mode == Connected && |Recovery(s)| <= 5
  {
    var s := Run(First(ok), evs);
    RunKeeps(First(ok), evs);
    if !s.closed {
      RecoveryWorks(s);
      RecoveryLength(s);
      RunSplit(First(ok), evs, Recovery(s));
    }
  }

  lemma {:induction false} RecoveryLength(s: State)
    requires Inv(s) && !s.closed
    ensures |Recovery(s)| <= Rank(s)
    decreases Rank(s)
  {
    if s.mode != Connected {
      HelpfulHelps(s);
      RecoveryLength(Next(s, Helpful(s)));
    }
  }
}
