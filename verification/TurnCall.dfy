/** A call that owns a session key for a while, among everything else that happens to the
    registry: `stream_response` and `abort` register on entry and unregister on every exit. */
module TurnCall {
  import opened Common
  import opened TurnItems
  import opened TurnRegistry
  import opened TurnRouting

  predicate Closed(r: Registry) { forall k :: k in r.sessions ==> r.sessions[k] in r.queues }

  /** What an operation does to the registry itself. */
  function Act(r: Registry, op: Op): (r1: Registry)
    requires Closed(r)
    ensures Closed(r1) && r.queues.Keys <= r1.queues.Keys
  {
    match op
    case DoRegister(req, key) => Register(r, req, key).0
    case DoUnregister(key, req) => Unregister(r, key, req)
    case BySession(key, item, now) => DeliverBySession(r, key, item, now).0
    case ByReq(req, item, now) => DeliverByReq(r, req, item, now).0
    case Take(q) =>
      if q in r.queues && r.queues[q] != [] then r.(queues := r.queues[q := r.queues[q][1..]]) else r
    case Teardown(message) => ErrorAll(r, message)
    case Ask(key, now) => IsAborted(r, key, now).0
  }

  function ActAll(r: Registry, ops: seq<Op>): (r1: Registry)
    requires Closed(r)
    ensures Closed(r1) && r.queues.Keys <= r1.queues.Keys
  {
    if |ops| == 0 then r else Act(ActAll(r, ops[..|ops| - 1]), ops[|ops| - 1])
  }

  lemma ActSnoc(r: Registry, ops: seq<Op>, op: Op)
    requires Closed(r)
    ensures ActAll(r, ops + [op]) == Act(ActAll(r, ops), op)
  {
    assert (ops + [op])[..|ops|] == ops;
  }

  lemma {:induction false} ActSplit(r: Registry, ops: seq<Op>, more: seq<Op>)
    requires Closed(r)
    ensures ActAll(r, ops + more) == ActAll(ActAll(r, ops), more)
  {
    if |more| == 0 {
      assert ops + more == ops;
    } else {
      assert (ops + more)[..|ops + more| - 1] == ops + more[..|more| - 1];
      ActSplit(r, ops, more[..|more| - 1]);
    }
  }

  // ---------------------------------------------------------------- the registry meanwhile

  method Perform(turns: TurnRegistry, op: Op)
    requires turns.Valid()
    modifies turns
    ensures turns.Valid() && turns.Abs() == Act(old(turns.Abs()), op)
  {
    match op
    case DoRegister(req, key) => var _ := turns.RegisterTurn(req, key);
    case DoUnregister(key, req) => turns.UnregisterTurn(key, req);
    case BySession(key, item, now) => var _ := turns.DeliverToSession(key, item, now);
    case ByReq(req, item, now) => var _ := turns.DeliverToReq(req, item, now);
    case Take(q) =>
      if q in turns.queues && turns.queues[q] != [] {
        var _ := turns.TakeFrom(q);
      }
    case Teardown(message) => turns.FailAll(message);
    case Ask(key, now) => var _ := turns.AskAborted(key, now);
  }

  /** Other tasks run while the call is suspended. */
  method Suspend(turns: TurnRegistry, ops: seq<Op>)
    requires turns.Valid()
    modifies turns
    ensures turns.Valid() && turns.Abs() == ActAll(old(turns.Abs()), ops)
  {
    ghost var r := turns.Abs();
    for i := 0 to |ops|
      invariant turns.Valid() && turns.Abs() == ActAll(r, ops[..i])
    {
      ActSnoc(r, ops[..i], ops[i]);
      assert ops[..i] + [ops[i]] == ops[..i + 1];
      Perform(turns, ops[i]);
    }
    assert ops[..|ops|] == ops;
  }

  /** The head of queue `q` after `ops`, if there is one. */
  function Head(r: Registry, q: nat, ops: seq<Op>): Option<Item>
    requires Closed(r) && q in r.queues
  {
    var items := ActAll(r, ops).queues[q];
    if items == [] then None else Some(items[0])
  }

  /** The registry when the wait is over. */
  function Waited(r: Registry, q: nat, ops: seq<Op>): (r1: Registry)
    requires Closed(r) && q in r.queues
    ensures Closed(r1) && q in r1.queues
  {
    Act(ActAll(r, ops), Take(q))
  }

  /** `queue.get()` under a timeout, `ops` happening meanwhile: None if it expires. */
  method Await(turns: TurnRegistry, q: nat, ops: seq<Op>) returns (got: Option<Item>)
    requires turns.Valid() && q in turns.queues
    modifies turns
    ensures turns.Valid() && q in turns.queues
    ensures got == Head(old(turns.Abs()), q, ops) && turns.Abs() == Waited(old(turns.Abs()), q, ops)
  {
    Suspend(turns, ops);
    if turns.queues[q] == [] {
      return None;
    }
    var item := turns.TakeFrom(q);
    return Some(item);
  }

  // ---------------------------------------------------------------- one wait after another

  /** Outcome of one wait on the turn queue. A sequence of polls ends where the consumer goes
      away during a wait. */
  datatype Poll = Got(item: Item) | TimedOut

  /** What a wait on queue `q` gives, `ops` happening to the registry meanwhile. */
  function PollOf(r: Registry, q: nat, ops: seq<Op>): Poll
    requires Closed(r) && q in r.queues
  {
    var got := Head(r, q, ops);
    if got == None then TimedOut else Got(got.value)
  }

  /** What the registry goes through in the first `n` waits. */
  function Meanwhile(q: nat, waits: seq<seq<Op>>, n: nat): seq<Op>
    requires n <= |waits|
  {
    if n == 0 then [] else Meanwhile(q, waits, n - 1) + waits[n - 1] + [Take(q)]
  }

  /** The registry after them. */
  function After(r: Registry, q: nat, waits: seq<seq<Op>>, n: nat): (r1: Registry)
    requires Closed(r) && q in r.queues && n <= |waits|
    ensures Closed(r1) && q in r1.queues
  {
    ActAll(r, Meanwhile(q, waits, n))
  }

  lemma AfterStep(r: Registry, q: nat, waits: seq<seq<Op>>, n: nat)
    requires Closed(r) && q in r.queues && n < |waits|
    ensures After(r, q, waits, n + 1) == Waited(After(r, q, waits, n), q, waits[n])
  {
    var before := Meanwhile(q, waits, n);
    ActSnoc(r, before + waits[n], Take(q));
    ActSplit(r, before, waits[n]);
  }

  /** What each of the waits would give. */
  function AllPolls(r: Registry, q: nat, waits: seq<seq<Op>>): seq<Poll>
    requires Closed(r) && q in r.queues
  {
    seq(|waits|, n requires 0 <= n < |waits| => PollOf(After(r, q, waits, n), q, waits[n]))
  }

  /** `all` up to the first that expires. */
  function Until(all: seq<Poll>): (polls: seq<Poll>)
    ensures |polls| <= |all| && (all != [] ==> polls != [])
  {
    if all == [] then [] else [all[0]] + if all[0] == TimedOut then [] else Until(all[1..])
  }

  /** What the generator gets. */
  function PollsOf(r: Registry, q: nat, waits: seq<seq<Op>>): seq<Poll>
    requires Closed(r) && q in r.queues
  {
    Until(AllPolls(r, q, waits))
  }

  /** The registries and polls of all the waits, one after the other. */
  datatype Course = Course(regs: seq<Registry>, polls: seq<Poll>)

  /** Wait `k` takes the registry to its next state and gives poll `k`. */
  predicate StepAt(c: Course, q: nat, waits: seq<seq<Op>>, k: nat) {
    && k + 1 < |c.regs| && k < |waits|
    && Closed(c.regs[k]) && q in c.regs[k].queues
    && c.regs[k + 1] == Waited(c.regs[k], q, waits[k])
    && (k < |c.polls| ==> c.polls[k] == PollOf(c.regs[k], q, waits[k]))
    && (k < |c.polls| && k + 1 < |waits| && c.polls[k] != TimedOut ==> k + 1 < |c.polls|)
    && (k < |c.polls| && c.polls[k] == TimedOut ==> |c.polls| == k + 1)
  }

  ghost predicate IsCourse(c: Course, q: nat, waits: seq<seq<Op>>) {
    && |c.regs| == |waits| + 1 && |c.polls| <= |waits| && (|waits| > 0 ==> |c.polls| > 0)
    && forall k :: 0 <= k < |waits| ==> StepAt(c, q, waits, k)
  }

  lemma {:induction false} UntilAt(all: seq<Poll>, k: nat)
    requires k < |Until(all)|
    ensures var polls := Until(all);
            && polls[k] == all[k]
            && (k + 1 < |all| && polls[k] != TimedOut ==> k + 1 < |polls|)
            && (polls[k] == TimedOut ==> |polls| == k + 1)
  {
    if k == 0 {
    } else {
      UntilAt(all[1..], k - 1);
    }
  }

  function Regs(r: Registry, q: nat, waits: seq<seq<Op>>): seq<Registry>
    requires Closed(r) && q in r.queues
  {
    seq(|waits| + 1, n requires 0 <= n <= |waits| => After(r, q, waits, n))
  }

  lemma CourseStep(c: Course, q: nat, waits: seq<seq<Op>>, k: nat, all: seq<Poll>)
    requires |c.regs| == |waits| + 1 && |all| == |waits| && c.polls == Until(all) && k < |waits|
    requires Closed(c.regs[k]) && q in c.regs[k].queues
    requires c.regs[k + 1] == Waited(c.regs[k], q, waits[k]) && all[k] == PollOf(c.regs[k], q, waits[k])
    ensures StepAt(c, q, waits, k)
  {
    if k < |c.polls| { UntilAt(all, k); }
  }

  lemma CourseOf(r: Registry, q: nat, waits: seq<seq<Op>>) returns (c: Course)
    requires Closed(r) && q in r.queues
    ensures IsCourse(c, q, waits) && c == Course(Regs(r, q, waits), PollsOf(r, q, waits))
  {
    c := Course(Regs(r, q, waits), PollsOf(r, q, waits));
    forall k | 0 <= k < |waits| ensures StepAt(c, q, waits, k) {
      AfterStep(r, q, waits, k);
      CourseStep(c, q, waits, k, AllPolls(r, q, waits));
    }
  }

  lemma FirstReg(r: Registry, q: nat, waits: seq<seq<Op>>)
    requires Closed(r) && q in r.queues
    ensures Regs(r, q, waits)[0] == r
  {
    assert Meanwhile(q, waits, 0) == [];
  }

  // ---------------------------------------------------------------- runs

  lemma StepActs(w: World, op: Op)
    requires Sound(w) && Allowed(w, op)
    ensures Step(w, op).reg == Act(w.reg, op)
  {
  }

  /** One operation, if it is allowed. */
  function Try(w: World, op: Op): Option<World> { if Sound(w) && Allowed(w, op) then Some(Step(w, op)) else None }

  /** `more` leads from `w` to `w1`. */
  predicate Goes(w: World, more: seq<Op>, w1: World) { Fold(Try, w, more) == Some(w1) }

  lemma LastStep(w: World, more: seq<Op>, w1: World) returns (before: World)
    requires |more| > 0 && Goes(w, more, w1)
    ensures Goes(w, more[..|more| - 1], before) && Sound(before)
    ensures Allowed(before, more[|more| - 1]) && w1 == Step(before, more[|more| - 1])
  {
    before := Fold(Try, w, more[..|more| - 1]).value;
  }

  lemma GoesSplit(w: World, a: seq<Op>, b: seq<Op>, w1: World) returns (mid: World)
    requires Goes(w, a + b, w1)
    ensures Goes(w, a, mid) && Goes(mid, b, w1)
  {
    FoldSplit(Try, w, a, b);
    mid := Fold(Try, w, a).value;
  }

  lemma {:induction false} RunIsFold(maxSize: int, ops: seq<Op>)
    ensures Run(maxSize, ops) == Fold(Try, Start(maxSize), ops)
  {
    if |ops| == 0 {
    } else {
      RunIsFold(maxSize, ops[..|ops| - 1]);
    }
  }

  /** Going on from a run is a run, and the second part of a run goes on from the first. */
  lemma GoesIsRun(maxSize: int, ops: seq<Op>, w: World, more: seq<Op>, w1: World)
    requires RunsTo(maxSize, ops, w)
    ensures Goes(w, more, w1) <==> RunsTo(maxSize, ops + more, w1)
  {
    RunIsFold(maxSize, ops);
    RunIsFold(maxSize, ops + more);
    FoldSplit(Try, Start(maxSize), ops, more);
  }

  lemma {:induction false} GoesKeeps(w: World, more: seq<Op>, w1: World)
    requires Inv(w) && Goes(w, more, w1)
    ensures Inv(w1) && Closed(w.reg) && Closed(w1.reg)
  {
    if |more| == 0 {
    } else {
      var before := LastStep(w, more, w1);
      GoesKeeps(w, more[..|more| - 1], before);
      StepKeeps(before, more[|more| - 1]);
    }
  }

  lemma {:induction false} GoesActs(w: World, more: seq<Op>, w1: World)
    requires Closed(w.reg) && Goes(w, more, w1)
    ensures w1.reg == ActAll(w.reg, more)
  {
    if |more| == 0 {
    } else {
      var before := LastStep(w, more, w1);
      GoesActs(w, more[..|more| - 1], before);
      StepActs(before, more[|more| - 1]);
    }
  }

  lemma ReachedInv(maxSize: int, ops: seq<Op>, w: World)
    requires RunsTo(maxSize, ops, w)
    ensures Inv(w) && Closed(w.reg)
  {
    RunInv(maxSize, ops);
  }

  /** The operations of one call: it registers, things happen, it unregisters. */
  function Call(req: Req, key: Key, mid: seq<Op>): seq<Op> {
    [DoRegister(req, key)] + mid + [DoUnregister(key, req)]
  }

  /** `req` owns nothing and is not known. */
  predicate Released(r: Registry, req: Req) {
    req !in r.reqs && forall k :: k in r.owner ==> r.owner[k] != req
  }

  /** Nothing of another key differs between the registries. */
  ghost predicate SparesOthers(r: Registry, r1: Registry, key: Key) {
    && (forall k :: k != key ==> (k in r1.sessions <==> k in r.sessions) && (k in r1.owner <==> k in r.owner))
    && (forall k :: k != key && k in r.sessions ==> r1.sessions[k] == r.sessions[k])
    && (forall k :: k != key && k in r.owner ==> r1.owner[k] == r.owner[k])
    && r1.queues == r.queues && r1.tombstones == r.tombstones
    && (forall k :: k != key ==> (k in r1.overflowed <==> k in r.overflowed))
  }

  lemma UnregisterSpares(r: Registry, req: Req, key: Key)
    ensures SparesOthers(r, Unregister(r, key, req), key)
  {
  }

  lemma UnregisterReleases(w: World, req: Req, key: Key)
    requires Inv(w) && req in w.used && w.used[req] == key
    ensures var r1 := Unregister(w.reg, key, req);
            Released(r1, req) && (key in w.reg.owner && w.reg.owner[key] != req ==> r1 == w.reg)
  {
    var r1 := Unregister(w.reg, key, req);
    forall k | k in r1.owner ensures r1.owner[k] != req {
      assert w.reg.reqs[w.reg.owner[k]] == k;
    }
    if key in w.reg.owner && w.reg.owner[key] != req {
      assert req !in w.reg.reqs;
      assert w.reg.reqs - {req} == w.reg.reqs;
    }
  }

  /** The last step of a call. */
  lemma CallEnds(w: World, req: Req, key: Key, mid: seq<Op>, w1: World) returns (w0: World)
    requires Inv(w) && Goes(w, Call(req, key, mid), w1)
    ensures Goes(w, [DoRegister(req, key)] + mid, w0) && Inv(w0)
    ensures req in w0.used && w0.used[req] == key && w1.reg == Unregister(w0.reg, key, req)
  {
    var call := Call(req, key, mid);
    assert call[..|call| - 1] == [DoRegister(req, key)] + mid;
    w0 := LastStep(w, call, w1);
    GoesKeeps(w, call[..|call| - 1], w0);
  }

  /** After a call its request owns nothing, whatever happened to the registry meanwhile; and the
      unregistering leaves every other key, and a turn that took over its own key, alone. */
  lemma CallReleases(maxSize: int, ops: seq<Op>, w: World, req: Req, key: Key, mid: seq<Op>, w1: World)
    requires RunsTo(maxSize, ops, w) && Goes(w, Call(req, key, mid), w1)
    ensures Closed(w.reg)
    ensures var before := ActAll(w.reg, [DoRegister(req, key)] + mid);
            && w1.reg == Unregister(before, key, req)
            && Released(w1.reg, req) && SparesOthers(before, w1.reg, key)
            && (key in before.owner && before.owner[key] != req ==> w1.reg == before)
  {
    ReachedInv(maxSize, ops, w);
    var w0 := CallEnds(w, req, key, mid, w1);
    GoesActs(w, [DoRegister(req, key)] + mid, w0);
    UnregisterReleases(w0, req, key);
    UnregisterSpares(w0.reg, req, key);
  }

  // ---------------------------------------------------------------- holding a key

  /** Nothing among `mid` takes the key from its owner: no teardown, no unregistering of it. */
  predicate Undisturbed(mid: seq<Op>, req: Req) {
    forall i :: 0 <= i < |mid| ==> !mid[i].Teardown? && (mid[i].DoUnregister? ==> mid[i].req != req)
  }

  /** `req` owns `key`, and queue `q` is the one made for it. */
  predicate Holds(r: Registry, req: Req, key: Key, q: nat) {
    key in r.sessions && r.sessions[key] == q && key in r.owner && r.owner[key] == req
  }

  lemma HoldAct(r: Registry, op: Op, req: Req, key: Key, q: nat)
    requires Closed(r) && Holds(r, req, key, q)
    requires !op.Teardown? && (op.DoUnregister? ==> op.req != req)
    ensures Holds(Act(r, op), req, key, q)
  {
  }

  lemma {:induction false} HoldAll(r: Registry, mid: seq<Op>, req: Req, key: Key, q: nat)
    requires Closed(r) && Holds(r, req, key, q) && Undisturbed(mid, req)
    ensures Holds(ActAll(r, mid), req, key, q)
  {
    if |mid| == 0 {
    } else {
      HoldAll(r, mid[..|mid| - 1], req, key, q);
      HoldAct(ActAll(r, mid[..|mid| - 1]), mid[|mid| - 1], req, key, q);
    }
  }

  /** A frame for a key goes to the queue its owner holds, and to no other. */
  lemma FrameGoesToHolder(w: World, key: Key, item: Item, now: real, p: nat)
    requires Inv(w) && key in w.reg.sessions && now >= w.clock
    ensures var q, w1 := w.reg.sessions[key], Step(w, BySession(key, item, now));
            && q in w.offered && q in w1.offered && w1.offered[q] == w.offered[q] + [item]
            && (p in w.reg.queues && p != q ==>
                  p in w1.reg.queues && w1.reg.queues[p] == w.reg.queues[p] && w1.offered[p] == w.offered[p])
  {
  }

  /** A call takes its key. */
  lemma RegisterFresh(w: World, req: Req, key: Key, w1: World)
    requires Inv(w) && key !in w.reg.sessions && Goes(w, [DoRegister(req, key)], w1)
    ensures Closed(w.reg) && w1.reg == Register(w.reg, req, key).0 && Inv(w1)
    ensures w.reg.next in w1.taken && w1.taken[w.reg.next] == [] && Holds(w1.reg, req, key, w.reg.next)
  {
    var before := LastStep(w, [DoRegister(req, key)], w1);
    GoesKeeps(w, [DoRegister(req, key)], w1);
  }

  lemma StillHeld(w: World, req: Req, key: Key, q: nat, more: seq<Op>, w1: World)
    requires Inv(w) && Holds(w.reg, req, key, q) && Goes(w, more, w1) && Undisturbed(more, req)
    ensures Holds(w1.reg, req, key, q) && Inv(w1)
  {
    GoesKeeps(w, more, w1);
    GoesActs(w, more, w1);
    HoldAll(w.reg, more, req, key, q);
  }

  /** While a call holds its key, every frame for the key goes to the call's own queue and to no
      other, and no other turn gets the key: not the next turn, however early it comes. */
  lemma HeldKeyKeepsFrames(
    maxSize: int, ops: seq<Op>, w: World, req: Req, key: Key, mid: seq<Op>, w1: World,
    item: Item, now: real, p: nat, other: Req)
    requires RunsTo(maxSize, ops, w) && key !in w.reg.sessions
    requires Goes(w, [DoRegister(req, key)] + mid, w1) && Undisturbed(mid, req) && now >= w1.clock
    ensures Sound(w1) && Holds(w1.reg, req, key, w.reg.next) && Register(w1.reg, other, key) == (w1.reg, None)
    ensures var q, w2 := w.reg.next, Step(w1, BySession(key, item, now));
            && q in w1.offered && q in w2.offered && w2.offered[q] == w1.offered[q] + [item]
            && (p in w1.reg.queues && p != q ==>
                  p in w2.reg.queues && w2.reg.queues[p] == w1.reg.queues[p] && w2.offered[p] == w1.offered[p])
  {
    ReachedInv(maxSize, ops, w);
    var w0 := GoesSplit(w, [DoRegister(req, key)], mid, w1);
    RegisterFresh(w, req, key, w0);
    StillHeld(w0, req, key, w.reg.next, mid, w1);
    FrameGoesToHolder(w1, key, item, now, p);
  }

  // ---------------------------------------------------------------- deliveries in order

  /** Nobody but its owner takes from queue `q`. */
  predicate KeepOff(ops: seq<Op>, q: nat) { forall i :: 0 <= i < |ops| ==> ops[i] != Take(q) }

  /** None of the first `n` waits expires. */
  predicate NoneExpires(polls: seq<Poll>, n: nat) {
    n <= |polls| && forall k :: 0 <= k < n ==> polls[k].Got?
  }

  /** The first `n` polls give the first `n` items, in order. */
  predicate Gave(polls: seq<Poll>, items: seq<Item>, n: nat) {
    n <= |polls| && n <= |items| && forall k :: 0 <= k < n ==> polls[k] == Got(items[k])
  }

  lemma StepTaken(w: World, op: Op, q: nat)
    requires Sound(w) && Allowed(w, op) && q in w.taken && op != Take(q)
    ensures q in Step(w, op).taken && Step(w, op).taken[q] == w.taken[q]
  {
    assert q in w.reg.queues && q < w.reg.next;
  }

  lemma {:induction false} TakenStays(w: World, more: seq<Op>, w1: World, q: nat)
    requires Goes(w, more, w1) && q in w.taken && KeepOff(more, q)
    ensures q in w1.taken && w1.taken[q] == w.taken[q]
  {
    if |more| == 0 {
    } else {
      var before := LastStep(w, more, w1);
      TakenStays(w, more[..|more| - 1], before, q);
      StepTaken(before, more[|more| - 1], q);
    }
  }

  /** A wait that gives an item moves it to what was taken. */
  lemma WaitTakes(w: World, wait: seq<Op>, w1: World, q: nat)
    requires q in w.taken && KeepOff(wait, q) && Goes(w, wait + [Take(q)], w1)
    requires Closed(w.reg) && q in w.reg.queues && PollOf(w.reg, q, wait).Got?
    ensures w1.reg == Waited(w.reg, q, wait)
    ensures q in w1.taken && w1.taken[q] == w.taken[q] + [PollOf(w.reg, q, wait).item]
  {
    var all := wait + [Take(q)];
    assert all[..|all| - 1] == wait;
    var before := LastStep(w, all, w1);
    GoesActs(w, wait, before);
    TakenStays(w, wait, before, q);
    StepActs(before, Take(q));
  }

  lemma GaveSnoc(polls: seq<Poll>, items: seq<Item>, item: Item, n: nat)
    requires n < |polls| && |items| == n && Gave(polls, items, n) && polls[n] == Got(item)
    ensures Gave(polls, items + [item], n + 1)
  {
  }

  /** After the first `n` waits the registry is where the course says, and the first `n` polls
      were taken. */
  predicate Follows(w: World, c: Course, q: nat, n: nat) {
    n < |c.regs| && w.reg == c.regs[n] && q in w.taken && |w.taken[q]| == n && Gave(c.polls, w.taken[q], n)
  }

  lemma FollowsStep(w: World, q: nat, waits: seq<seq<Op>>, n: nat, w1: World, c: Course)
    requires n < |waits| && KeepOff(waits[n], q) && Follows(w, c, q, n) && Goes(w, waits[n] + [Take(q)], w1)
    requires StepAt(c, q, waits, n) && n < |c.polls| && c.polls[n].Got?
    ensures Follows(w1, c, q, n + 1)
  {
    WaitTakes(w, waits[n], w1, q);
    GaveSnoc(c.polls, w.taken[q], c.polls[n].item, n);
  }

  lemma BeforeLastWait(w: World, q: nat, waits: seq<seq<Op>>, n: nat, w1: World) returns (w0: World)
    requires 0 < n <= |waits| && Goes(w, Meanwhile(q, waits, n), w1)
    ensures Goes(w, Meanwhile(q, waits, n - 1), w0) && Goes(w0, waits[n - 1] + [Take(q)], w1)
  {
    assert Meanwhile(q, waits, n) == Meanwhile(q, waits, n - 1) + (waits[n - 1] + [Take(q)]);
    w0 := GoesSplit(w, Meanwhile(q, waits, n - 1), waits[n - 1] + [Take(q)], w1);
  }

  lemma NoWaits(w: World, q: nat, waits: seq<seq<Op>>, w1: World)
    requires Goes(w, Meanwhile(q, waits, 0), w1)
    ensures w1 == w
  {
  }

  /** The waits can go on: none of the first `n` expires, and nobody else takes from the queue. */
  ghost predicate Serves(c: Course, q: nat, waits: seq<seq<Op>>, n: nat) {
    IsCourse(c, q, waits) && NoneExpires(c.polls, n) && forall k :: 0 <= k < |waits| ==> KeepOff(waits[k], q)
  }

  lemma ServesLess(c: Course, q: nat, waits: seq<seq<Op>>, n: nat)
    requires n > 0 && Serves(c, q, waits, n)
    ensures Serves(c, q, waits, n - 1)
  {
  }

  lemma FollowsOn(w: World, q: nat, waits: seq<seq<Op>>, n: nat, w1: World, c: Course)
    requires n < |waits| && Follows(w, c, q, n) && Goes(w, waits[n] + [Take(q)], w1) && Serves(c, q, waits, n + 1)
    ensures Follows(w1, c, q, n + 1)
  {
    assert StepAt(c, q, waits, n) && KeepOff(waits[n], q);
    FollowsStep(w, q, waits, n, w1, c);
  }

  lemma LastWait(w: World, q: nat, waits: seq<seq<Op>>, n: nat, w1: World, c: Course) returns (w0: World)
    requires 0 < n <= |waits| && Goes(w, Meanwhile(q, waits, n), w1) && Serves(c, q, waits, n)
    ensures Goes(w, Meanwhile(q, waits, n - 1), w0) && (Follows(w0, c, q, n - 1) ==> Follows(w1, c, q, n))
  {
    w0 := BeforeLastWait(w, q, waits, n, w1);
    if Follows(w0, c, q, n - 1) { FollowsOn(w0, q, waits, n - 1, w1, c); }
  }

  /** What a call that starts with nothing taken has taken after `n` waits: what they gave. */
  lemma {:induction false} TakenIsGiven(w: World, q: nat, waits: seq<seq<Op>>, n: nat, w1: World, c: Course)
    requires Follows(w, c, q, 0) && n <= |waits| && Goes(w, Meanwhile(q, waits, n), w1) && Serves(c, q, waits, n)
    ensures Follows(w1, c, q, n)
    decreases n
  {
    if n == 0 {
      NoWaits(w, q, waits, w1);
    } else {
      var w0 := LastWait(w, q, waits, n, w1, c);
      ServesLess(c, q, waits, n);
      TakenIsGiven(w, q, waits, n - 1, w0, c);
    }
  }

  /** While a queue is registered and has not overflowed, what was taken and what waits is what
      was delivered. */
  lemma NothingMissing(w: World, req: Req, key: Key, q: nat)
    requires Inv(w) && Holds(w.reg, req, key, q) && key !in w.reg.overflowed
    ensures q in w.taken && q in w.offered && q in w.reg.queues && w.taken[q] + w.reg.queues[q] == w.offered[q]
  {
    assert w.home[q] == key && IsRegistered(w, q) && QueueOk(w, q);
  }

  lemma GavePrefix(polls: seq<Poll>, items: seq<Item>, more: seq<Item>, n: nat)
    requires Gave(polls, items, n)
    ensures Gave(polls, items + more, n)
  {
  }

  /** What the waits of a call give is what was delivered to its key since it took it, in order
      and from the first on, as long as no teardown, overflow or expired wait comes in between.
      `w` is where the waits begin, with nothing taken yet, and `c` is their course. */
  lemma PollsAreDeliveries(
    maxSize: int, ops: seq<Op>, w: World, req: Req, key: Key, q: nat, waits: seq<seq<Op>>, n: nat, w1: World, c: Course)
    requires RunsTo(maxSize, ops, w) && Holds(w.reg, req, key, q) && q in w.taken && w.taken[q] == [] && n <= |waits|
    requires Goes(w, Meanwhile(q, waits, n), w1) && Undisturbed(Meanwhile(q, waits, n), req)
    requires forall k :: 0 <= k < |waits| ==> KeepOff(waits[k], q)
    requires IsCourse(c, q, waits) && c.regs[0] == w.reg && NoneExpires(c.polls, n) && key !in w1.reg.overflowed
    ensures q in w1.offered && Gave(c.polls, w1.offered[q], n)
  {
    ReachedInv(maxSize, ops, w);
    TakenIsGiven(w, q, waits, n, w1, c);
    StillHeld(w, req, key, q, Meanwhile(q, waits, n), w1);
    NothingMissing(w1, req, key, q);
    GavePrefix(c.polls, w1.taken[q], w1.reg.queues[q], n);
  }
}
