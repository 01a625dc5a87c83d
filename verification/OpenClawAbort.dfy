/** `OpenClawClient.abort`: it aborts the run in flight on a session key and holds the key until
    the run's own terminal `chat` has come, so that no later turn gets it. */
module OpenClawAbort {
  import opened Common
  import opened ChatText
  import opened TurnItems
  import opened TurnRegistry
  import TurnRouting
  import opened TurnCall

  /** What becomes of `chat.abort`: it cannot be written, it is not answered in time, nothing was
      running, or a run was aborted. */
  datatype Answer = NotWritten | Unanswered | NothingRan | RunAborted

  /** A terminal `chat`, or an item that only a turn that is over gets. */
  predicate Ends(item: Item) {
    match item
    case Chat(ev) => ev.state == Final || ev.state == Failed || ev.state == Aborted
    case Tool(_, _) => false
    case _ => true
  }

  /** The items taken: all up to the first that ends the run, or to a wait that expires. */
  function Swallows(polls: seq<Poll>): (items: seq<Item>)
    ensures |items| <= |polls|
  {
    if polls == [] || polls[0] == TimedOut then []
    else [polls[0].item] + if Ends(polls[0].item) then [] else Swallows(polls[1..])
  }

  /** Only the last item taken may end the run, and then nothing more is taken. */
  lemma {:induction false} SwallowsUntilEnd(polls: seq<Poll>, k: nat)
    requires k < |Swallows(polls)|
    ensures k < |polls| && polls[k] == Got(Swallows(polls)[k])
    ensures Ends(Swallows(polls)[k]) ==> |Swallows(polls)| == k + 1
  {
    if k == 0 {
    } else {
      SwallowsUntilEnd(polls[1..], k - 1);
    }
  }

  /** While none ends the run, all there is is taken. */
  lemma {:induction false} SwallowsAll(polls: seq<Poll>)
    requires forall k :: 0 <= k < |Swallows(polls)| ==> !Ends(Swallows(polls)[k])
    ensures var n := |Swallows(polls)|; n == |polls| || polls[n] == TimedOut
  {
    if polls == [] || polls[0] == TimedOut {
    } else {
      assert Swallows(polls)[0] == polls[0].item;
      assert Swallows(polls)[1..] == Swallows(polls[1..]);
      assert forall k :: 0 <= k < |Swallows(polls[1..])| ==> Swallows(polls[1..])[k] == Swallows(polls)[k + 1];
      SwallowsAll(polls[1..]);
    }
  }

  /** What taking `polls[i]` does to the items swallowed so far. */
  lemma SwallowStep(polls: seq<Poll>, so: seq<Item>, i: nat)
    requires i < |polls| && Swallows(polls) == so + Swallows(polls[i..])
    ensures match polls[i]
            case TimedOut => Swallows(polls) == so
            case Got(item) =>
              Swallows(polls) == (so + [item]) + if Ends(item) then [] else Swallows(polls[i + 1..])
  {
    assert polls[i..][0] == polls[i] && polls[i..][1..] == polls[i + 1..];
    if polls[i].Got? {
      Joined(so, polls[i].item, if Ends(polls[i].item) then [] else Swallows(polls[i + 1..]));
    }
  }

  lemma Joined(so: seq<Item>, item: Item, rest: seq<Item>)
    ensures so + ([item] + rest) == (so + [item]) + rest && so + [] == so
  {
  }

  method Swallow(turns: TurnRegistry, q: nat, waits: seq<seq<TurnRouting.Op>>, ghost c: Course)
    returns (swallowed: seq<Item>, ghost n: nat)
    requires turns.Valid() && IsCourse(c, q, waits) && turns.Abs() == c.regs[0]
    modifies turns
    ensures turns.Valid() && n <= |waits| && turns.Abs() == c.regs[n]
    ensures swallowed == Swallows(c.polls)
  {
    swallowed := [];
    var i: nat := 0;
    assert c.polls[0..] == c.polls;
    while i < |waits|
      invariant i <= |waits| && i <= |c.polls| && (i < |waits| ==> i < |c.polls|)
      invariant turns.Valid() && turns.Abs() == c.regs[i]
      invariant Swallows(c.polls) == swallowed + Swallows(c.polls[i..])
      decreases |waits| - i
    {
      assert StepAt(c, q, waits, i);
      SwallowStep(c.polls, swallowed, i);
      var got := Await(turns, q, waits[i]);
      i := i + 1;
      if got == None {
        return swallowed, i;
      }
      swallowed := swallowed + [got.value];
      if Ends(got.value) {
        return swallowed, i;
      }
    }
    assert c.polls[i..] == [];
    n := i;
  }

  /** `answering` happens to the registry until the answer is there. */
  method Abort(
    turns: TurnRegistry, req: Req, key: Key, ws: bool, answer: Answer, answering: seq<TurnRouting.Op>,
    waits: seq<seq<TurnRouting.Op>>)
    returns (swallowed: seq<Item>, ghost n: nat)
    requires turns.Valid()
    modifies turns
    ensures turns.Valid() && n <= |waits|
    ensures var was := old(turns.Abs());
            if !ws || key in was.sessions then turns.Abs() == was && swallowed == []
            else
              var begun := ActAll(Register(was, req, key).0, answering);
              && turns.Abs() == Unregister(After(begun, was.next, waits, n), key, req)
              && swallowed == if answer == RunAborted then Swallows(PollsOf(begun, was.next, waits)) else []
  {
    swallowed, n := [], 0;
    if !ws {
      return;
    }
    var queue := turns.RegisterTurn(req, key);
    if queue == None {
      return;
    }
    Suspend(turns, answering);
    ghost var begun := turns.Abs();
    if answer == RunAborted {
      ghost var c := CourseOf(begun, queue.value, waits);
      swallowed, n := Swallow(turns, queue.value, waits, c);
    }
    turns.UnregisterTurn(key, req);
  }

  /** While `abort` holds the key, the terminal `chat` of the aborted run, like every frame for the
      key, goes to its own queue and to no other, and no turn is given the key: in every run of
      the registry, however many turns try. */
  lemma AbortedRunStaysOut(
    maxSize: int, ops: seq<TurnRouting.Op>, w: TurnRouting.World, req: Req, key: Key, mid: seq<TurnRouting.Op>,
    w1: TurnRouting.World, ev: Event, now: real, p: nat, other: Req)
    requires TurnRouting.RunsTo(maxSize, ops, w) && key !in w.reg.sessions
    requires Goes(w, [TurnRouting.DoRegister(req, key)] + mid, w1)
    requires Undisturbed(mid, req) && now >= w1.clock
    ensures TurnRouting.Sound(w1) && Register(w1.reg, other, key) == (w1.reg, None)
    ensures var q, w2 := w.reg.next, TurnRouting.Step(w1, TurnRouting.BySession(key, Chat(ev), now));
            && q in w1.offered && q in w2.offered && w2.offered[q] == w1.offered[q] + [Chat(ev)]
            && (p in w1.reg.queues && p != q ==>
                  p in w2.reg.queues && w2.reg.queues[p] == w1.reg.queues[p] && w2.offered[p] == w1.offered[p])
  {
    HeldKeyKeepsFrames(maxSize, ops, w, req, key, mid, w1, Chat(ev), now, p, other);
  }

  /** And however `abort` ends, its request owns nothing afterwards. */
  lemma AbortReleases(
    maxSize: int, ops: seq<TurnRouting.Op>, w: TurnRouting.World, req: Req, key: Key,
    answering: seq<TurnRouting.Op>, waits: seq<seq<TurnRouting.Op>>, n: nat, w1: TurnRouting.World)
    requires TurnRouting.RunsTo(maxSize, ops, w) && n <= |waits|
    requires Goes(w, Call(req, key, answering + Meanwhile(w.reg.next, waits, n)), w1)
    ensures Released(w1.reg, req)
  {
    CallReleases(maxSize, ops, w, req, key, answering + Meanwhile(w.reg.next, waits, n), w1);
  }

  // ---------------------------------------------------------------- the terminal chat is swallowed

  /** Taking what is there ends exactly with the first item that ends the run. */
  lemma {:induction false} SwallowsExactly(polls: seq<Poll>, items: seq<Item>, j: nat)
    requires Gave(polls, items, j + 1) && Ends(items[j]) && forall k :: 0 <= k < j ==> !Ends(items[k])
    ensures Swallows(polls) == items[..j + 1]
  {
    assert polls[0] == Got(items[0]);
    if j == 0 {
    } else {
      forall k | 0 <= k < j ensures polls[1..][k] == Got(items[1..][k]) {
        assert polls[k + 1] == Got(items[k + 1]);
      }
      SwallowsExactly(polls[1..], items[1..], j - 1);
      assert items[..j + 1] == [items[0]] + items[1..][..j];
    }
  }

  /** Where the waits of `abort` begin, which is where its method has it. */
  lemma Begun(
    maxSize: int, ops: seq<TurnRouting.Op>, w: TurnRouting.World, req: Req, key: Key,
    answering: seq<TurnRouting.Op>, w0: TurnRouting.World)
    requires TurnRouting.RunsTo(maxSize, ops, w) && key !in w.reg.sessions
    requires Goes(w, [TurnRouting.DoRegister(req, key)] + answering, w0)
    requires Undisturbed(answering, req) && KeepOff(answering, w.reg.next)
    ensures TurnRouting.RunsTo(maxSize, ops + ([TurnRouting.DoRegister(req, key)] + answering), w0)
    ensures Closed(w.reg) && w0.reg == ActAll(Register(w.reg, req, key).0, answering)
    ensures w.reg.next in w0.taken && w0.taken[w.reg.next] == [] && Holds(w0.reg, req, key, w.reg.next)
  {
    GoesIsRun(maxSize, ops, w, [TurnRouting.DoRegister(req, key)] + answering, w0);
    ReachedInv(maxSize, ops, w);
    var wr := GoesSplit(w, [TurnRouting.DoRegister(req, key)], answering, w0);
    RegisterFresh(w, req, key, wr);
    GoesActs(wr, answering, w0);
    TakenStays(wr, answering, w0, w.reg.next);
    StillHeld(wr, req, key, w.reg.next, answering, w0);
  }

  lemma CourseStarts(r: Registry, q: nat, waits: seq<seq<TurnRouting.Op>>, c: Course)
    requires Closed(r) && q in r.queues && c == Course(Regs(r, q, waits), PollsOf(r, q, waits))
    ensures IsCourse(c, q, waits) && c.regs[0] == r
  {
    var _ := CourseOf(r, q, waits);
    FirstReg(r, q, waits);
  }

  /** The same from where the waits begin, along any course of them. */
  lemma SwallowsDelivered(
    maxSize: int, ops: seq<TurnRouting.Op>, w: TurnRouting.World, req: Req, key: Key, q: nat,
    waits: seq<seq<TurnRouting.Op>>, j: nat, w1: TurnRouting.World, c: Course)
    requires TurnRouting.RunsTo(maxSize, ops, w) && Holds(w.reg, req, key, q) && q in w.taken && w.taken[q] == []
    requires j < |waits| && Goes(w, Meanwhile(q, waits, j + 1), w1) && Undisturbed(Meanwhile(q, waits, j + 1), req)
    requires forall k :: 0 <= k < |waits| ==> KeepOff(waits[k], q)
    requires IsCourse(c, q, waits) && c.regs[0] == w.reg && NoneExpires(c.polls, j + 1) && key !in w1.reg.overflowed
    requires q in w1.offered && j < |w1.offered[q]| && Ends(w1.offered[q][j])
    requires forall k :: 0 <= k < j ==> !Ends(w1.offered[q][k])
    ensures Swallows(c.polls) == w1.offered[q][..j + 1]
  {
    PollsAreDeliveries(maxSize, ops, w, req, key, q, waits, j + 1, w1, c);
    SwallowsExactly(c.polls, w1.offered[q], j);
  }

  /** In every run of the registry: if the run on the key ends with delivery number `j` to the
      queue that `abort` holds, and no overflow, teardown or expired wait comes in between, then
      `abort` swallows exactly the deliveries up to that one, which is the last item it takes. */
  lemma TerminalIsSwallowed(
    maxSize: int, ops: seq<TurnRouting.Op>, w: TurnRouting.World, req: Req, key: Key,
    answering: seq<TurnRouting.Op>, waits: seq<seq<TurnRouting.Op>>, j: nat, w0: TurnRouting.World,
    w1: TurnRouting.World, c: Course)
    requires TurnRouting.RunsTo(maxSize, ops, w) && key !in w.reg.sessions && j < |waits|
    requires Goes(w, [TurnRouting.DoRegister(req, key)] + answering, w0)
    requires Goes(w0, Meanwhile(w.reg.next, waits, j + 1), w1)
    requires Undisturbed(answering, req) && Undisturbed(Meanwhile(w.reg.next, waits, j + 1), req)
    requires KeepOff(answering, w.reg.next) && forall k :: 0 <= k < |waits| ==> KeepOff(waits[k], w.reg.next)
    requires Closed(w0.reg) && w.reg.next in w0.reg.queues
    requires c == Course(Regs(w0.reg, w.reg.next, waits), PollsOf(w0.reg, w.reg.next, waits))
    requires NoneExpires(c.polls, j + 1) && key !in w1.reg.overflowed
    requires w.reg.next in w1.offered && j < |w1.offered[w.reg.next]| && Ends(w1.offered[w.reg.next][j])
    requires forall k :: 0 <= k < j ==> !Ends(w1.offered[w.reg.next][k])
    ensures Swallows(c.polls) == w1.offered[w.reg.next][..j + 1]
  {
    Begun(maxSize, ops, w, req, key, answering, w0);
    CourseStarts(w0.reg, w.reg.next, waits, c);
    var begun := ops + ([TurnRouting.DoRegister(req, key)] + answering);
    SwallowsDelivered(maxSize, begun, w0, req, key, w.reg.next, waits, j, w1, c);
  }
}
