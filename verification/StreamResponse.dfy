/** One turn on the shared connection: `OpenClawClient.stream_response`.

    The generator is driven by what its queue holds when it waits, by what happens to the
    registry meanwhile, and by how many events its consumer takes before closing it. */
module StreamResponse {
  import opened Common
  import opened ChatText
  import opened TurnItems
  import opened TurnRegistry
  import TurnRouting
  import opened TurnCall

  /** What `stream_response` yields. */
  datatype Out = Token(text: string) | ToolCall(id: nat) | Done | Error(code: string)

  predicate Terminal(o: Out) { o.Done? || o.Error? }

  const UNAVAILABLE := "orchestrator_unavailable"
  const IN_PROGRESS := "turn_in_progress"
  const SEND_FAILED := "orchestrator_send_failed"
  const TURN_TIMEOUT := "turn_timeout"
  const TURN_OVERFLOW := "turn_overflow"
  const ORCHESTRATOR_ERROR := "orchestrator_error"

  /** Outcome of writing `chat.send`. `Interrupted`: the consumer goes away meanwhile. */
  datatype Send = Written | Broken | Interrupted

  /** `finished` is the flag that keeps the `finally` from sending `chat.abort`. */
  datatype Outcome = Outcome(outs: seq<Out>, finished: bool)

  function Before(o: Out, rest: Outcome): Outcome { rest.(outs := [o] + rest.outs) }

  /** The loop, from a tracker in state `t`. The consumer takes `patience` more events and
      closes the generator at the yield of the next one. */
  function Serve(t: Text, polls: seq<Poll>, patience: nat): Outcome
    decreases |polls|, 1
  {
    if |polls| == 0 then Outcome([], false)
    else match polls[0]
      case TimedOut => Outcome([Error(TURN_TIMEOUT)], false)
      case Got(Chat(ev)) =>
        var (t1, token) := Feed(t, ev);
        if token == "" then AfterChat(t1, ev, polls, patience)
        else if patience == 0 then Outcome([Token(token)], false)
        else Before(Token(token), AfterChat(t1, ev, polls, patience - 1))
      case Got(Tool(id, readable)) =>
        if !readable then Serve(t, polls[1..], patience)
        else if patience == 0 then Outcome([ToolCall(id)], false)
        else Before(ToolCall(id), Serve(t, polls[1..], patience - 1))
      case Got(Rejected) => Outcome([Error(ORCHESTRATOR_ERROR)], true)
      case Got(Overflow) => Outcome([Error(TURN_OVERFLOW)], false)
      case Got(Lost(message)) => Outcome([Error(message)], true)
  }

  /** The rest of a `chat` event, its token being out. */
  function AfterChat(t: Text, ev: Event, polls: seq<Poll>, patience: nat): Outcome
    requires |polls| > 0
    decreases |polls|, 0
  {
    if ev.state == Final then Outcome([Done], true)
    else if ev.state == Failed then Outcome([Error(ORCHESTRATOR_ERROR)], true)
    else Serve(t, polls[1..], patience)
  }

  datatype Response = Response(outs: seq<Out>, aborted: bool)

  /** The whole call. `wsBefore`, `wsAfter`: the socket is there at the start and in the
      `finally`; `busy`: another turn owns the session key; `send`: what became of `chat.send`. */
  function Respond(
    wsBefore: bool, busy: bool, send: Send, polls: seq<Poll>, patience: nat, wsAfter: bool): Response
  {
    if !wsBefore then Response([Error(UNAVAILABLE)], false)
    else if busy then Response([Error(IN_PROGRESS)], false)
    else if send == Broken then Response([Error(SEND_FAILED)], false)
    else if send == Interrupted then Response([], false)
    else
      var o := Serve(EMPTY, polls, patience);
      Response(o.outs, !o.finished && wsAfter)
  }

  // ---------------------------------------------------------------- the generator on the registry

  /** The whole outcome, once `outs` went out, is `rest` after them. */
  predicate Continues(whole: Outcome, outs: seq<Out>, rest: Outcome) {
    whole == Outcome(outs + rest.outs, rest.finished)
  }

  lemma ContinuesOn(whole: Outcome, outs: seq<Out>, now: Outcome, more: seq<Out>, rest: Outcome)
    requires Continues(whole, outs, now) && Continues(now, more, rest)
    ensures Continues(whole, outs + more, rest)
  {
    assert outs + (more + rest.outs) == (outs + more) + rest.outs;
  }

  /** One item from the queue: the events it makes the generator yield, whether it stops there,
      left by its consumer or of itself, and whether the turn counts as finished. */
  method HandleItem(tracker: ChatTextTracker, item: Item, left: nat, ghost polls: seq<Poll>)
    returns (outs: seq<Out>, stop: bool, finished: bool)
    requires |polls| > 0 && polls[0] == Got(item)
    modifies tracker
    ensures !stop ==> |outs| <= left
    ensures Continues(Serve(old(tracker.Abs()), polls, left), outs,
                      if stop then Outcome([], finished) else Serve(tracker.Abs(), polls[1..], left - |outs|))
  {
    outs, stop, finished := [], true, false;
    match item
    case Chat(ev) =>
      var delta := tracker.FeedEvent(ev);
      if delta != "" {
        outs := [Token(delta)];
        if left == 0 {
          return;
        }
      }
      if ev.state == Final {
        return outs + [Done], true, true;
      }
      if ev.state == Failed {
        return outs + [Error(ORCHESTRATOR_ERROR)], true, true;
      }
      stop := false;
    case Tool(id, readable) =>
      if readable {
        outs := [ToolCall(id)];
        if left == 0 {
          return;
        }
      }
      stop := false;
    case Rejected => return [Error(ORCHESTRATOR_ERROR)], true, true;
    case Overflow => return [Error(TURN_OVERFLOW)], true, false;
    case Lost(message) => return [Error(message)], true, true;
  }

  /** One turn of the loop, with `rest` still to come. */
  method Turn(
    turns: TurnRegistry, q: nat, tracker: ChatTextTracker, waits: seq<seq<TurnRouting.Op>>, i: nat, left: nat,
    ghost c: Course, ghost rest: Outcome)
    returns (outs: seq<Out>, stop: bool, finished: bool, ghost rest1: Outcome)
    requires turns.Valid() && i < |waits| && StepAt(c, q, waits, i) && i < |c.polls| && turns.Abs() == c.regs[i]
    requires rest == Serve(tracker.Abs(), c.polls[i..], left)
    modifies turns, tracker
    ensures turns.Valid() && turns.Abs() == c.regs[i + 1]
    ensures c.polls[i] == TimedOut ==> stop
    ensures Continues(rest, outs, rest1)
    ensures if stop then rest1 == Outcome([], finished)
            else |outs| <= left && rest1 == Serve(tracker.Abs(), c.polls[i + 1..], left - |outs|)
  {
    var got := Await(turns, q, waits[i]);
    if got == None {
      assert c.polls[i..] == [TimedOut];
      return [Error(TURN_TIMEOUT)], true, false, Outcome([], false);
    }
    assert c.polls[i..][1..] == c.polls[i + 1..];
    outs, stop, finished := HandleItem(tracker, got.value, left, c.polls[i..]);
    rest1 := if stop then Outcome([], finished) else Serve(tracker.Abs(), c.polls[i + 1..], left - |outs|);
  }

  method Loop(
    turns: TurnRegistry, q: nat, waits: seq<seq<TurnRouting.Op>>, patience: nat, ghost c: Course, ghost whole: Outcome)
    returns (outs: seq<Out>, finished: bool, ghost n: nat)
    requires turns.Valid() && IsCourse(c, q, waits) && turns.Abs() == c.regs[0]
    requires whole == Serve(EMPTY, c.polls[0..], patience)
    modifies turns
    ensures turns.Valid() && n <= |waits| && turns.Abs() == c.regs[n]
    ensures whole == Outcome(outs, finished)
  {
    outs, finished := [], false;
    ghost var rest := whole;
    var tracker := new ChatTextTracker();
    var i: nat, left: nat := 0, patience;
    while i < |waits|
      invariant i <= |waits| && i <= |c.polls| && (i < |waits| ==> i < |c.polls|)
      invariant turns.Valid() && turns.Abs() == c.regs[i] && fresh(tracker)
      invariant Continues(whole, outs, rest) && rest == Serve(tracker.Abs(), c.polls[i..], left)
      decreases |waits| - i
    {
      assert StepAt(c, q, waits, i);
      ghost var rest1;
      var more, stop, ends;
      more, stop, ends, rest1 := Turn(turns, q, tracker, waits, i, left, c, rest);
      i := i + 1;
      ContinuesOn(whole, outs, rest, more, rest1);
      outs, rest := outs + more, rest1;
      if stop {
        return outs, ends, i;
      }
      left := left - |more|;
    }
    assert c.polls[i..] == [];
    n := i;
  }

  /** The generator: it registers, serves its queue and unregisters on every way out. `sending`
      happens to the registry while `chat.send` is written, `leaving` while the generator is
      suspended for the last time. */
  method StreamResponse(
    turns: TurnRegistry, req: Req, key: Key, wsBefore: bool, send: Send, sending: seq<TurnRouting.Op>,
    waits: seq<seq<TurnRouting.Op>>, leaving: seq<TurnRouting.Op>, patience: nat, wsAfter: bool)
    returns (r: Response, ghost n: nat)
    requires turns.Valid()
    modifies turns
    ensures turns.Valid() && n <= |waits|
    ensures var was := old(turns.Abs());
            if !wsBefore || key in was.sessions
            then turns.Abs() == was && r == Respond(wsBefore, key in was.sessions, send, [], patience, wsAfter)
            else
              var begun := ActAll(Register(was, req, key).0, sending);
              && turns.Abs() == Unregister(ActAll(After(begun, was.next, waits, n), leaving), key, req)
              && r == Respond(true, false, send, PollsOf(begun, was.next, waits), patience, wsAfter)
  {
    n := 0;
    if !wsBefore {
      return Response([Error(UNAVAILABLE)], false), 0;
    }
    var queue := turns.RegisterTurn(req, key);
    if queue == None {
      return Response([Error(IN_PROGRESS)], false), 0;
    }
    var outs: seq<Out> := [];
    var sent, finished := false, false;
    Suspend(turns, sending);
    if send == Broken {
      outs := [Error(SEND_FAILED)];
      finished := true;
    } else if send == Written {
      sent := true;
      ghost var begun := turns.Abs();
      ghost var c := CourseOf(begun, queue.value, waits);
      assert c.polls[0..] == c.polls;
      outs, finished, n := Loop(turns, queue.value, waits, patience, c, Serve(EMPTY, c.polls, patience));
    }
    Suspend(turns, leaving);
    turns.UnregisterTurn(key, req);
    r := Response(outs, sent && !finished && wsAfter);
  }

  /** In every run of the registry, for every queue content and wherever the consumer leaves:
      after the call its request owns no key, and unregistering has touched no other key, nor
      its own if another turn has it by then. */
  lemma KeyIsReleased(
    maxSize: int, ops: seq<TurnRouting.Op>, w: TurnRouting.World, req: Req, key: Key,
    sending: seq<TurnRouting.Op>, waits: seq<seq<TurnRouting.Op>>, n: nat, leaving: seq<TurnRouting.Op>,
    w1: TurnRouting.World)
    requires TurnRouting.RunsTo(maxSize, ops, w) && key !in w.reg.sessions && n <= |waits|
    requires Goes(w, Call(req, key, sending + Meanwhile(w.reg.next, waits, n) + leaving), w1)
    ensures Closed(w.reg) && Closed(Register(w.reg, req, key).0)
    ensures var begun := ActAll(Register(w.reg, req, key).0, sending);
            var before := ActAll(After(begun, w.reg.next, waits, n), leaving);
            && w1.reg == Unregister(before, key, req)
            && Released(w1.reg, req) && SparesOthers(before, w1.reg, key)
            && (key in before.owner && before.owner[key] != req ==> w1.reg == before)
  {
    var mid := sending + Meanwhile(w.reg.next, waits, n) + leaving;
    CallReleases(maxSize, ops, w, req, key, mid, w1);
    var register := TurnRouting.DoRegister(req, key);
    ActSnoc(w.reg, [], register);
    assert [] + [register] == [register];
    ActSplit(w.reg, [register], mid);
    ActSplit(Register(w.reg, req, key).0, sending + Meanwhile(w.reg.next, waits, n), leaving);
    ActSplit(Register(w.reg, req, key).0, sending, Meanwhile(w.reg.next, waits, n));
  }

  // ---------------------------------------------------------------- one terminal event, last

  predicate TerminalOnlyLast(outs: seq<Out>) {
    forall i :: 0 <= i < |outs| - 1 ==> !Terminal(outs[i])
  }

  lemma {:induction false} ServeTerminalLast(t: Text, polls: seq<Poll>, patience: nat)
    ensures TerminalOnlyLast(Serve(t, polls, patience).outs)
    decreases |polls|
  {
    if |polls| > 0 && polls[0].Got? {
      match polls[0].item
      case Chat(ev) =>
        ServeTerminalLast(Feed(t, ev).0, polls[1..], patience);
        if patience > 0 { ServeTerminalLast(Feed(t, ev).0, polls[1..], patience - 1); }
      case Tool(_, _) =>
        ServeTerminalLast(t, polls[1..], patience);
        if patience > 0 { ServeTerminalLast(t, polls[1..], patience - 1); }
      case _ =>
    }
  }

  /** For every sequence of queue items and every point where the consumer may leave: at most
      one terminal event, and nothing after it. */
  lemma OneTerminalEvent(wsBefore: bool, busy: bool, send: Send, polls: seq<Poll>, patience: nat, wsAfter: bool)
    ensures TerminalOnlyLast(Respond(wsBefore, busy, send, polls, patience, wsAfter).outs)
  {
    ServeTerminalLast(EMPTY, polls, patience);
  }

  // ---------------------------------------------------------------- chat.abort

  /** A final, an agent error, a rejected response or a lost connection. */
  predicate EndsTurn(p: Poll) {
    && p.Got?
    && (|| p.item.Rejected? || p.item.Lost?
        || (p.item.Chat? && (p.item.ev.state == Final || p.item.ev.state == Failed)))
  }

  /** What the generator makes of one poll, but for the event that ends the turn. */
  function Content(t: Text, p: Poll): seq<Out> {
    if p.Got? && p.item.Chat? && Feed(t, p.item.ev).1 != "" then [Token(Feed(t, p.item.ev).1)]
    else if p.Got? && p.item.Tool? && p.item.readable then [ToolCall(p.item.id)]
    else []
  }

  function Fed(t: Text, p: Poll): Text {
    if p.Got? && p.item.Chat? then Feed(t, p.item.ev).0 else t
  }

  predicate Stops(p: Poll) { !p.Got? || p.item.Overflow? }

  /** The item that ends the turn is taken from the queue. */
  predicate TurnEnded(t: Text, polls: seq<Poll>, patience: nat)
    decreases |polls|
  {
    && |polls| > 0 && !Stops(polls[0])
    && (EndsTurn(polls[0])
        || (|Content(t, polls[0])| <= patience
            && TurnEnded(Fed(t, polls[0]), polls[1..], patience - |Content(t, polls[0])|)))
  }

  /** The consumer leaves at the very token that the item ending the turn carried. */
  predicate LeavesOnLastToken(t: Text, polls: seq<Poll>, patience: nat)
    decreases |polls|
  {
    && |polls| > 0 && !Stops(polls[0])
    && if EndsTurn(polls[0]) then patience < |Content(t, polls[0])|
       else
         && |Content(t, polls[0])| <= patience
         && LeavesOnLastToken(Fed(t, polls[0]), polls[1..], patience - |Content(t, polls[0])|)
  }

  lemma {:induction false} FinishedExactly(t: Text, polls: seq<Poll>, patience: nat)
    ensures Serve(t, polls, patience).finished
            <==> TurnEnded(t, polls, patience) && !LeavesOnLastToken(t, polls, patience)
    ensures LeavesOnLastToken(t, polls, patience) ==> TurnEnded(t, polls, patience)
    decreases |polls|
  {
    if |polls| > 0 && polls[0].Got? && !EndsTurn(polls[0]) && !Stops(polls[0])
       && |Content(t, polls[0])| <= patience {
      FinishedExactly(Fed(t, polls[0]), polls[1..], patience - |Content(t, polls[0])|);
    }
  }

  /** `chat.abort` goes out exactly when the request was written, the socket is still there and
      the turn did not end upstream, or the consumer left on the last token of a turn that did. */
  lemma AbortExactly(wsBefore: bool, busy: bool, send: Send, polls: seq<Poll>, patience: nat, wsAfter: bool)
    ensures Respond(wsBefore, busy, send, polls, patience, wsAfter).aborted
            <==> wsBefore && !busy && send == Written && wsAfter
                 && (!TurnEnded(EMPTY, polls, patience) || LeavesOnLastToken(EMPTY, polls, patience))
  {
    FinishedExactly(EMPTY, polls, patience);
  }

  /** So the intended rule, no abort for a turn that ended, holds if and only if the consumer
      does not leave on such a token. */
  lemma NoAbortAfterEnd(polls: seq<Poll>, patience: nat)
    ensures var aborted := Respond(true, false, Written, polls, patience, true).aborted;
            (aborted <==> !TurnEnded(EMPTY, polls, patience)) <==> !LeavesOnLastToken(EMPTY, polls, patience)
  {
    FinishedExactly(EMPTY, polls, patience);
  }

  /** It does fail: a lone `final` carrying "hi", closed at its token. */
  lemma AbortAfterFinal()
    ensures var polls := [Got(Chat(Event(Final, Absent, Given("hi"), false)))];
            TurnEnded(EMPTY, polls, 0) && Respond(true, false, Written, polls, 0, true).aborted
  {
    var ev := Event(Final, Absent, Given("hi"), false);
    assert LStrip("") == "";
    assert Feed(EMPTY, ev).1 == "hi";
  }

  // ---------------------------------------------------------------- the reply reaches the consumer

  /** The text of the tokens among `outs`. */
  function Spoken(outs: seq<Out>): string {
    if |outs| == 0 then ""
    else
      var last := outs[|outs| - 1];
      if last.Token? then Spoken(outs[..|outs| - 1]) + last.text else Spoken(outs[..|outs| - 1])
  }

  /** A poll that neither ends the turn nor meets a consumer leaving. */
  predicate GoesOn(t: Text, p: Poll, patience: nat) {
    !Stops(p) && !EndsTurn(p) && |Content(t, p)| <= patience
  }

  /** The chat events the loop takes from its queue. */
  function Taken(t: Text, polls: seq<Poll>, patience: nat): seq<Event>
    decreases |polls|
  {
    if |polls| == 0 || Stops(polls[0]) then []
    else
      if !GoesOn(t, polls[0], patience) then ChatOf(polls[0])
      else ChatOf(polls[0]) + Taken(Fed(t, polls[0]), polls[1..], patience - |Content(t, polls[0])|)
  }

  /** The tracker when the last of them is in, before the reset that a `final` ends with. */
  function Ends(t: Text, polls: seq<Poll>, patience: nat): Text
    decreases |polls|
  {
    if |polls| == 0 || Stops(polls[0]) then t
    else if GoesOn(t, polls[0], patience)
    then Ends(Fed(t, polls[0]), polls[1..], patience - |Content(t, polls[0])|)
    else if polls[0].item.Chat? then Update(t, polls[0].item.ev).0
    else t
  }

  lemma SpokenSnoc(outs: seq<Out>, o: Out)
    ensures Spoken(outs + [o]) == if o.Token? then Spoken(outs) + o.text else Spoken(outs)
  {
    assert (outs + [o])[..|outs|] == outs;
  }

  lemma GoOn(acc: seq<Out>, t: Text, polls: seq<Poll>, patience: nat)
    requires |polls| > 0 && GoesOn(t, polls[0], patience)
    ensures acc + Serve(t, polls, patience).outs
            == (acc + Content(t, polls[0]))
               + Serve(Fed(t, polls[0]), polls[1..], patience - |Content(t, polls[0])|).outs
  {
    var rest := Serve(Fed(t, polls[0]), polls[1..], patience - |Content(t, polls[0])|).outs;
    assert Serve(t, polls, patience).outs == Content(t, polls[0]) + rest;
    AssocOuts(acc, Content(t, polls[0]), rest);
  }

  lemma AssocOuts(a: seq<Out>, b: seq<Out>, c: seq<Out>)
    ensures a + (b + c) == (a + b) + c
  {
  }

  /** What one poll yields is what the tracker adds. */
  lemma SameToken(acc: seq<Out>, t: Text, p: Poll)
    requires Spoken(acc) == t.allOut && p.Got?
    ensures var t1 := if p.item.Chat? then Update(t, p.item.ev).0 else t;
            Spoken(acc + Content(t, p)) == t1.allOut
  {
    if p.item.Chat? { UpdateAdds(t, p.item.ev); }
    if |Content(t, p)| == 0 {
      assert acc + Content(t, p) == acc;
    } else {
      assert Content(t, p) == [Content(t, p)[0]];
      SpokenSnoc(acc, Content(t, p)[0]);
    }
  }

  lemma EndsThere(t: Text, polls: seq<Poll>, patience: nat)
    requires |polls| > 0 && !GoesOn(t, polls[0], patience)
    ensures var outs := Serve(t, polls, patience).outs;
            var content := if Stops(polls[0]) then [] else Content(t, polls[0]);
            outs == content || (outs != [] && Terminal(outs[|outs| - 1]) && outs == content + [outs[|outs| - 1]])
  {
  }

  lemma LastPoll(acc: seq<Out>, t: Text, polls: seq<Poll>, patience: nat)
    requires |polls| > 0 && !GoesOn(t, polls[0], patience)
    ensures Spoken(acc + Serve(t, polls, patience).outs)
            == Spoken(acc + if Stops(polls[0]) then [] else Content(t, polls[0]))
  {
    EndsThere(t, polls, patience);
    var content := if Stops(polls[0]) then [] else Content(t, polls[0]);
    SpokenEnd(acc, content, Serve(t, polls, patience).outs);
  }

  lemma SpokenEnd(acc: seq<Out>, content: seq<Out>, outs: seq<Out>)
    requires outs == content || (outs != [] && Terminal(outs[|outs| - 1]) && outs == content + [outs[|outs| - 1]])
    ensures Spoken(acc + outs) == Spoken(acc + content)
  {
    if outs != content {
      assert acc + outs == (acc + content) + [outs[|outs| - 1]];
      SpokenSnoc(acc + content, outs[|outs| - 1]);
    }
  }

  lemma DeliveredLast(acc: seq<Out>, t: Text, polls: seq<Poll>, patience: nat)
    requires Spoken(acc) == t.allOut && |polls| > 0 && !GoesOn(t, polls[0], patience)
    ensures Spoken(acc + Serve(t, polls, patience).outs) == Ends(t, polls, patience).allOut
  {
    LastPoll(acc, t, polls, patience);
    if Stops(polls[0]) {
      assert acc + [] == acc;
    } else {
      SameToken(acc, t, polls[0]);
    }
  }

  lemma FedKeeps(acc: seq<Out>, t: Text, p: Poll, patience: nat)
    requires Spoken(acc) == t.allOut && GoesOn(t, p, patience)
    ensures Spoken(acc + Content(t, p)) == Fed(t, p).allOut
  {
    SameToken(acc, t, p);
  }

  /** What was spoken, once all is out, is what the tracker has delivered. */
  predicate SpeaksAll(acc: seq<Out>, t: Text, polls: seq<Poll>, patience: nat) {
    Spoken(acc + Serve(t, polls, patience).outs) == Ends(t, polls, patience).allOut
  }

  lemma EndsOn(t: Text, polls: seq<Poll>, patience: nat)
    requires |polls| > 0 && GoesOn(t, polls[0], patience)
    ensures Ends(t, polls, patience) == Ends(Fed(t, polls[0]), polls[1..], patience - |Content(t, polls[0])|)
  {
  }

  lemma SpeaksNothing(acc: seq<Out>, t: Text, polls: seq<Poll>, patience: nat)
    requires |polls| == 0 && Spoken(acc) == t.allOut
    ensures SpeaksAll(acc, t, polls, patience)
  {
    assert acc + [] == acc;
  }

  lemma SpeaksOn(acc: seq<Out>, t: Text, polls: seq<Poll>, patience: nat)
    requires |polls| > 0 && GoesOn(t, polls[0], patience)
    requires var first := Content(t, polls[0]); SpeaksAll(acc + first, Fed(t, polls[0]), polls[1..], patience - |first|)
    ensures SpeaksAll(acc, t, polls, patience)
  {
    GoOn(acc, t, polls, patience);
    EndsOn(t, polls, patience);
  }

  lemma {:induction false} TokensAreDelivered(acc: seq<Out>, t: Text, polls: seq<Poll>, patience: nat)
    requires Spoken(acc) == t.allOut
    ensures SpeaksAll(acc, t, polls, patience)
    decreases |polls|
  {
    if |polls| == 0 {
      SpeaksNothing(acc, t, polls, patience);
    } else if GoesOn(t, polls[0], patience) {
      FedKeeps(acc, t, polls[0], patience);
      TokensAreDelivered(acc + Content(t, polls[0]), Fed(t, polls[0]), polls[1..], patience - |Content(t, polls[0])|);
      SpeaksOn(acc, t, polls, patience);
    } else {
      DeliveredLast(acc, t, polls, patience);
    }
  }

  lemma RunSnoc(evs: seq<Event>, ev: Event)
    ensures Run(evs + [ev]) == Feed(Run(evs), ev).0
    ensures (evs + [ev])[..|evs|] == evs
  {
    assert (evs + [ev])[..|evs|] == evs;
  }

  /** The tracker after the last of `evs`, before the reset. */
  function Last(evs: seq<Event>): Text {
    if |evs| == 0 then EMPTY else Update(Run(evs[..|evs| - 1]), evs[|evs| - 1]).0
  }

  function ChatOf(p: Poll): seq<Event> { if p.Got? && p.item.Chat? then [p.item.ev] else [] }

  lemma TakenStep(evs: seq<Event>, t: Text, polls: seq<Poll>, patience: nat)
    requires |polls| > 0 && GoesOn(t, polls[0], patience)
    ensures var left := patience - |Content(t, polls[0])|;
            && evs + Taken(t, polls, patience) == (evs + ChatOf(polls[0])) + Taken(Fed(t, polls[0]), polls[1..], left)
            && Ends(t, polls, patience) == Ends(Fed(t, polls[0]), polls[1..], left)
  {
    var rest := Taken(Fed(t, polls[0]), polls[1..], patience - |Content(t, polls[0])|);
    assert Taken(t, polls, patience) == ChatOf(polls[0]) + rest;
    Assoc(evs, ChatOf(polls[0]), rest);
  }

  lemma Assoc(a: seq<Event>, b: seq<Event>, c: seq<Event>)
    ensures a + (b + c) == (a + b) + c
  {
  }

  lemma TakenLast(evs: seq<Event>, t: Text, polls: seq<Poll>, patience: nat)
    requires Last(evs) == Run(evs) == t
    requires |polls| == 0 || !GoesOn(t, polls[0], patience)
    ensures Ends(t, polls, patience) == Last(evs + Taken(t, polls, patience))
  {
    if |polls| == 0 || Stops(polls[0]) {
      assert evs + [] == evs;
    } else {
      OneMore(evs, t, polls[0]);
    }
  }

  lemma {:induction false} EndsIsRun(evs: seq<Event>, t: Text, polls: seq<Poll>, patience: nat)
    requires Last(evs) == Run(evs) == t
    ensures Ends(t, polls, patience) == Last(evs + Taken(t, polls, patience))
    decreases |polls|
  {
    if |polls| > 0 && GoesOn(t, polls[0], patience) {
      OneMore(evs, t, polls[0]);
      TakenStep(evs, t, polls, patience);
      EndsIsRun(evs + ChatOf(polls[0]), Fed(t, polls[0]), polls[1..], patience - |Content(t, polls[0])|);
    } else {
      TakenLast(evs, t, polls, patience);
    }
  }

  lemma OneMore(evs: seq<Event>, t: Text, p: Poll)
    requires Last(evs) == Run(evs) == t && p.Got?
    ensures var evs1 := evs + ChatOf(p);
            && (p.item.Chat? ==> Last(evs1) == Update(t, p.item.ev).0)
            && (!p.item.Chat? ==> Last(evs1) == t)
            && Run(evs1) == Fed(t, p)
            && (!EndsTurn(p) ==> Last(evs1) == Run(evs1))
  {
    assert evs + [] == evs;
    if p.item.Chat? { RunSnoc(evs, p.item.ev); }
  }

  lemma LastIsDelivered(evs: seq<Event>)
    requires |evs| > 0
    ensures Last(evs).allOut == DeliveredWith(evs)
  {
    RunKeeps(evs[..|evs| - 1]);
    UpdateKeeps(Run(evs[..|evs| - 1]), evs[|evs| - 1]);
  }

  /** The tokens yielded are what the tracker delivers for the chat events taken. */
  lemma TokensOfRun(polls: seq<Poll>, patience: nat)
    requires Taken(EMPTY, polls, patience) != []
    ensures Spoken(Serve(EMPTY, polls, patience).outs) == DeliveredWith(Taken(EMPTY, polls, patience))
  {
    SpokenIsOut(polls, patience);
    EndsIsLast(polls, patience);
    LastIsDelivered(Taken(EMPTY, polls, patience));
  }

  lemma SpokenIsOut(polls: seq<Poll>, patience: nat)
    ensures Spoken(Serve(EMPTY, polls, patience).outs) == Ends(EMPTY, polls, patience).allOut
  {
    EmptyText();
    TokensAreDelivered([], EMPTY, polls, patience);
    NothingBefore(Serve(EMPTY, polls, patience).outs);
  }

  lemma EmptyText()
    ensures Spoken([]) == EMPTY.allOut
  {
  }

  lemma NothingBefore(outs: seq<Out>)
    ensures [] + outs == outs
  {
  }

  lemma EndsIsLast(polls: seq<Poll>, patience: nat)
    ensures Ends(EMPTY, polls, patience) == Last(Taken(EMPTY, polls, patience))
  {
    EndsIsRun([], EMPTY, polls, patience);
    assert [] + Taken(EMPTY, polls, patience) == Taken(EMPTY, polls, patience);
  }

  /** The text yielded is that of the chat events taken, if there are any. */
  lemma SpokenReply(polls: seq<Poll>, patience: nat, wsAfter: bool)
    requires Taken(EMPTY, polls, patience) != []
    ensures Spoken(Respond(true, false, Written, polls, patience, wsAfter).outs)
         == DeliveredWith(Taken(EMPTY, polls, patience))
  {
    TokensOfRun(polls, patience);
  }

  /** End to end: whatever arrives and wherever the consumer leaves, the text of the last chat
      event taken from the queue, but for its leading whitespace, is in one piece in the tokens
      yielded. */
  lemma ReplyReachesConsumer(polls: seq<Poll>, patience: nat, wsAfter: bool)
    ensures var evs := Taken(EMPTY, polls, patience);
            var text := Spoken(Respond(true, false, Written, polls, patience, wsAfter).outs);
            |evs| > 0 && MessageText(evs) != "" ==> Occurs(LStrip(MessageText(evs)), text)
  {
    var evs := Taken(EMPTY, polls, patience);
    if |evs| > 0 && MessageText(evs) != "" {
      SpokenReply(polls, patience, wsAfter);
      NoTextIsLost(evs);
    }
  }

  /** The text of the tokens for agreeing events. */
  lemma LongestIsSpoken(evs: seq<Event>, text: string)
    requires |evs| > 0 && Agree(evs) && text == DeliveredWith(evs)
    ensures text == Longer(Longest(evs[..|evs| - 1]), MessageText(evs))
  {
    NothingIsRepeated(evs);
  }

  /** While the texts agree, the tokens yielded are exactly the longest of them. */
  lemma ReplyIsNotRepeated(polls: seq<Poll>, patience: nat, wsAfter: bool)
    ensures var evs := Taken(EMPTY, polls, patience);
            var text := Spoken(Respond(true, false, Written, polls, patience, wsAfter).outs);
            |evs| > 0 && Agree(evs) ==> text == Longer(Longest(evs[..|evs| - 1]), MessageText(evs))
  {
    var evs := Taken(EMPTY, polls, patience);
    if |evs| > 0 && Agree(evs) {
      SpokenReply(polls, patience, wsAfter);
      LongestIsSpoken(evs, Spoken(Respond(true, false, Written, polls, patience, wsAfter).outs));
    }
  }
}
