/** Whole runs of the turn registry: who owns a session key, what a queue holds, and how long
    an aborted turn stays dead. */
module TurnRouting {
  import opened Common
  import opened TurnItems
  import opened TurnRegistry

  /** The registry with its history. `used`: the key every request id was registered for.
      `home`: the key a queue was made for. `offered`, `taken`: what was delivered to a queue
      while it was registered, and what its consumer took. `overflows`: key and time of each. `torn`: the
      connection was torn down at least once. */
  datatype World = World(
    reg: Registry,
    used: map<Req, Key>,
    home: map<nat, Key>,
    offered: map<nat, seq<Item>>,
    taken: map<nat, seq<Item>>,
    overflows: seq<(Key, real)>,
    torn: bool,
    clock: real
  )

  /** `Take`: the consumer of a queue gets its next item, or gives up with none there. */
  datatype Op =
    | DoRegister(req: Req, key: Key)
    | DoUnregister(key: Key, req: Req)
    | BySession(key: Key, item: Item, now: real)
    | ByReq(req: Req, item: Item, now: real)
    | Take(q: nat)
    | Teardown(message: string)
    | Ask(key: Key, now: real)

  function Start(maxSize: int): World {
    World(Registry(maxSize, map[], map[], map[], {}, map[], map[], map[], 0),
          map[], map[], map[], map[], [], false, 0.0)
  }

  /** Request ids are fresh, a turn cleans up the key it registered, and the clock is monotone. */
  predicate Allowed(w: World, op: Op) {
    match op
    case DoRegister(req, _) => req !in w.used
    case DoUnregister(key, req) => req in w.used && w.used[req] == key
    case BySession(_, _, now) => now >= w.clock
    case ByReq(_, _, now) => now >= w.clock
    case Take(q) => q in w.reg.queues
    case Teardown(_) => true
    case Ask(_, now) => now >= w.clock
  }

  /** What the registry needs to be well defined. */
  predicate Sound(w: World) {
    && (forall k :: k in w.reg.sessions ==> w.reg.sessions[k] in w.reg.queues)
    && w.offered.Keys == w.reg.queues.Keys && w.taken.Keys == w.reg.queues.Keys && w.home.Keys == w.reg.queues.Keys
    && (forall q :: q in w.reg.queues ==> q < w.reg.next)
  }

  /** An item reaches the queue registered for `key`. */
  function Offer(w: World, key: Key, item: Item, now: real): World
    requires Sound(w)
  {
    if key !in w.reg.sessions then w.(clock := now)
    else
      var q := w.reg.sessions[key];
      var overflows := key !in w.reg.overflowed && Full(w.reg.maxSize, w.reg.queues[q]);
      w.(reg := Deliver(w.reg, key, q, item, now), clock := now,
         offered := w.offered[q := w.offered[q] + [item]],
         overflows := if overflows then w.overflows + [(key, now)] else w.overflows)
  }

  function Step(w: World, op: Op): World
    requires Sound(w) && Allowed(w, op)
  {
    match op
    case DoRegister(req, key) =>
      var (reg, q) := Register(w.reg, req, key);
      if q == None then w.(used := w.used[req := key])
      else w.(reg := reg, used := w.used[req := key], home := w.home[q.value := key],
              offered := w.offered[q.value := []], taken := w.taken[q.value := []])
    case DoUnregister(key, req) => w.(reg := Unregister(w.reg, key, req))
    case BySession(key, item, now) => Offer(w, key, item, now)
    case ByReq(req, item, now) => if req in w.reg.reqs then Offer(w, w.reg.reqs[req], item, now) else w.(clock := now)
    case Take(q) =>
      if w.reg.queues[q] == [] then w
      else w.(reg := w.reg.(queues := w.reg.queues[q := w.reg.queues[q][1..]]),
              taken := w.taken[q := w.taken[q] + [w.reg.queues[q][0]]])
    case Teardown(message) => w.(reg := ErrorAll(w.reg, message), torn := true)
    case Ask(key, now) => w.(reg := IsAborted(w.reg, key, now).0, clock := now)
  }

  // ---------------------------------------------------------------- invariants

  /** Session keys and owning requests match, both ways. */
  predicate Matched(sessions: map<Key, nat>, owner: map<Key, Req>, reqs: map<Req, Key>) {
    && sessions.Keys == owner.Keys
    && (forall k :: k in owner ==> owner[k] in reqs && reqs[owner[k]] == k)
    && (forall q :: q in reqs ==> reqs[q] in owner && owner[reqs[q]] == q)
  }

  /** Every request still known was registered for its key, every registered queue made for its. */
  predicate Recorded(sessions: map<Key, nat>, reqs: map<Req, Key>, used: map<Req, Key>, home: map<nat, Key>) {
    && (forall q :: q in reqs ==> q in used && used[q] == reqs[q])
    && (forall k :: k in sessions ==> sessions[k] in home && home[sessions[k]] == k)
  }

  predicate Owned(w: World) {
    && Matched(w.reg.sessions, w.reg.owner, w.reg.reqs)
    && Recorded(w.reg.sessions, w.reg.reqs, w.used, w.home)
    && w.reg.overflowed <= w.reg.sessions.Keys
  }

  /** Everything that ever was at the consumer's end of queue `q`. */
  function Seen(w: World, q: nat): seq<Item>
    requires q in w.taken && q in w.reg.queues
  {
    w.taken[q] + w.reg.queues[q]
  }

  predicate IsRegistered(w: World, q: nat) {
    q in w.home && w.home[q] in w.reg.sessions && w.reg.sessions[w.home[q]] == q
  }

  predicate EndsInOverflow(seen: seq<Item>, offered: seq<Item>) {
    |seen| > 0 && seen[|seen| - 1] == Overflow && seen[..|seen| - 1] <= offered
  }

  /** What the consumer sees without a teardown: the deliveries, or a prefix of them and one
      overflow mark. */
  predicate Regular(seen: seq<Item>, offered: seq<Item>) { seen == offered || EndsInOverflow(seen, offered) }

  function Without(s: seq<Item>, d: nat): seq<Item>
    requires d < |s|
  {
    s[..d] + s[d + 1..]
  }

  /** `seen` is `was` but for at most one item dropped. */
  ghost predicate DropsOne(seen: seq<Item>, was: seq<Item>) {
    seen == was || exists d :: 0 <= d < |was| && seen == Without(was, d)
  }

  /** The view a teardown leaves: an error, after what it would have been but for one item. */
  ghost predicate EndsInError(seen: seq<Item>, offered: seq<Item>) {
    && |seen| > 0 && seen[|seen| - 1].Lost?
    && exists was :: Regular(was, offered) && DropsOne(seen[..|seen| - 1], was)
  }

  /** The consumer's view is regular, or ends with the error a teardown left. */
  ghost predicate CellOk(
    maxSize: int, items: seq<Item>, offered: seq<Item>, taken: seq<Item>,
    registered: bool, overflowed: bool, torn: bool)
  {
    var seen := taken + items;
    && (maxSize > 0 ==> |items| <= maxSize)
    && (|| (seen == offered && (registered ==> !overflowed))
        || (EndsInOverflow(seen, offered) && (registered ==> overflowed))
        || (EndsInError(seen, offered) && !registered && torn))
  }

  ghost predicate QueueOk(w: World, q: nat)
    requires q in w.taken && q in w.reg.queues && q in w.offered && q in w.home
  {
    CellOk(w.reg.maxSize, w.reg.queues[q], w.offered[q], w.taken[q],
           IsRegistered(w, q), w.home[q] in w.reg.overflowed, w.torn)
  }

  ghost predicate QueuesOk(w: World)
    requires Sound(w)
  {
    forall q :: q in w.reg.queues ==> QueueOk(w, q)
  }

  /** Time of the latest overflow of `key`. */
  function Latest(h: seq<(Key, real)>, key: Key): Option<real> {
    if |h| == 0 then None
    else if h[|h| - 1].0 == key then Some(h[|h| - 1].1)
    else Latest(h[..|h| - 1], key)
  }

  /** A deadline in the table is that of its key's latest overflow; what is not in it is over. */
  ghost predicate TableOk(h: seq<(Key, real)>, table: map<Key, real>, clock: real) {
    && (forall i :: 0 <= i < |h| ==> h[i].1 <= clock)
    && (forall i, j :: 0 <= i < j < |h| ==> h[i].1 <= h[j].1)
    && (forall k :: k in table ==> Latest(h, k) == Some(table[k] - TOMBSTONE_S))
    && (forall k: Key {:trigger Latest(h, k)} ::
          k !in table && Latest(h, k).Some? ==> Latest(h, k).value + TOMBSTONE_S <= clock)
  }

  ghost predicate TombstonesOk(w: World) { TableOk(w.overflows, w.reg.tombstones, w.clock) }

  ghost predicate Inv(w: World) { Sound(w) && Owned(w) && QueuesOk(w) && TombstonesOk(w) }

  // ---------------------------------------------------------------- ownership

  lemma RegisterMatched(r: Registry, req: Req, key: Key)
    requires Matched(r.sessions, r.owner, r.reqs) && key !in r.sessions && req !in r.reqs
    ensures var r1 := Register(r, req, key).0; Matched(r1.sessions, r1.owner, r1.reqs)
  {
  }

  lemma RegisterSound(w: World, req: Req, key: Key)
    requires Sound(w) && req !in w.used
    ensures Sound(Step(w, DoRegister(req, key)))
  {
  }

  lemma RegisterRecorded(
    sessions: map<Key, nat>, reqs: map<Req, Key>, used: map<Req, Key>, home: map<nat, Key>, req: Req, key: Key, q: nat)
    requires Recorded(sessions, reqs, used, home) && req !in used && q !in home
    ensures Recorded(sessions[key := q], reqs[req := key], used[req := key], home[q := key])
  {
  }

  lemma RegisterOwned(w: World, req: Req, key: Key)
    requires Sound(w) && Owned(w) && req !in w.used
    ensures Owned(Step(w, DoRegister(req, key)))
  {
    if key !in w.reg.sessions {
      RegisterMatched(w.reg, req, key);
      RegisterRecorded(w.reg.sessions, w.reg.reqs, w.used, w.home, req, key, w.reg.next);
    }
  }

  lemma UnregisterMatched(sessions: map<Key, nat>, owner: map<Key, Req>, reqs: map<Req, Key>, key: Key, req: Req)
    requires Matched(sessions, owner, reqs)
    ensures key in owner && owner[key] == req ==> Matched(sessions - {key}, owner - {key}, reqs - {req})
    ensures !(key in owner && owner[key] == req) && (req in reqs ==> reqs[req] == key) ==> reqs - {req} == reqs
  {
  }

  lemma UnregisterOwned(w: World, key: Key, req: Req)
    requires Sound(w) && Owned(w) && req in w.used && w.used[req] == key
    ensures Sound(Step(w, DoUnregister(key, req))) && Owned(Step(w, DoUnregister(key, req)))
  {
    UnregisterMatched(w.reg.sessions, w.reg.owner, w.reg.reqs, key, req);
  }

  lemma OfferSound(w: World, key: Key, item: Item, now: real)
    requires Sound(w)
    ensures Sound(Offer(w, key, item, now))
  {
  }

  lemma OfferOwned(w: World, key: Key, item: Item, now: real)
    requires Sound(w) && Owned(w)
    ensures Owned(Offer(w, key, item, now))
  {
  }

  lemma StepOwned(w: World, op: Op)
    requires Sound(w) && Owned(w) && Allowed(w, op)
    ensures Sound(Step(w, op)) && Owned(Step(w, op))
  {
    match op
    case DoRegister(req, key) => RegisterSound(w, req, key); RegisterOwned(w, req, key);
    case DoUnregister(key, req) => UnregisterOwned(w, key, req);
    case BySession(key, item, now) => OfferSound(w, key, item, now); OfferOwned(w, key, item, now);
    case ByReq(req, item, now) =>
      if req in w.reg.reqs { OfferSound(w, w.reg.reqs[req], item, now); OfferOwned(w, w.reg.reqs[req], item, now); }
    case _ =>
  }

  // ---------------------------------------------------------------- queues

  lemma CellPut(maxSize: int, items: seq<Item>, offered: seq<Item>, taken: seq<Item>, item: Item, torn: bool)
    requires CellOk(maxSize, items, offered, taken, true, false, torn)
    ensures Full(maxSize, items) ==> CellOk(maxSize, [Overflow], offered + [item], taken, true, true, torn)
    ensures !Full(maxSize, items) ==> CellOk(maxSize, items + [item], offered + [item], taken, true, false, torn)
  {
    assert (taken + [Overflow])[..|taken|] == taken;
    assert taken + (items + [item]) == taken + items + [item];
  }

  lemma CellDrop(maxSize: int, items: seq<Item>, offered: seq<Item>, taken: seq<Item>, item: Item, torn: bool)
    requires CellOk(maxSize, items, offered, taken, true, true, torn)
    ensures CellOk(maxSize, items, offered + [item], taken, true, true, torn)
  {
  }

  lemma CellTake(
    maxSize: int, items: seq<Item>, offered: seq<Item>, taken: seq<Item>,
    registered: bool, overflowed: bool, torn: bool)
    requires CellOk(maxSize, items, offered, taken, registered, overflowed, torn) && items != []
    ensures CellOk(maxSize, items[1..], offered, taken + [items[0]], registered, overflowed, torn)
    ensures taken + [items[0]] + items[1..] == taken + items
  {
    assert taken + [items[0]] + items[1..] == taken + items;
  }

  /** The error goes last, and at most the oldest waiting item goes for it. */
  lemma CellLost(
    maxSize: int, items: seq<Item>, offered: seq<Item>, taken: seq<Item>, overflowed: bool, message: string, torn: bool)
    requires CellOk(maxSize, items, offered, taken, true, overflowed, torn)
    ensures CellOk(maxSize, ForcePut(maxSize, items, Lost(message)), offered, taken, false, false, true)
  {
    var was := taken + items;
    var put := ForcePut(maxSize, items, Lost(message));
    var seen := taken + put;
    assert Regular(was, offered);
    assert seen[|seen| - 1] == Lost(message);
    if Full(maxSize, items) {
      assert put == items[1..] + [Lost(message)];
      assert seen[..|seen| - 1] == Without(was, |taken|);
    } else {
      assert seen[..|seen| - 1] == was;
    }
    assert DropsOne(seen[..|seen| - 1], was);
  }

  lemma OfferHere(w: World, key: Key, item: Item, now: real)
    requires Sound(w) && Owned(w) && key in w.reg.sessions && Sound(Offer(w, key, item, now))
    requires QueueOk(w, w.reg.sessions[key])
    ensures QueueOk(Offer(w, key, item, now), w.reg.sessions[key])
  {
    var q := w.reg.sessions[key];
    assert w.home[q] == key && IsRegistered(w, q);
    if key in w.reg.overflowed {
      CellDrop(w.reg.maxSize, w.reg.queues[q], w.offered[q], w.taken[q], item, w.torn);
    } else {
      CellPut(w.reg.maxSize, w.reg.queues[q], w.offered[q], w.taken[q], item, w.torn);
    }
  }

  /** Queue `q` keeps its cell and its registration does not come back. */
  predicate SameCell(w: World, w1: World, q: nat) {
    && q in w.taken && q in w.reg.queues && q in w.offered && q in w.home
    && q in w1.taken && q in w1.reg.queues && q in w1.offered && q in w1.home
    && w1.reg.maxSize == w.reg.maxSize && w1.torn == w.torn && w1.home[q] == w.home[q]
    && w1.reg.queues[q] == w.reg.queues[q] && w1.offered[q] == w.offered[q] && w1.taken[q] == w.taken[q]
    && (IsRegistered(w1, q) ==>
          IsRegistered(w, q) && (w.home[q] in w1.reg.overflowed <==> w.home[q] in w.reg.overflowed))
  }

  lemma SameCellOk(w: World, w1: World, q: nat)
    requires SameCell(w, w1, q) && QueueOk(w, q)
    ensures QueueOk(w1, q)
  {
  }

  lemma OfferElsewhere(w: World, key: Key, item: Item, now: real, q: nat)
    requires Sound(w) && q in w.reg.queues && (key in w.reg.sessions ==> w.reg.sessions[key] != q)
    ensures SameCell(w, Offer(w, key, item, now), q)
  {
  }

  lemma OfferQueue(w: World, key: Key, item: Item, now: real, q: nat)
    requires Sound(w) && Owned(w) && QueuesOk(w) && q in w.reg.queues && Sound(Offer(w, key, item, now))
    ensures QueueOk(Offer(w, key, item, now), q)
  {
    assert QueueOk(w, q);
    if key in w.reg.sessions && w.reg.sessions[key] == q {
      OfferHere(w, key, item, now);
    } else {
      OfferElsewhere(w, key, item, now, q);
      SameCellOk(w, Offer(w, key, item, now), q);
    }
  }

  lemma TakeHere(w: World, q: nat)
    requires Sound(w) && q in w.reg.queues && w.reg.queues[q] != [] && QueueOk(w, q)
    ensures var w1 := Step(w, Take(q)); Sound(w1) && QueueOk(w1, q) && Seen(w1, q) == Seen(w, q)
  {
    CellTake(w.reg.maxSize, w.reg.queues[q], w.offered[q], w.taken[q],
             IsRegistered(w, q), w.home[q] in w.reg.overflowed, w.torn);
  }

  lemma TakeElsewhere(w: World, q: nat, p: nat)
    requires Sound(w) && q in w.reg.queues && p in w.reg.queues && p != q && w.reg.queues[q] != []
    ensures SameCell(w, Step(w, Take(q)), p)
  {
    var w1 := Step(w, Take(q));
    var items := w.reg.queues[q];
    assert w1 == w.(reg := w.reg.(queues := w.reg.queues[q := items[1..]]),
                    taken := w.taken[q := w.taken[q] + [items[0]]]);
    assert w1.reg.sessions == w.reg.sessions && w1.home == w.home && w1.reg.overflowed == w.reg.overflowed;
  }

  lemma TakeQueue(w: World, q: nat, p: nat)
    requires Sound(w) && QueuesOk(w) && Allowed(w, Take(q)) && p in w.reg.queues && Sound(Step(w, Take(q)))
    ensures QueueOk(Step(w, Take(q)), p)
  {
    assert QueueOk(w, p);
    if w.reg.queues[q] == [] {
      assert Step(w, Take(q)) == w;
    } else if p == q {
      TakeHere(w, q);
    } else {
      TakeElsewhere(w, q, p);
      SameCellOk(w, Step(w, Take(q)), p);
    }
  }

  lemma TeardownQueue(w: World, message: string, q: nat)
    requires Sound(w) && Owned(w) && QueuesOk(w) && q in w.reg.queues
    ensures QueueOk(Step(w, Teardown(message)), q)
  {
    assert QueueOk(w, q);
    if Attached(w.reg, q) {
      assert IsRegistered(w, q);
      CellLost(w.reg.maxSize, w.reg.queues[q], w.offered[q], w.taken[q],
               w.home[q] in w.reg.overflowed, message, w.torn);
    }
  }

  lemma RegisterElsewhere(w: World, req: Req, key: Key, q: nat)
    requires Sound(w) && q in w.reg.queues && req !in w.used
    ensures SameCell(w, Step(w, DoRegister(req, key)), q)
  {
    if key !in w.reg.sessions {
      var w1 := Step(w, DoRegister(req, key));
      assert q != w.reg.next && w1.reg.sessions == w.reg.sessions[key := w.reg.next];
      assert w1.home == w.home[w.reg.next := key] && w1.reg.queues == w.reg.queues[w.reg.next := []];
      assert IsRegistered(w1, q) ==> IsRegistered(w, q);
    }
  }

  lemma RegisterQueue(w: World, req: Req, key: Key, q: nat)
    requires Sound(w) && QueuesOk(w) && w.reg.overflowed <= w.reg.sessions.Keys && req !in w.used
    requires Sound(Step(w, DoRegister(req, key))) && q in Step(w, DoRegister(req, key)).reg.queues
    ensures QueueOk(Step(w, DoRegister(req, key)), q)
  {
    if q in w.reg.queues {
      RegisterElsewhere(w, req, key, q);
      assert QueueOk(w, q);
      SameCellOk(w, Step(w, DoRegister(req, key)), q);
    }
  }

  lemma UnregisterSame(w: World, key: Key, req: Req, q: nat)
    requires Sound(w) && q in w.reg.queues && Allowed(w, DoUnregister(key, req))
    ensures SameCell(w, Step(w, DoUnregister(key, req)), q)
  {
  }

  lemma StepQueues(w: World, op: Op)
    requires Sound(w) && Owned(w) && QueuesOk(w) && Allowed(w, op) && Sound(Step(w, op))
    ensures QueuesOk(Step(w, op))
  {
    forall q | q in Step(w, op).reg.queues ensures QueueOk(Step(w, op), q) {
      match op
      case BySession(key, item, now) => OfferQueue(w, key, item, now, q);
      case ByReq(req, item, now) =>
        if req in w.reg.reqs { OfferQueue(w, w.reg.reqs[req], item, now, q); } else { assert QueueOk(w, q); }
      case Take(p) => TakeQueue(w, p, q);
      case Teardown(message) => TeardownQueue(w, message, q);
      case DoRegister(req, key) => RegisterQueue(w, req, key, q);
      case DoUnregister(key, req) => UnregisterSame(w, key, req, q); SameCellOk(w, Step(w, op), q);
      case Ask(_, _) => assert QueueOk(w, q);
    }
  }

  // ---------------------------------------------------------------- tombstones

  lemma TablePut(h: seq<(Key, real)>, table: map<Key, real>, clock: real, key: Key, now: real)
    requires TableOk(h, table, clock) && now >= clock
    ensures TableOk(h + [(key, now)], table[key := now + TOMBSTONE_S], now)
  {
    forall k: Key
      ensures Latest(h + [(key, now)], k) == if k == key then Some(now) else Latest(h, k)
    {
      LatestSnoc(h, key, now, k);
    }
  }

  lemma OfferTombstones(w: World, key: Key, item: Item, now: real)
    requires Sound(w) && TombstonesOk(w) && now >= w.clock
    ensures TombstonesOk(Offer(w, key, item, now))
  {
    if Offer(w, key, item, now).overflows != w.overflows {
      TablePut(w.overflows, w.reg.tombstones, w.clock, key, now);
    }
  }

  lemma LatestSnoc(h: seq<(Key, real)>, key: Key, now: real, k: Key)
    ensures Latest(h + [(key, now)], k) == if k == key then Some(now) else Latest(h, k)
  {
    assert (h + [(key, now)])[..|h|] == h;
  }

  lemma AskTombstones(w: World, key: Key, now: real)
    requires Sound(w) && TombstonesOk(w) && now >= w.clock
    ensures TombstonesOk(Step(w, Ask(key, now)))
  {
  }

  lemma StepTombstones(w: World, op: Op)
    requires Sound(w) && TombstonesOk(w) && Allowed(w, op)
    ensures TombstonesOk(Step(w, op))
  {
    match op
    case BySession(key, item, now) => OfferTombstones(w, key, item, now);
    case ByReq(req, item, now) => if req in w.reg.reqs { OfferTombstones(w, w.reg.reqs[req], item, now); }
    case Ask(key, now) => AskTombstones(w, key, now);
    case _ =>
  }

  // ---------------------------------------------------------------- runs

  lemma StepKeeps(w: World, op: Op)
    requires Inv(w) && Allowed(w, op)
    ensures Inv(Step(w, op))
  {
    StepOwned(w, op);
    StepQueues(w, op);
    StepTombstones(w, op);
  }

  /** The world after `ops` on an empty registry; None if one of them was not allowed. */
  function Run(maxSize: int, ops: seq<Op>): Option<World> {
    if |ops| == 0 then Some(Start(maxSize))
    else
      var before := Run(maxSize, ops[..|ops| - 1]);
      if before.Some? && Sound(before.value) && Allowed(before.value, ops[|ops| - 1])
      then Some(Step(before.value, ops[|ops| - 1])) else None
  }

  predicate RunsTo(maxSize: int, ops: seq<Op>, w: World) { Run(maxSize, ops) == Some(w) }

  lemma {:induction false} RunInv(maxSize: int, ops: seq<Op>)
    requires Run(maxSize, ops).Some?
    ensures Inv(Run(maxSize, ops).value)
  {
    if |ops| == 0 {
    } else {
      RunInv(maxSize, ops[..|ops| - 1]);
      StepKeeps(Run(maxSize, ops[..|ops| - 1]).value, ops[|ops| - 1]);
    }
  }

  /** In every run, teardowns included: one owner per session key, one key per owner, and
      different keys never share a queue. */
  lemma KeysHaveOneOwner(maxSize: int, ops: seq<Op>, w: World)
    requires RunsTo(maxSize, ops, w)
    ensures w.reg.sessions.Keys == w.reg.owner.Keys
    ensures forall k, r :: k in w.reg.owner && w.reg.owner[k] == r <==> r in w.reg.reqs && w.reg.reqs[r] == k
    ensures forall k, l :: k in w.reg.sessions && l in w.reg.sessions && w.reg.sessions[k] == w.reg.sessions[l]
              ==> k == l
  {
    RunInv(maxSize, ops);
  }

  /** The late cleanup of a turn that no longer owns its key changes nothing at all, and a late
      `res` for it feeds no queue: whatever turn took the key over is left alone. */
  lemma LateCleanupIsHarmless(maxSize: int, ops: seq<Op>, w: World, key: Key, req: Req, item: Item, now: real)
    requires RunsTo(maxSize, ops, w) && req in w.used && w.used[req] == key
    requires key !in w.reg.owner || w.reg.owner[key] != req
    ensures Unregister(w.reg, key, req) == w.reg
    ensures req !in w.reg.reqs && DeliverByReq(w.reg, req, item, now) == (w.reg, false)
  {
    RunInv(maxSize, ops);
    assert w.reg.reqs - {req} == w.reg.reqs;
  }

  /** The turn was registered and is not known any more. */
  predicate Gone(w: World, req: Req) { req in w.used && req !in w.reg.reqs }

  lemma GoneStays(w: World, op: Op, req: Req)
    requires Sound(w) && Allowed(w, op) && req in w.used && (Gone(w, req) || op.Teardown?)
    ensures Gone(Step(w, op), req) && Step(w, op).used[req] == w.used[req]
  {
  }

  lemma RunPrefix(maxSize: int, ops: seq<Op>)
    requires |ops| > 0 && Run(maxSize, ops).Some?
    ensures var before := Run(maxSize, ops[..|ops| - 1]);
            before.Some? && Sound(before.value) && Allowed(before.value, ops[|ops| - 1])
            && Run(maxSize, ops).value == Step(before.value, ops[|ops| - 1])
  {
  }

  /** The last step of a run. */
  lemma RunLast(maxSize: int, ops: seq<Op>, w1: World) returns (before: World)
    requires |ops| > 0 && RunsTo(maxSize, ops, w1)
    ensures RunsTo(maxSize, ops[..|ops| - 1], before) && Sound(before)
    ensures Allowed(before, ops[|ops| - 1]) && w1 == Step(before, ops[|ops| - 1])
  {
    RunPrefix(maxSize, ops);
    before := Run(maxSize, ops[..|ops| - 1]).value;
  }

  lemma {:induction false} TornTurnIsGone(maxSize: int, ops: seq<Op>, n: nat, req: Req)
    requires Run(maxSize, ops).Some? && n < |ops| && ops[n].Teardown?
    requires Run(maxSize, ops[..n]).Some? && req in Run(maxSize, ops[..n]).value.used
    ensures Gone(Run(maxSize, ops).value, req)
  {
    var init := ops[..|ops| - 1];
    RunPrefix(maxSize, ops);
    if n < |init| {
      assert init[..n] == ops[..n];
      TornTurnIsGone(maxSize, init, n, req);
    }
    GoneStays(Run(maxSize, init).value, ops[|ops| - 1], req);
  }

  /** A turn that was known when the connection was torn down never owns its key again, and
      however late it cleans up, whatever turn has the key by then is untouched. */
  lemma TornTurnStaysOut(maxSize: int, ops: seq<Op>, n: nat, req: Req)
    requires Run(maxSize, ops).Some? && n < |ops| && ops[n].Teardown?
    requires Run(maxSize, ops[..n]).Some? && req in Run(maxSize, ops[..n]).value.used
    ensures var w := Run(maxSize, ops).value;
            && req in w.used && (forall k :: k in w.reg.owner ==> w.reg.owner[k] != req)
            && Unregister(w.reg, w.used[req], req) == w.reg
  {
    var w := Run(maxSize, ops).value;
    TornTurnIsGone(maxSize, ops, n, req);
    RunInv(maxSize, ops);
    LateCleanupIsHarmless(maxSize, ops, w, w.used[req], req, Overflow, w.clock);
  }

  lemma {:induction false} TornByTeardown(maxSize: int, ops: seq<Op>)
    requires Run(maxSize, ops).Some? && forall i :: 0 <= i < |ops| ==> !ops[i].Teardown?
    ensures !Run(maxSize, ops).value.torn
  {
    if |ops| == 0 {
    } else {
      TornByTeardown(maxSize, ops[..|ops| - 1]);
      assert !ops[|ops| - 1].Teardown?;
    }
  }

  /** In every run a queue stays within its bound, and its consumer sees all that was delivered
      while it was registered, or a prefix of it and then one overflow mark; or, only after a
      teardown, such a view with at most one item dropped, and then the error. */
  lemma QueueContents(maxSize: int, ops: seq<Op>, w: World, q: nat)
    requires RunsTo(maxSize, ops, w) && q in w.reg.queues
    ensures w.reg.maxSize > 0 ==> |w.reg.queues[q]| <= w.reg.maxSize
    ensures q in w.taken && q in w.offered
    ensures var seen := Seen(w, q);
            || Regular(seen, w.offered[q])
            || (EndsInError(seen, w.offered[q]) && exists i :: 0 <= i < |ops| && ops[i].Teardown?)
  {
    RunInv(maxSize, ops);
    assert QueueOk(w, q);
    if forall i :: 0 <= i < |ops| ==> !ops[i].Teardown? { TornByTeardown(maxSize, ops); }
  }

  lemma OfferSpares(w: World, key: Key, item: Item, now: real, q: nat)
    requires Sound(w) && Recorded(w.reg.sessions, w.reg.reqs, w.used, w.home) && q in w.reg.queues
    requires !IsRegistered(w, q) || w.home[q] in w.reg.overflowed
    ensures var w1 := Offer(w, key, item, now);
            q in w1.reg.queues && w1.reg.queues[q] == w.reg.queues[q] && w1.taken == w.taken
  {
  }

  lemma TakeSpares(w: World, p: nat, q: nat)
    requires Sound(w) && p in w.reg.queues && q in w.reg.queues
    ensures var w1 := Step(w, Take(p)); q in w1.taken && q in w1.reg.queues && Seen(w1, q) == Seen(w, q)
  {
    if w.reg.queues[p] == [] {
      assert Step(w, Take(p)) == w;
    } else if p == q {
      assert w.taken[q] + [w.reg.queues[q][0]] + w.reg.queues[q][1..] == Seen(w, q);
    }
  }

  lemma OthersSpare(w: World, op: Op, q: nat)
    requires Sound(w) && Allowed(w, op) && q in w.reg.queues
    requires op.DoRegister? || op.DoUnregister? || op.Ask? || op.Take?
    ensures q in Step(w, op).taken && q in Step(w, op).reg.queues && Seen(Step(w, op), q) == Seen(w, q)
  {
    match op
    case DoRegister(_, _) => assert q < w.reg.next;
    case Take(p) => TakeSpares(w, p, q);
    case _ =>
  }

  /** Nothing is added to a queue once it overflowed, except by a teardown; and nothing at all
      once its turn is no longer registered. */
  lemma ClosedQueueStays(maxSize: int, ops: seq<Op>, w: World, op: Op, q: nat)
    requires RunsTo(maxSize, ops, w) && Allowed(w, op) && q in w.reg.queues && q in w.home
    requires !IsRegistered(w, q) || (w.home[q] in w.reg.overflowed && !op.Teardown?)
    ensures Sound(w) && q in Step(w, op).taken && q in Step(w, op).reg.queues
    ensures Seen(Step(w, op), q) == Seen(w, q)
  {
    RunInv(maxSize, ops);
    match op
    case BySession(key, item, now) => OfferSpares(w, key, item, now, q);
    case ByReq(req, item, now) => if req in w.reg.reqs { OfferSpares(w, w.reg.reqs[req], item, now, q); }
    case Teardown(_) => NotAttached(w, q);
    case _ => OthersSpare(w, op, q);
  }

  lemma NotAttached(w: World, q: nat)
    requires Sound(w) && Recorded(w.reg.sessions, w.reg.reqs, w.used, w.home) && q in w.home
    ensures Attached(w.reg, q) <==> IsRegistered(w, q)
  {
  }

  lemma ForcePutDropsOne(maxSize: int, q: seq<Item>, item: Item)
    requires maxSize > 0 ==> |q| <= maxSize
    ensures ForcePut(maxSize, q, item) == (if Full(maxSize, q) then q[1..] else q) + [item]
  {
  }

  /** A teardown leaves its error last in every registered queue, full or not, behind what was
      waiting there but for at most the oldest item. */
  lemma TeardownLeavesError(maxSize: int, ops: seq<Op>, w: World, message: string, k: Key)
    requires RunsTo(maxSize, ops, w) && k in w.reg.sessions
    ensures Sound(w) && w.reg.sessions[k] in ErrorAll(w.reg, message).queues
    ensures var was := w.reg.queues[w.reg.sessions[k]];
            ErrorAll(w.reg, message).queues[w.reg.sessions[k]]
            == (if Full(w.reg.maxSize, was) then was[1..] else was) + [Lost(message)]
  {
    RunInv(maxSize, ops);
    var q := w.reg.sessions[k];
    assert QueueOk(w, q);
    assert Attached(w.reg, q);
    ForcePutDropsOne(w.reg.maxSize, w.reg.queues[q], Lost(message));
  }

  // ---------------------------------------------------------------- the tombstone table

  lemma {:induction false} LatestIsLast(h: seq<(Key, real)>, key: Key, now: real)
    requires forall i, j :: 0 <= i < j < |h| ==> h[i].1 <= h[j].1
    ensures (Latest(h, key).Some? && Latest(h, key).value + TOMBSTONE_S > now)
            <==> exists i :: 0 <= i < |h| && h[i].0 == key && h[i].1 + TOMBSTONE_S > now
  {
    if |h| == 0 {
    } else {
      var last := |h| - 1;
      LatestIsLast(h[..last], key, now);
      if h[last].0 != key {
        assert forall i :: 0 <= i < last ==> h[..last][i] == h[i];
      }
    }
  }

  /** The lazily pruned table answers as the full history of overflows would. */
  lemma AbortedIsHistory(maxSize: int, ops: seq<Op>, w: World, key: Key, now: real)
    requires RunsTo(maxSize, ops, w) && now >= w.clock
    ensures IsAborted(w.reg, key, now).1
            <==> exists i :: 0 <= i < |w.overflows| && w.overflows[i].0 == key && w.overflows[i].1 + TOMBSTONE_S > now
  {
    RunInv(maxSize, ops);
    LatestIsLast(w.overflows, key, now);
    assert key in w.reg.tombstones ==> Latest(w.overflows, key) == Some(w.reg.tombstones[key] - TOMBSTONE_S);
  }
}
