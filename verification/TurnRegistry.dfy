/** Routing of turns on the shared OpenClaw connection (`openclaw/registry.py`). */
module TurnRegistry {
  import opened Common
  import opened TurnItems

  /** A session key and a request id, both opaque here. */
  datatype Key = Key(id: nat)
  datatype Req = Req(id: nat)

  /** `TURN_ABORT_TOMBSTONE_S` */
  const TOMBSTONE_S := 5.0

  /** The registry's dictionaries. A queue is named by a number never used again; `queues` is
      the heap of queue objects, which outlive their entry in `sessions`. */
  datatype Registry = Registry(
    maxSize: int,                 // 0 or less: unbounded, as asyncio.Queue has it
    sessions: map<Key, nat>,
    owner: map<Key, Req>,
    reqs: map<Req, Key>,
    overflowed: set<Key>,
    tombstones: map<Key, real>,
    peak: map<Key, nat>,
    queues: map<nat, seq<Item>>,
    next: nat
  )

  predicate Full(maxSize: int, q: seq<Item>) { 0 < maxSize <= |q| }

  function Get(m: map<Key, nat>, k: Key): nat { if k in m then m[k] else 0 }

  function Max(a: nat, b: nat): nat { if a > b then a else b }

  /** None is `TurnInProgress`. */
  function Register(r: Registry, req: Req, key: Key): (Registry, Option<nat>) {
    if key in r.sessions then (r, None)
    else (r.(sessions := r.sessions[key := r.next], reqs := r.reqs[req := key], owner := r.owner[key := req],
             queues := r.queues[r.next := []], next := r.next + 1), Some(r.next))
  }

  function Unregister(r: Registry, key: Key, req: Req): Registry {
    var r1 := if key in r.owner && r.owner[key] == req
              then r.(sessions := r.sessions - {key}, owner := r.owner - {key}, overflowed := r.overflowed - {key})
              else r;
    r1.(reqs := r1.reqs - {req})
  }

  /** `_deliver` */
  function Deliver(r: Registry, key: Key, q: nat, item: Item, now: real): (r1: Registry)
    requires q in r.queues
    ensures q in r1.queues && r1.queues == r.queues[q := r1.queues[q]]
    ensures r1.sessions == r.sessions && r1.owner == r.owner && r1.reqs == r.reqs && r1.next == r.next
    ensures r.overflowed <= r1.overflowed <= r.overflowed + {key}
  {
    if key in r.overflowed then r
    else if !Full(r.maxSize, r.queues[q]) then
      r.(queues := r.queues[q := r.queues[q] + [item]], peak := r.peak[key := Max(Get(r.peak, key), |r.queues[q]| + 1)])
    else
      r.(overflowed := r.overflowed + {key}, tombstones := r.tombstones[key := now + TOMBSTONE_S],
         queues := r.queues[q := [Overflow]])
  }

  function DeliverBySession(r: Registry, key: Key, item: Item, now: real): (Registry, bool)
    requires key in r.sessions ==> r.sessions[key] in r.queues
  {
    if key !in r.sessions then (r, false) else (Deliver(r, key, r.sessions[key], item, now), true)
  }

  function DeliverByReq(r: Registry, req: Req, item: Item, now: real): (Registry, bool)
    requires req in r.reqs && r.reqs[req] in r.sessions ==> r.sessions[r.reqs[req]] in r.queues
  {
    if req !in r.reqs then (r, false) else DeliverBySession(r, r.reqs[req], item, now)
  }

  /** `_force_put` on one queue. */
  function ForcePut(maxSize: int, q: seq<Item>, item: Item): seq<Item> {
    if Full(maxSize, q) then q[|q| - maxSize + 1..] + [item] else q + [item]
  }

  function IsAborted(r: Registry, key: Key, now: real): (Registry, bool) {
    var live := map k | k in r.tombstones && r.tombstones[k] > now :: r.tombstones[k];
    (r.(tombstones := live), key in live)
  }

  predicate Attached(r: Registry, q: nat) { q in r.sessions.Values }

  function ErrorAll(r: Registry, message: string): Registry {
    r.(queues := map q | q in r.queues ::
                 if Attached(r, q) then ForcePut(r.maxSize, r.queues[q], Lost(message)) else r.queues[q],
       overflowed := {}, sessions := map[], reqs := map[], owner := map[])
  }

  /** The registry as its methods change it. */
  class TurnRegistry {
    const maxSize: int
    var sessions: map<Key, nat>
    var owner: map<Key, Req>
    var reqs: map<Req, Key>
    var overflowed: set<Key>
    var tombstones: map<Key, real>
    var peak: map<Key, nat>
    var queues: map<nat, seq<Item>>
    var next: nat

    function Abs(): Registry
      reads this
    {
      Registry(maxSize, sessions, owner, reqs, overflowed, tombstones, peak, queues, next)
    }

    predicate Valid()
      reads this
    {
      forall k :: k in sessions ==> sessions[k] in queues
    }

    constructor (maxSize: int)
      ensures Valid() && Abs() == Registry(maxSize, map[], map[], map[], {}, map[], map[], map[], 0)
    {
      this.maxSize := maxSize;
      sessions, owner, reqs, overflowed, tombstones := map[], map[], map[], {}, map[];
      peak, queues, next := map[], map[], 0;
    }

    method RegisterTurn(req: Req, key: Key) returns (q: Option<nat>)
      requires Valid()
      modifies this
      ensures Valid() && (Abs(), q) == Register(old(Abs()), req, key)
    {
      if key in sessions {
        return None;
      }
      queues, q := queues[next := []], Some(next);
      sessions := sessions[key := next];
      reqs := reqs[req := key];
      owner := owner[key := req];
      next := next + 1;
    }

    method UnregisterTurn(key: Key, req: Req)
      requires Valid()
      modifies this
      ensures Valid() && Abs() == Unregister(old(Abs()), key, req)
    {
      if key in owner && owner[key] == req {
        sessions := sessions - {key};
        owner := owner - {key};
        overflowed := overflowed - {key};
      }
      reqs := reqs - {req};
    }

    method DeliverTo(key: Key, q: nat, item: Item, now: real)
      requires Valid() && q in queues
      modifies this
      ensures Valid() && Abs() == Deliver(old(Abs()), key, q, item, now)
    {
      if key in overflowed {
        return;
      }
      if !Full(maxSize, queues[q]) {
        queues := queues[q := queues[q] + [item]];
        peak := peak[key := Max(Get(peak, key), |queues[q]|)];
        return;
      }
      overflowed := overflowed + {key};
      tombstones := tombstones[key := now + TOMBSTONE_S];
      // Pending items belong to a turn that is being aborted.
      while queues[q] != []
        invariant q in queues && queues == old(queues)[q := queues[q]]
        invariant Abs() == old(Abs()).(overflowed := old(overflowed) + {key}, queues := queues,
                                       tombstones := old(tombstones)[key := now + TOMBSTONE_S])
        decreases |queues[q]|
      {
        queues := queues[q := queues[q][1..]];
      }
      assert queues[q] + [Overflow] == [Overflow];
      queues := queues[q := queues[q] + [Overflow]];
    }

    method DeliverToSession(key: Key, item: Item, now: real) returns (owned: bool)
      requires Valid()
      modifies this
      ensures Valid() && (Abs(), owned) == DeliverBySession(old(Abs()), key, item, now)
    {
      if key !in sessions {
        return false;
      }
      DeliverTo(key, sessions[key], item, now);
      owned := true;
    }

    method DeliverToReq(req: Req, item: Item, now: real) returns (owned: bool)
      requires Valid()
      modifies this
      ensures Valid() && (Abs(), owned) == DeliverByReq(old(Abs()), req, item, now)
    {
      if req !in reqs {
        return false;
      }
      owned := DeliverToSession(reqs[req], item, now);
    }

    /** What the consumer of queue `q` does when an item is there. */
    method TakeFrom(q: nat) returns (item: Item)
      requires Valid() && q in queues && queues[q] != []
      modifies this`queues
      ensures Valid() && item == old(queues[q])[0] && queues == old(queues)[q := old(queues[q])[1..]]
    {
      item := queues[q][0];
      queues := queues[q := queues[q][1..]];
    }

    method ForcePutInto(q: nat, item: Item)
      requires q in queues
      modifies this`queues
      ensures queues == old(queues)[q := ForcePut(maxSize, old(queues[q]), item)]
    {
      ghost var was := queues[q];
      while Full(maxSize, queues[q])
        invariant q in queues && queues == old(queues)[q := queues[q]]
        invariant |queues[q]| <= |was| && queues[q] == was[|was| - |queues[q]|..]
        invariant Full(maxSize, was) ==> |queues[q]| >= maxSize - 1
        invariant !Full(maxSize, was) ==> queues[q] == was
        decreases |queues[q]|
      {
        queues := queues[q := queues[q][1..]];
      }
      queues := queues[q := queues[q] + [item]];
    }

    method AskAborted(key: Key, now: real) returns (aborted: bool)
      requires Valid()
      modifies this`tombstones
      ensures Valid() && (Abs(), aborted) == IsAborted(old(Abs()), key, now)
    {
      var expired := set k | k in tombstones && tombstones[k] <= now;
      while expired != {}
        invariant forall k :: k in expired ==> k in tombstones && tombstones[k] <= now
        invariant forall k :: k in tombstones ==> k in old(tombstones) && tombstones[k] == old(tombstones)[k]
        invariant forall k :: k in old(tombstones) && k !in tombstones ==> old(tombstones)[k] <= now
        invariant forall k :: k in tombstones && tombstones[k] <= now ==> k in expired
        decreases |expired|
      {
        var k :| k in expired;
        tombstones := tombstones - {k};
        expired := expired - {k};
      }
      aborted := key in tombstones;
      assert tombstones == IsAborted(old(Abs()), key, now).0.tombstones;
    }

    method LoseAll(targets: set<nat>, message: string)
      requires targets <= queues.Keys
      modifies this`queues
      ensures queues == map q | q in old(queues) ::
                (if q in targets then ForcePut(maxSize, old(queues)[q], Lost(message)) else old(queues)[q])
    {
      var todo := targets;
      while todo != {}
        invariant todo <= targets && queues.Keys == old(queues).Keys
        invariant forall q :: q in queues && (q !in targets || q in todo) ==> queues[q] == old(queues)[q]
        invariant forall q :: q in targets && q !in todo ==>
                    queues[q] == ForcePut(maxSize, old(queues)[q], Lost(message))
        decreases |todo|
      {
        var q :| q in todo;
        ForcePutInto(q, Lost(message));
        todo := todo - {q};
      }
    }

    method FailAll(message: string)
      requires Valid()
      modifies this
      ensures Valid() && Abs() == ErrorAll(old(Abs()), message)
    {
      LoseAll(sessions.Values, message);
      overflowed, sessions, reqs, owner := {}, map[], map[], map[];
    }
  }
}
