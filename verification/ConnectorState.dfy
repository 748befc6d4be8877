/** `HttpConnectorState`: the fields that every thread of the HTTP connector shares under one lock,
    and what each lock section does to them.

    The functions give the meaning of each section on a snapshot of the fields; the transition
    system of module `Lifecycle` is built from them.  The class performs the sections in place. */
module ConnectorState {
  import opened Wrappers
  import opened PoolKeys

  type Id = nat

  datatype Shared = Shared(
    conns: set<Id>,
    destroying: set<Id>,
    idle: map<Key, seq<Id>>,
    idleDestroying: nat,
    handler: bool,
    closing: bool,
    closedNotified: bool,
    abandoned: bool,
    inFlight: nat,
    maxIdle: nat)

  predicate Drained(sh: Shared) {
    sh.conns == {} && sh.destroying == {} && sh.idle == map[] && sh.idleDestroying == 0
  }

  /** The shared test before `OnClosed`: the last one out, and somebody to tell. */
  predicate LastOut(sh: Shared) {
    !sh.abandoned && sh.closing && !sh.closedNotified && Drained(sh) && sh.handler
  }

  /** Set the notified flag and raise the in-flight counter in the same section as the test. */
  function ArmIfLast(sh: Shared): (Shared, bool) {
    if LastOut(sh) then (sh.(closedNotified := true, inFlight := sh.inFlight + 1), true)
    else (sh, false)
  }

  function DetachAndArm(sh: Shared, gone: Id): (Shared, bool) {
    ArmIfLast(sh.(conns := sh.conns - {gone}, destroying := sh.destroying - {gone}))
  }

  function FinishIdle(sh: Shared): (Shared, bool) {
    ArmIfLast(sh.(idleDestroying := if sh.idleDestroying > 0 then sh.idleDestroying - 1 else 0))
  }

  /** Unlike the other two, this section sets the flag even when there is no handler to call. */
  function NotifyIfDrained(sh: Shared): (Shared, bool) {
    if sh.abandoned || !sh.closing || sh.closedNotified || !Drained(sh) then (sh, false)
    else if !sh.handler then (sh.(closedNotified := true), false)
    else (sh.(closedNotified := true, inFlight := sh.inFlight + 1), true)
  }

  function MoveToDestroying(sh: Shared, c: Id): Shared {
    if c in sh.conns then sh.(conns := sh.conns - {c}, destroying := sh.destroying + {c}) else sh
  }

  /** Store a list back, dropping the key when the list became empty. */
  function SetIdle(sh: Shared, key: Key, list: seq<Id>): Shared {
    sh.(idle := if list == [] then sh.idle - {key} else sh.idle[key := list])
  }

  /** The most recently parked channel for `key`, if any. */
  function TakeFromPool(sh: Shared, key: Key): (Shared, Option<Id>) {
    if key !in sh.idle || sh.idle[key] == [] then (sh, None)
    else
      var list := sh.idle[key];
      (SetIdle(sh, key, list[..|list| - 1]), Some(list[|list| - 1]))
  }

  /** `list` without the first occurrence of `p`. */
  function Without(list: seq<Id>, p: Id): seq<Id> {
    if list == [] then []
    else if list[0] == p then list[1..]
    else [list[0]] + Without(list[1..], p)
  }

  function RemoveFromPool(sh: Shared, key: Key, p: Id): Shared {
    if key !in sh.idle then sh else SetIdle(sh, key, Without(sh.idle[key], p))
  }

  function PutInPool(sh: Shared, key: Key, p: Id): (Shared, bool) {
    var list := if key in sh.idle then sh.idle[key] else [];
    if !sh.closing && !sh.abandoned && sh.maxIdle > 0 && |list| < sh.maxIdle
    then (sh.(idle := sh.idle[key := list + [p]]), true)
    else (sh, false)
  }

  predicate HasRoom(sh: Shared, key: Key) {
    && !sh.closing && !sh.abandoned
    && (if key in sh.idle then |sh.idle[key]| < sh.maxIdle else 0 < sh.maxIdle)
  }

  /** What is parked is the next to be taken for its key, and for no other; without it, or once it is
      removed, the pool is as it was.  There is room exactly in a pool that is open and not full. */
  lemma PutThenTake(sh: Shared, key: Key, p: Id, other: Key)
    requires (key in sh.idle ==> sh.idle[key] != [] && p !in sh.idle[key]) && other != key
    ensures PutInPool(sh, key, p).1 <==> HasRoom(sh, key)
    ensures !HasRoom(sh, key) ==> PutInPool(sh, key, p).0 == sh
    ensures HasRoom(sh, key) ==>
              var sh' := PutInPool(sh, key, p).0;
              && TakeFromPool(sh', key) == (sh, Some(p))
              && TakeFromPool(sh', other).1 == TakeFromPool(sh, other).1
              && RemoveFromPool(sh', key, p) == sh
  {
    var list := if key in sh.idle then sh.idle[key] else [];
    assert (list + [p])[..|list|] == list;
    assert sh.idle[key := list + [p]] - {key} == sh.idle - {key};
    assert key !in sh.idle ==> sh.idle - {key} == sh.idle;
    assert key in sh.idle ==> sh.idle[key := list + [p]][key := list] == sh.idle;
    WithoutAt(list + [p], p, |list|);
    assert list + [p][1..] == list;
  }

  lemma {:induction false} WithoutAt(list: seq<Id>, p: Id, i: nat)
    requires i < |list| && list[i] == p && p !in list[..i]
    ensures Without(list, p) == list[..i] + list[i + 1..]
  {
    if i > 0 {
      assert list[1..][..i - 1] == list[..i][1..];
      assert p !in list[1..][..i - 1];
      WithoutAt(list[1..], p, i - 1);
      assert list[..i] == [list[0]] + list[1..][..i - 1];
    }
  }

  lemma {:induction false} WithoutAbsent(list: seq<Id>, p: Id)
    requires p !in list
    ensures Without(list, p) == list
  {
    if list != [] {
      WithoutAbsent(list[1..], p);
    }
  }

  /** The fields themselves, one method a lock section. */
  class HttpConnectorState {
    var conns: set<Id>
    var destroying: set<Id>
    var idle: map<Key, seq<Id>>
    var idleDestroying: nat
    var handler: bool
    var closing: bool
    var closedNotified: bool
    var abandoned: bool
    var inFlight: nat
    var maxIdle: nat

    ghost function Snap(): Shared
      reads this
    {
      Shared(conns, destroying, idle, idleDestroying, handler, closing, closedNotified, abandoned,
             inFlight, maxIdle)
    }

    constructor (handler: bool, maxIdle: nat)
      ensures Snap() == Shared({}, {}, map[], 0, handler, false, false, false, 0, maxIdle)
    {
      conns, destroying, idle, idleDestroying := {}, {}, map[], 0;
      this.handler, closing, closedNotified, abandoned := handler, false, false, false;
      inFlight, this.maxIdle := 0, maxIdle;
    }

    method AllDrainedLocked() returns (b: bool)
      ensures b == Drained(Snap())
    {
      b := conns == {} && destroying == {} && idle == map[] && idleDestroying == 0;
    }

    method DetachAndArmClosed(gone: Id) returns (armed: bool)
      modifies this
      ensures (Snap(), armed) == DetachAndArm(old(Snap()), gone)
    {
      conns := conns - {gone};
      destroying := destroying - {gone};
      armed := false;
      var drained := AllDrainedLocked();
      if !abandoned && closing && !closedNotified && drained && handler {
        closedNotified := true;
        armed := true;
        inFlight := inFlight + 1;
      }
    }

    method FinishIdleDestroy() returns (armed: bool)
      modifies this
      ensures (Snap(), armed) == FinishIdle(old(Snap()))
    {
      armed := false;
      if idleDestroying > 0 {
        idleDestroying := idleDestroying - 1;
      }
      var drained := AllDrainedLocked();
      if !abandoned && closing && !closedNotified && drained && handler {
        closedNotified := true;
        armed := true;
        inFlight := inFlight + 1;
      }
    }

    method NotifyClosedIfDrained() returns (armed: bool)
      modifies this
      ensures (Snap(), armed) == NotifyIfDrained(old(Snap()))
    {
      armed := false;
      if abandoned || !closing || closedNotified {
        return;
      }
      var drained := AllDrainedLocked();
      if !drained {
        return;
      }
      closedNotified := true;
      if !handler {
        return;
      }
      armed := true;
      inFlight := inFlight + 1;
    }

    method DetachAndScheduleDestroy(c: Id)
      modifies this
      ensures Snap() == old(MoveToDestroying(Snap(), c))
    {
      if c in conns {
        conns := conns - {c};
        destroying := destroying + {c};
      }
    }

    /** `_TakeFromPool`; the same section also holds back the destruction of what it hands out. */
    method Take(key: Key, watchers: map<Id, PooledChannel>) returns (taken: Option<Id>)
      requires forall k, i | k in idle && 0 <= i < |idle[k]| :: idle[k][i] in watchers
      requires forall p, q | p in watchers && q in watchers && p != q :: watchers[p] != watchers[q]
      modifies this, watchers.Values
      ensures (Snap(), taken) == TakeFromPool(old(Snap()), key)
      ensures forall p | p in watchers ::
                watchers[p].Snap() == if taken == Some(p) then Held(old(watchers[p].Snap()))
                                      else old(watchers[p].Snap())
    {
      if key !in idle || idle[key] == [] {
        return None;
      }
      var list := idle[key];
      taken := Some(list[|list| - 1]);
      idle := idle[key := list[..|list| - 1]];
      watchers[list[|list| - 1]].HoldLocked();
      if idle[key] == [] {
        idle := idle - {key};
      }
      assert idle == SetIdle(old(Snap()), key, list[..|list| - 1]).idle;
    }

    /** The search-and-erase loop of `_RemoveFromPoolLocked`. */
    method Remove(key: Key, p: Id)
      modifies this
      ensures Snap() == old(RemoveFromPool(Snap(), key, p))
    {
      if key !in idle {
        return;
      }
      var list := idle[key];
      var i := 0;
      while i < |list|
        invariant i <= |list| && p !in list[..i]
        invariant Snap() == old(Snap())
      {
        if list[i] == p {
          break;
        }
        i := i + 1;
      }
      if i < |list| {
        WithoutAt(list, p, i);
        idle := idle[key := list[..i] + list[i + 1..]];
      } else {
        assert list[..i] == list;
        WithoutAbsent(list, p);
      }
      if idle[key] == [] {
        idle := idle - {key};
      }
      assert idle == old(RemoveFromPool(Snap(), key, p)).idle;
    }

    method Put(key: Key, p: Id) returns (ok: bool)
      modifies this
      ensures (Snap(), ok) == old(PutInPool(Snap(), key, p))
    {
      ok := false;
      if !closing && !abandoned && maxIdle > 0 {
        var list := if key in idle then idle[key] else [];
        if |list| < maxIdle {
          idle := idle[key := list + [p]];
          ok := true;
        }
      }
    }
  }

  /** `PooledChannel::Terminal`. */
  datatype Terminal = TerminalNone | TerminalClosed | TerminalDetached

  /** The two fields of a watcher that its borrower and its channel share. */
  datatype Watch = Watch(held: bool, pending: Terminal)

  function Held(w: Watch): Watch {
    w.(held := true)
  }

  /** The end of a hold, and the terminal event that it kept back, which is now to be scheduled. */
  function Released(w: Watch): (Watch, Terminal) {
    (w.(held := false), w.pending)
  }

  /** A terminal event: kept back while held, else to be scheduled. */
  function Ended(w: Watch, how: Terminal): (Watch, Terminal) {
    if w.held then (w.(pending := how), TerminalNone) else (w, how)
  }

  /** The watcher of a parked channel.  Its methods return what the caller goes on to pass to
      `_ScheduleDestroy`, `TerminalNone` meaning that nothing is scheduled now. */
  class PooledChannel {
    const state: HttpConnectorState
    const key: Key
    const id: Id
    var held: bool
    var pending: Terminal

    constructor (state: HttpConnectorState, key: Key, id: Id)
      ensures this.state == state && this.key == key && this.id == id
      ensures !held && pending == TerminalNone
    {
      this.state, this.key, this.id := state, key, id;
      held, pending := false, TerminalNone;
    }

    ghost function Snap(): Watch
      reads this
    {
      Watch(held, pending)
    }

    method HoldLocked()
      modifies this
      ensures Snap() == Held(old(Snap()))
    {
      held := true;
    }

    method Release() returns (schedule: Terminal)
      modifies this
      ensures (Snap(), schedule) == Released(old(Snap()))
    {
      held := false;
      schedule := pending;
    }

    method OnChannelClosed() returns (schedule: Terminal)
      modifies this, state
      ensures state.Snap() == (var sh := old(RemoveFromPool(state.Snap(), key, id));
                               sh.(idleDestroying := sh.idleDestroying + 1))
      ensures (Snap(), schedule) == Ended(old(Snap()), TerminalClosed)
    {
      state.Remove(key, id);
      state.idleDestroying := state.idleDestroying + 1;
      if held {
        pending := TerminalClosed;
        schedule := TerminalNone;
      } else {
        schedule := TerminalClosed;
      }
    }

    method OnChannelDetached() returns (schedule: Terminal)
      modifies this
      ensures (Snap(), schedule) == Ended(old(Snap()), TerminalDetached)
    {
      if held {
        pending := TerminalDetached;
        schedule := TerminalNone;
      } else {
        schedule := TerminalDetached;
      }
    }
  }
}
