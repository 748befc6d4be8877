/** The inductive invariant of the connector's life cycle. */
module LifecycleInvariant {
  import opened Wrappers
  import opened ConnectorState
  import opened PoolKeys
  import opened Lifecycle

  // ----- classification of program counters ------------------------------------------------

  /** The connection is a member of `conns`. */
  predicate Listed(pc: ConnPc) {
    !pc.Doomed? && !pc.Finished?
  }

  /** A handler of the connection is on some channel's event thread. */
  predicate OnStrand(pc: ConnPc) {
    Listed(pc) && !pc.Starting? && !pc.Live?
  }

  predicate Undelivered(pc: ConnPc) {
    pc.Starting? || pc.Live? || pc.Deliver? || pc.AdoptSwap? || pc.AdoptOpen?
  }

  predicate Bound(pc: ConnPc, after: After) {
    (pc.Deliver? && pc.after == after) || (pc.InCall? && pc.after == after)
  }

  /** The handler runs on the event thread of the channel the connection points to. */
  predicate OnOwnStrand(pc: ConnPc) {
    pc.ToPool? || pc.AdoptSwap? || Bound(pc, ThenPool)
  }

  /** Whom the channel a connection points to may be serving, by the connection's position. */
  predicate Fits(c: Id, pc: ConnPc, st: ChanSt) {
    && (pc.Live? ==> st == Attached(c) || (st.AdoptPosted? && st.conn == c))
    && (pc.ToPool? || Bound(pc, ThenPool) ==> st == Attached(c))
    && (pc.AdoptOpen? ==> st == Unopened(c))
    && (Bound(pc, ThenDestroy) || pc.Detach? || pc.Doomed? || pc.Finished? ==>
          st == Unopened(c) || st == EndedConn(c))
  }

  predicate PooledAlive(pc: PooledPc) {
    !pc.Gone?
  }

  /** The terminal event is in, and `idle_destroying` still stands for it. */
  predicate Counted(pc: PooledPc) {
    (pc.Over? || pc.Sched?) && pc.how == TerminalClosed
  }

  /** The pooled channel a `Request` call is holding. */
  function Borrowed(pc: ReqPc): Option<Id> {
    match pc
    case Insert(b) => b
    case Start(_, b) => b
    case Release(_, p) => Some(p)
    case Retry(p) => Some(p)
    case _ => None
  }

  // ----- the invariant, object by object ---------------------------------------------------

  /** The channel a connection points to, and the event thread its handler is on. */
  ghost predicate ConnOk(s: State, c: Id)
    requires c in s.conns
  {
    var k := s.conns[c];
    && (k.chan.Some? ==> k.chan.value in s.chans && Fits(c, k.pc, s.chans[k.chan.value].st))
    && (k.chan.None? ==> k.pc.PoolArm? || k.pc.Detach? || k.pc.Doomed? || k.pc.Finished?)
    && (k.thr.Some? <==> OnStrand(k.pc))
    && (k.thr.Some? ==> k.thr.value in s.chans && s.chans[k.thr.value].busy == ByConn(c))
    && (OnOwnStrand(k.pc) ==> k.thr == k.chan)
    && (k.pc.AdoptSwap? || k.pc.AdoptOpen? ==>
          && s.chans[k.thr.value].st.Parked? && s.chans[k.thr.value].st.pooled in s.pools
          && s.pools[s.chans[k.thr.value].st.pooled].adopted)
    && (Bound(k.pc, ThenDestroy) || k.pc.Detach? ==>
          var st := s.chans[k.thr.value].st; st == EndedConn(c) || st.Parked? || st.AdoptPosted?)
    && (k.pc.PoolArm? ==>
          k.chan.None? && k.pc.pooled in s.pools && Some(s.pools[k.pc.pooled].chan) == k.thr
          && s.pools[k.pc.pooled].pc.Waiting?)
  }

  /** The books kept on a connection: the sets it is in, what its request's handler was told. */
  ghost predicate BookOk(s: State, c: Id)
    requires c in s.conns
  {
    var k := s.conns[c];
    && k.req in s.reqs
    && (c in s.sh.conns <==> Listed(k.pc))
    && (c in s.sh.destroying <==> k.pc.Doomed?)
    && (k.pc.Starting? ==> s.reqs[k.req].pc.Start? && s.reqs[k.req].pc.c == c)
    && (Undelivered(k.pc) ==> !k.delivered)
    && (!Undelivered(k.pc) && !k.pc.Finished? ==> k.delivered)
    && (k.told ==> k.delivered && (s.reqs[k.req].response <==> k.done))
    && (k.delivered && !k.told ==> !k.handler)
    && (!k.handler ==> s.sh.abandoned)
    && (s.sh.abandoned && Listed(k.pc) ==> !k.handler)
    && (s.reqs[k.req].cur == Some(c) || (k.pc.Finished? && !k.told))
  }

  ghost predicate HasConn(s: State, c: Id, h: Id) {
    c in s.conns && s.conns[c].chan == Some(h)
  }

  ghost predicate HasPooled(s: State, p: Id, h: Id) {
    p in s.pools && s.pools[p].chan == h
  }

  /** A channel is alive exactly as long as its one owner is. */
  ghost predicate ChanOk(s: State, h: Id)
    requires h in s.chans
  {
    var x := s.chans[h];
    && (x.st.Unopened? ==>
          HasConn(s, x.st.conn, h) && x.busy == Free
          && (x.alive <==> !s.conns[x.st.conn].pc.Finished?))
    && (x.st.Attached? ==>
          && HasConn(s, x.st.conn, h) && x.alive
          && (var pc := s.conns[x.st.conn].pc; pc.Live? || pc.ToPool? || Bound(pc, ThenPool)))
    && (x.st.Parked? ==> HasPooled(s, x.st.pooled, h) && x.alive && s.pools[x.st.pooled].pc.Waiting?)
    && (x.st.AdoptPosted? ==>
          && HasPooled(s, x.st.pooled, h) && x.alive
          && s.pools[x.st.pooled].pc.Waiting? && s.pools[x.st.pooled].adopted
          && HasConn(s, x.st.conn, h) && s.conns[x.st.conn].pc.Live?)
    && (x.st.EndedConn? ==>
          && HasConn(s, x.st.conn, h) && (x.alive <==> !s.conns[x.st.conn].pc.Finished?)
          && (x.busy == Free || x.busy == ByConn(x.st.conn)))
    && (x.st.EndedPool? ==>
          && HasPooled(s, x.st.pooled, h) && x.busy == Free
          && !s.pools[x.st.pooled].pc.Waiting? && s.pools[x.st.pooled].pc.how == TerminalClosed
          && (x.alive <==> PooledAlive(s.pools[x.st.pooled].pc)))
    && (x.busy.ByConn? ==> x.busy.conn in s.conns && s.conns[x.busy.conn].thr == Some(h))
    && (x.busy.ByTail? || x.busy.Leaving? ==> x.st.Parked? || x.st.AdoptPosted?)
    && (x.busy.ByTail? ==> x.busy.conn in s.conns)
  }

  ghost predicate PooledOk(s: State, p: Id)
    requires p in s.pools
  {
    var k := s.pools[p];
    && k.chan in s.chans
    && (k.pc.Waiting? ==>
          && k.pending == TerminalNone
          && (s.chans[k.chan].st == Parked(p)
              || (s.chans[k.chan].st.AdoptPosted? && s.chans[k.chan].st.pooled == p)))
    && (!k.pc.Waiting? ==> k.pc.how != TerminalNone && !k.timer && !k.inIdle)
    && (k.pc.Over? ==> k.held && k.pending == k.pc.how)
    && (k.pc.Sched? || k.pc.Gone? ==> !k.held)
    && (!k.pc.Waiting? && k.pc.how == TerminalClosed ==> s.chans[k.chan].st == EndedPool(p))
    && (p in s.counted <==> Counted(k.pc))
    && (k.held ==> !k.inIdle && k.holder in s.reqs && Borrowed(s.reqs[k.holder].pc) == Some(p))
    && (k.held && k.adopted ==> s.reqs[k.holder].pc.Release?)
    && (k.pc == Over(TerminalDetached) ==> k.adopted)
    && (k.inIdle ==>
          && !k.adopted && s.chans[k.chan].st == Parked(p)
          && k.key in s.sh.idle && p in s.sh.idle[k.key])
  }

  ghost predicate Holds(s: State, r: Id, p: Id) {
    p in s.pools && s.pools[p].held && s.pools[p].holder == r
  }

  /** The request has no connection that could still report to its handler. */
  ghost predicate Silent(s: State, q: Req) {
    q.cur.Some? ==> q.cur.value in s.conns && s.conns[q.cur.value].pc.Finished?
                    && !s.conns[q.cur.value].told
  }

  /** `Start` succeeded on `c`: from here on the channel drives it. */
  ghost predicate Started(s: State, q: Req, c: Id) {
    && q.cur == Some(c) && c in s.conns && !s.conns[c].pc.Starting?
    && (s.conns[c].pc.Finished? ==> s.conns[c].delivered)
  }

  ghost predicate ReqOk(s: State, r: Id)
    requires r in s.reqs
  {
    var q := s.reqs[r];
    && (q.cur.Some? ==> q.cur.value in s.conns && s.conns[q.cur.value].req == r)
    && q.calls == (if q.cur.Some? && s.conns[q.cur.value].told then 1 else 0)
    && (Borrowed(q.pc).Some? ==> Holds(s, r, Borrowed(q.pc).value))
    && (q.pc.Take? || q.pc.Insert? || q.pc.Retry? || q.pc.ReturnedError? ==> Silent(s, q))
    && (q.pc.Release? || q.pc.Check? || q.pc.ReturnedOk? ==> Started(s, q, q.pc.c))
    && (q.pc.Start? ==>
          && q.cur == Some(q.pc.c) && s.conns[q.pc.c].pc.Starting? && s.conns[q.pc.c].chan.Some?
          && (q.pc.b.None? ==>
                s.conns[q.pc.c].chan.value in s.chans
                && s.chans[s.conns[q.pc.c].chan.value].st == Unopened(q.pc.c))
          && (q.pc.b.Some? ==> s.conns[q.pc.c].chan == Some(s.pools[q.pc.b.value].chan)))
  }

  ghost predicate FrameOk(s: State, f: Id)
    requires f in s.frames
  {
    match s.frames[f].kind
    case HttpCall(c) => c in s.conns && s.conns[c].pc.InCall? && s.conns[c].pc.frame == f
    case ClosedCall => s.sh.closedNotified
  }

  ghost predicate IdleOk(s: State, key: Key)
    requires key in s.sh.idle
  {
    var list := s.sh.idle[key];
    && 0 < |list| <= s.sh.maxIdle
    && (forall i | 0 <= i < |list| ::
          list[i] in s.pools && s.pools[list[i]].inIdle && s.pools[list[i]].key == key)
    && Distinct(list)
  }

  // Always true: the triggers of the quantifiers below.  A proof looks at the objects it marks and
  // at no others, so the links between objects are not followed without end.
  ghost predicate AtConn(c: Id) { true }
  ghost predicate AtChan(h: Id) { true }
  ghost predicate AtPool(p: Id) { true }
  ghost predicate AtReq(r: Id) { true }
  ghost predicate AtFrame(f: Id) { true }

  ghost predicate Conns(s: State) {
    forall c {:trigger AtConn(c)} :: AtConn(c) && c in s.conns ==> ConnOk(s, c)
  }

  ghost predicate Books(s: State) {
    forall c {:trigger AtConn(c)} :: AtConn(c) && c in s.conns ==> BookOk(s, c)
  }

  ghost predicate Chans(s: State) {
    forall h {:trigger AtChan(h)} :: AtChan(h) && h in s.chans ==> ChanOk(s, h)
  }

  ghost predicate Pools(s: State) {
    forall p {:trigger AtPool(p)} :: AtPool(p) && p in s.pools ==> PooledOk(s, p)
  }

  ghost predicate Reqs(s: State) {
    forall r {:trigger AtReq(r)} :: AtReq(r) && r in s.reqs ==> ReqOk(s, r)
  }

  ghost predicate Frames(s: State) {
    forall f {:trigger AtFrame(f)} :: AtFrame(f) && f in s.frames ==> FrameOk(s, f)
  }

  ghost predicate Idles(s: State) {
    forall key | key in s.sh.idle :: IdleOk(s, key)
  }

  /** Every id in use is below the next one. */
  ghost predicate Below(s: State) {
    && (forall i | i in s.conns :: i < s.next)
    && (forall i | i in s.pools :: i < s.next)
    && (forall i | i in s.chans :: i < s.next)
    && (forall i | i in s.reqs :: i < s.next)
    && (forall i | i in s.frames :: i < s.next)
    && (forall i | i in s.closers :: i < s.next)
  }

  ghost predicate Objects(s: State) {
    Conns(s) && Books(s) && Chans(s) && Pools(s) && Reqs(s) && Frames(s) && Idles(s) && Below(s)
  }

  // ----- the invariant, globally -----------------------------------------------------------

  ghost predicate Known(s: State) {
    && s.sh.conns <= s.conns.Keys
    && s.sh.destroying <= s.conns.Keys
    && s.counted <= s.pools.Keys
    && s.sh.idleDestroying == |s.counted|
    && s.sh.inFlight == |s.frames|
  }

  ghost predicate SomeWaiting(s: State) {
    exists p :: WaitingAt(s, p)
  }

  ghost predicate WaitingAt(s: State, p: Id) {
    p in s.pools && s.pools[p].pc.Waiting?
  }

  /** While `OnClosed` is still owed, something will come back and test for it again. */
  ghost predicate NotLost(s: State) {
    s.sh.closing && s.sh.handler && !s.sh.abandoned && !s.sh.closedNotified ==>
      || !Drained(s.sh) || s.closers != {} || s.dtor.CloseNotify? || SomeWaiting(s)
  }

  ghost predicate FlagsOk(s: State) {
    && (s.sh.closedNotified ==> s.sh.closing && s.sh.conns == {} && s.sh.destroying == {})
    && (s.sh.abandoned ==> s.sh.closing && !s.sh.handler)
    && s.closedCalls <= 1
    && (s.closedCalls == 1 ==> s.sh.closedNotified)
    && (s.sh.closedNotified && s.sh.handler ==> s.closedCalls == 1)
  }

  predicate DtorWaiting(d: Dtor) {
    d.WaitDrain? || d.WaitCut?
  }

  /** The frames of the destructor's own thread stay as they were when the wait began. */
  ghost predicate DtorOk(s: State) {
    && (!s.dtor.NotBegun? ==> s.sh.closing)
    && (s.sh.abandoned ==> s.dtor.WaitCut? || s.dtor.Returned?)
    && (s.dtor.WaitCut? ==> s.sh.abandoned)
    && (s.dtor.CloseCall? && s.dtor.f.Some? ==> s.sh.closedNotified)
    && (DtorActive(s.dtor) ==>
          forall f | f in s.frames && s.frames[f].thread == s.dtor.thr ::
            !s.frames[f].popped || (s.dtor.CloseCall? && s.dtor.f == Some(f)))
    && (DtorWaiting(s.dtor) ==> s.dtor.mine == |Depth(s.frames, s.dtor.thr)|)
    && (s.dtor.Returned? ==> s.sh.abandoned || (s.sh.conns == {} && s.sh.destroying == {}))
  }

  /** A call that is made from a callback returns before it. */
  ghost predicate NestedOk(s: State) {
    forall r | r in s.nested ::
      && r in s.reqs
      && (!HasReturned(s.reqs[r].pc) ==> s.nested[r] in s.frames && !s.frames[s.nested[r]].popped)
  }

  /** What keeps a `Request` that overlaps the destructor from draining the connector unnoticed: the
      caller's promise, or a pool that is off. */
  predicate Promised(s: State) {
    s.strict || s.sh.maxIdle == 0
  }

  /** The calls that the caller's promise lets overlap the destructor. */
  ghost predicate StrictOk(s: State) {
    s.strict ==>
      && (DtorActive(s.dtor) ==>
            forall r | r in s.reqs :: HasReturned(s.reqs[r].pc) || NestedOff(s, r, s.dtor.thr))
      && (s.dtor.Returned? ==> forall r | r in s.reqs :: HasReturned(s.reqs[r].pc))
  }

  /** A drained destructor has seen to `OnClosed` itself, and once it has returned only the
      callbacks it was called from are left. */
  ghost predicate PromiseOk(s: State) {
    Promised(s) ==>
      && (s.dtor.CloseCall? || DtorWaiting(s.dtor) ==>
            s.sh.closedNotified || !s.sh.handler || !Drained(s.sh))
      && (s.dtor.Returned? ==>
            && (s.sh.closedNotified || !s.sh.handler)
            && (forall f | f in s.frames :: s.frames[f].thread == s.dtor.thr))
  }

  ghost predicate Globals(s: State) {
    Known(s) && FlagsOk(s) && NotLost(s) && DtorOk(s) && NestedOk(s) && StrictOk(s)
    && PromiseOk(s)
  }

  ghost predicate Inv(s: State) {
    Objects(s) && Globals(s)
  }

  predicate Distinct(list: seq<Id>) {
    forall i, j | 0 <= i < j < |list| :: list[i] != list[j]
  }

  /** Removing one occurrence keeps every other element and, without repetitions, loses no more. */
  lemma {:induction false} WithoutKeeps(list: seq<Id>, p: Id)
    requires Distinct(list)
    ensures |Without(list, p)| <= |list| && Distinct(Without(list, p))
    ensures forall q :: q in Without(list, p) <==> q in list && q != p
  {
    if list != [] {
      var rest := list[1..];
      assert list == [list[0]] + rest;
      if list[0] != p {
        WithoutKeeps(rest, p);
        assert list[0] !in rest;
      }
    }
  }

  /** Taking `p` out of the pool leaves every other parked channel where it is. */
  lemma RemoveKeeps(sh: Shared, key: Key, p: Id, k: Key, q: Id)
    requires key in sh.idle ==> Distinct(sh.idle[key])
    requires k in sh.idle && q in sh.idle[k] && q != p
    ensures var sh' := RemoveFromPool(sh, key, p); k in sh'.idle && q in sh'.idle[k]
  {
    if key in sh.idle {
      WithoutKeeps(sh.idle[key], p);
    }
  }

  lemma DepthAdd(frames: map<Id, Frame>, f: Id, x: Frame, thr: Id)
    requires f !in frames && x.thread != thr
    ensures Depth(frames[f := x], thr) == Depth(frames, thr)
  {
  }

  lemma DepthDrop(frames: map<Id, Frame>, f: Id, thr: Id)
    requires f in frames && frames[f].popped
    ensures Depth(frames - {f}, thr) == Depth(frames, thr)
  {
  }

  lemma InitialInv(strict: bool, handler: bool, maxIdle: nat)
    ensures Inv(Initial(strict, handler, maxIdle))
  {
  }
}
