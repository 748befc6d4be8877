/** Every step keeps the global part of the invariant: counters, flags, the debt of `OnClosed` and
    the destructor's view of the callbacks. */
module LifecycleGlobals {
  import opened Wrappers
  import opened ConnectorState
  import opened PoolKeys
  import opened Lifecycle
  import opened LifecycleInvariant

  ghost predicate SameRest(s: State, s': State) {
    && s'.strict == s.strict && s'.closers == s.closers && s'.dtor == s.dtor
    && s.conns.Keys <= s'.conns.Keys && s.pools.Keys <= s'.pools.Keys
    && s'.reqs.Keys == s.reqs.Keys && s'.nested == s.nested
    && (forall r | r in s.reqs && HasReturned(s.reqs[r].pc) :: HasReturned(s'.reqs[r].pc))
  }

  /** A step of one object alone: the shared fields and the callback frames stay. */
  lemma SameGlobals(s: State, s': State)
    requires Globals(s) && SameRest(s, s')
    requires s'.sh == s.sh && s'.frames == s.frames && s'.counted == s.counted
    requires s'.closedCalls == s.closedCalls
    requires forall p | WaitingAt(s, p) :: WaitingAt(s', p)
    ensures Globals(s')
  {
  }

  /** A lock section that takes something out, then tests for `OnClosed` on the result `x`. */
  lemma ArmedGlobals(s: State, s1: State, x: Shared, t: Id)
    requires Globals(s) && Below(s) && SameRest(s, s1) && ThreadFree(s, t)
    requires s1.frames == s.frames && s1.closedCalls == s.closedCalls && s1.next == s.next
    requires x.conns <= s.sh.conns && x.destroying <= s.sh.destroying
    requires x == s.sh.(conns := x.conns, destroying := x.destroying,
                        idleDestroying := x.idleDestroying)
    requires s1.counted <= s1.pools.Keys && x.idleDestroying == |s1.counted|
    ensures Globals(WithClosed(s1, ArmIfLast(x), t))
  {
    var s' := WithClosed(s1, ArmIfLast(x), t);
    if LastOut(x) && DtorActive(s.dtor) {
      DepthAdd(s.frames, s.next, Frame(t, ClosedCall, false), s.dtor.thr);
    }
  }

  // ----- `Request` ---------------------------------------------------------------------------

  lemma ReqTakeGlobals(s: State, r: Id)
    requires Inv(s) && CanReqTake(s, r) && Hits(s, r)
    ensures Globals(DoReqTake(s, r))
  {
    var p := TakeFromPool(s.sh, s.reqs[r].key).1.value;
    var s' := DoReqTake(s, r);
    assert IdleOk(s, s.reqs[r].key) && AtPool(p);
    assert WaitingAt(s', p);
    if s.strict && DtorActive(s.dtor) {
      NestedKeepsOpen(s, r);
    }
  }

  /** While a call made from a callback is under way, either `OnClosed` is settled or the callback's
      connection is still listed: such a call cannot be the one that drains the connector. */
  lemma NestedKeepsOpen(s: State, r: Id)
    requires Inv(s) && r in s.nested && r in s.reqs && !HasReturned(s.reqs[r].pc)
    ensures s.sh.closedNotified || s.sh.conns != {}
  {
    var f := s.nested[r];
    assert AtFrame(f);
    if s.frames[f].kind.HttpCall? {
      assert AtConn(s.frames[f].kind.conn);
      assert s.frames[f].kind.conn in s.sh.conns;
    }
  }

  lemma ReqOpenFailGlobals(s: State, r: Id, t: Id)
    requires Inv(s) && CanReqOpen(s, r) && ThreadFree(s, t)
    ensures Globals(DoReqOpenFail(s, r, t))
  {
    var c := s.reqs[r].pc.c;
    var s1 := s.(conns := s.conns[c := s.conns[c].(pc := Finished)],
                 chans := KillChan(s.chans, s.conns[c].chan),
                 reqs := s.reqs[r := s.reqs[r].(pc := ReturnedError)]);
    ArmedGlobals(s, s1, s.sh.(conns := s.sh.conns - {c}, destroying := s.sh.destroying - {c}), t);
  }

  lemma ReqAdoptFailGlobals(s: State, r: Id, t: Id)
    requires Inv(s) && CanReqAdopt(s, r) && ThreadFree(s, t)
    ensures Globals(DoReqAdoptFail(s, r, t))
  {
    var c := s.reqs[r].pc.c;
    var s1 := s.(conns := s.conns[c := s.conns[c].(chan := None, pc := Finished)],
                 reqs := s.reqs[r := s.reqs[r].(pc := Retry(s.reqs[r].pc.b.value))]);
    ArmedGlobals(s, s1, s.sh.(conns := s.sh.conns - {c}, destroying := s.sh.destroying - {c}), t);
  }

  /** Giving a pooled channel back does not end its waiting. */
  lemma ReleaseGlobals(s: State, s1: State, p: Id)
    requires Inv(s) && SameRest(s, s1) && p in s.pools && s1.pools == s.pools
    requires s1.sh == s.sh && s1.frames == s.frames && s1.counted == s.counted
    requires s1.closedCalls == s.closedCalls
    ensures Globals(ReleasePooled(s1, p))
  {
    assert AtPool(p);
    SameGlobals(s, ReleasePooled(s1, p));
  }

  lemma ReqTakeNoneGlobals(s: State, r: Id)
    requires Inv(s) && CanReqTake(s, r) && !Hits(s, r)
    ensures Globals(DoReqTakeNone(s, r))
  {
    assert s.reqs[r].key in s.sh.idle ==> IdleOk(s, s.reqs[r].key);
    SameGlobals(s, DoReqTakeNone(s, r));
  }

  lemma ReqBeginGlobals(s: State, key: Key, from: Option<Id>)
    requires Inv(s) && CanReqBegin(s, from)
    ensures Globals(DoReqBegin(s, key, from))
  {
    var s' := DoReqBegin(s, key, from);
    assert forall p | WaitingAt(s, p) :: WaitingAt(s', p);
  }

  /** Connections are inserted only while the connector is not closing. */
  lemma ReqInsertGlobals(s: State, r: Id, a: ReqStep)
    requires Inv(s) && !s.sh.closing && (a == ReqInsert(r) || a == ReqInsertOn(r)) && CanReq(s, a)
    ensures Globals(DoReq(s, a))
  {
  }

  lemma ReqSameGlobals(s: State, a: ReqStep)
    requires a.ReqRefuse? || a.ReqOpen? || a.ReqAdopt? || a.ReqCheck?
    requires Inv(s) && CanReq(s, a)
    ensures Globals(DoReq(s, a))
  {
    SameGlobals(s, DoReq(s, a));
  }

  lemma ReqReleaseGlobals(s: State, a: ReqStep)
    requires a.ReqGiveBack? || a.ReqRelease? || a.ReqRetry?
    requires Inv(s) && CanReq(s, a)
    ensures Globals(DoReq(s, a))
  {
    match a
    case ReqGiveBack(r) => ReleaseGlobals(s, SetReq(s, r, ReturnedError), s.reqs[r].pc.b.value);
    case ReqRelease(r) => ReleaseGlobals(s, SetReq(s, r, Check(s.reqs[r].pc.c)), s.reqs[r].pc.p);
    case ReqRetry(r) => ReleaseGlobals(s, SetReq(s, r, Insert(None)), s.reqs[r].pc.p);
  }

  lemma ReqGlobals(s: State, a: ReqStep)
    requires Inv(s) && CanReq(s, a)
    ensures Globals(DoReq(s, a))
  {
    match a
    case ReqBegin(cfg, from) => ReqBeginGlobals(s, PoolKey(cfg), from);
    case ReqTake(r) => ReqTakeGlobals(s, r);
    case ReqTakeNone(r) => ReqTakeNoneGlobals(s, r);
    case ReqInsert(r) => ReqInsertGlobals(s, r, a);
    case ReqInsertOn(r) => ReqInsertGlobals(s, r, a);
    case ReqOpenFail(r, t) => ReqOpenFailGlobals(s, r, t);
    case ReqAdoptFail(r, t) => ReqAdoptFailGlobals(s, r, t);
    case ReqGiveBack(_) => ReqReleaseGlobals(s, a);
    case ReqRelease(_) => ReqReleaseGlobals(s, a);
    case ReqRetry(_) => ReqReleaseGlobals(s, a);
    case _ => ReqSameGlobals(s, a);
  }

  // ----- `Close` and the destructor ----------------------------------------------------------

  lemma CloseFinishGlobals(s: State, k: Id, t: Id)
    requires Inv(s) && k in s.closers && ThreadFree(s, t)
    ensures Globals(DoCloseFinish(s, k, t))
  {
    if NotifyIfDrained(s.sh).1 && DtorActive(s.dtor) {
      DepthAdd(s.frames, s.next, Frame(t, ClosedCall, false), s.dtor.thr);
    }
    var s' := DoCloseFinish(s, k, t);
    assert forall p | WaitingAt(s, p) :: WaitingAt(s', p);
  }

  lemma DtorNotifyGlobals(s: State)
    requires Inv(s) && s.dtor.CloseNotify?
    ensures Globals(DoDtorNotify(s))
  {
    var s' := DoDtorNotify(s);
    assert forall p | WaitingAt(s, p) :: WaitingAt(s', p);
  }

  lemma DtorWaitGlobals(s: State)
    requires Inv(s) && CanDtorWait(s)
    ensures Globals(DoDtorWait(s))
  {
    var s' := DoDtorWait(s);
    assert forall p | WaitingAt(s, p) :: WaitingAt(s', p);
  }

  /** When the in-flight counter is down to the destructor's own depth, every callback still
      running is one the destructor was called from. */
  lemma OnlyOwnFrames(s: State)
    requires Inv(s) && DtorWaiting(s.dtor) && s.sh.inFlight <= s.dtor.mine
    ensures forall f | f in s.frames :: s.frames[f].thread == s.dtor.thr && !s.frames[f].popped
  {
    var own := Depth(s.frames, s.dtor.thr);
    assert own <= s.frames.Keys;
    if own != s.frames.Keys {
      assert own < s.frames.Keys;
      SubsetSize(own, s.frames.Keys);
    }
    forall f | f in s.frames ensures s.frames[f].thread == s.dtor.thr && !s.frames[f].popped {
      assert f in own;
    }
  }

  lemma {:induction false} SubsetSize<T>(a: set<T>, b: set<T>)
    requires a < b
    ensures |a| < |b|
  {
    var rest := b - a;
    assert a + rest == b && a !! rest && rest != {};
    assert |b| == |a| + |rest|;
  }

  lemma DtorReturnGlobals(s: State)
    requires Inv(s)
    requires (s.dtor.WaitDrain? && DtorPred(s)) || CanDtorCut(s)
    ensures Globals(DoDtorReturn(s))
  {
    OnlyOwnFrames(s);
    var s' := DoDtorReturn(s);
    assert forall p | WaitingAt(s, p) :: WaitingAt(s', p);
  }

  lemma DtorTimeoutGlobals(s: State)
    requires Inv(s) && s.dtor.WaitDrain?
    ensures Globals(DoDtorTimeout(s))
  {
    assert DoDtorTimeout(s).conns.Keys == s.conns.Keys;
  }

  lemma CloseGlobals(s: State, a: CloseStep)
    requires Inv(s) && CanClose(s, a)
    ensures Globals(DoClose(s, a))
  {
    match a
    case CloseBegin =>
    case CloseFinish(k, t) => CloseFinishGlobals(s, k, t);
    case DtorBegin(t) =>
    case DtorNotify => DtorNotifyGlobals(s);
    case DtorWait => DtorWaitGlobals(s);
    case DtorDrained => DtorReturnGlobals(s);
    case DtorTimeout => DtorTimeoutGlobals(s);
    case DtorCut => DtorReturnGlobals(s);
  }

  // ----- channel events ----------------------------------------------------------------------

  lemma ChanClosePoolGlobals(s: State, h: Id)
    requires Inv(s) && CanChanClosePool(s, h)
    ensures Globals(DoChanClosePool(s, h))
  {
    assert AtChan(h) && AtPool(s.chans[h].st.pooled);
  }

  /** The debt passes from the parked channel to the connection that adopted it. */
  lemma ChanAdoptOkGlobals(s: State, h: Id)
    requires Inv(s) && CanChanAdopt(s, h)
    ensures Globals(DoChanAdoptOk(s, h))
  {
    assert AtChan(h) && AtConn(s.chans[h].st.conn);
    assert s.chans[h].st.conn in s.sh.conns;
  }

  lemma ChanGlobals(s: State, a: ChanStep)
    requires Inv(s) && CanChan(s, a)
    ensures Globals(DoChan(s, a))
  {
    match a
    case ChanClosePool(h) => ChanClosePoolGlobals(s, h);
    case ChanAdoptOk(h) => ChanAdoptOkGlobals(s, h);
    case _ => SameGlobals(s, DoChan(s, a));
  }

  // ----- a connection's handler --------------------------------------------------------------

  lemma ConnDeliverGlobals(s: State, c: Id, finish: bool, t: Id)
    requires Inv(s) && CanConnTell(s, c, finish, t)
    ensures Globals(DoConnDeliver(s, c, finish, t))
  {
    assert AtConn(c);
    assert c in s.sh.conns;
    ConnDeliverDtor(s, c, finish, t);
    ConnDeliverStrict(s, c, finish, t);
  }

  lemma ConnDeliverDtor(s: State, c: Id, finish: bool, t: Id)
    requires DtorOk(s) && Below(s) && CanConnTell(s, c, finish, t) && c in s.sh.conns
    ensures DtorOk(DoConnDeliver(s, c, finish, t))
  {
    if DtorActive(s.dtor) {
      DepthAdd(s.frames, s.next, Frame(t, HttpCall(c), false), s.dtor.thr);
    }
  }

  lemma ConnDeliverStrict(s: State, c: Id, finish: bool, t: Id)
    requires DtorOk(s) && NestedOk(s) && StrictOk(s) && PromiseOk(s) && FlagsOk(s) && Below(s)
    requires CanConnTell(s, c, finish, t) && c in s.sh.conns && BookOk(s, c) && Listed(s.conns[c].pc)
    ensures NestedOk(DoConnDeliver(s, c, finish, t)) && StrictOk(DoConnDeliver(s, c, finish, t))
    ensures PromiseOk(DoConnDeliver(s, c, finish, t))
  {
  }

  lemma ConnPoolGlobals(s: State, c: Id)
    requires Inv(s) && CanConnPool(s, c)
    ensures Globals(DoConnPool(s, c))
  {
    assert AtConn(c);
    assert c in s.sh.conns;
  }

  lemma ConnDetachGlobals(s: State, c: Id)
    requires Inv(s) && CanConnDetach(s, c)
    ensures Globals(DoConnDetach(s, c))
  {
    assert AtConn(c);
    assert c in s.sh.conns && c in DoConnDetach(s, c).sh.destroying;
  }

  lemma ConnGlobals(s: State, a: ConnStep)
    requires Inv(s) && CanConn(s, a)
    ensures Globals(DoConn(s, a))
  {
    match a
    case ConnDeliver(c, finish, t) => ConnDeliverGlobals(s, c, finish, t);
    case ConnPool(c) => ConnPoolGlobals(s, c);
    case ConnDetach(c) => ConnDetachGlobals(s, c);
    case _ => SameGlobals(s, DoConn(s, a));
  }

  // ----- posted tasks and callback frames ----------------------------------------------------

  lemma TaskConnGlobals(s: State, c: Id, t: Id)
    requires Inv(s) && CanTaskConn(s, c, t)
    ensures Globals(DoTaskConn(s, c, t))
  {
    var s1 := s.(conns := s.conns[c := s.conns[c].(pc := Finished)],
                 chans := KillChan(s.chans, s.conns[c].chan));
    ArmedGlobals(s, s1, s.sh.(conns := s.sh.conns - {c}, destroying := s.sh.destroying - {c}), t);
  }

  lemma TaskPooledGlobals(s: State, p: Id, t: Id)
    requires Inv(s) && CanTaskPooled(s, p, t)
    ensures Globals(DoTaskPooled(s, p, t))
  {
    var s1 := s.(pools := s.pools[p := s.pools[p].(pc := Gone(TerminalClosed))],
                 chans := KillChan(s.chans, Some(s.pools[p].chan)),
                 counted := s.counted - {p});
    assert p in s.counted && |s.counted - {p}| == |s.counted| - 1 by {
      assert AtPool(p);
    }
    ArmedGlobals(s, s1, s.sh.(idleDestroying := s.sh.idleDestroying - 1), t);
  }

  lemma CallReturnGlobals(s: State, f: Id)
    requires Inv(s) && CanCallReturn(s, f)
    ensures Globals(DoCallReturn(s, f))
  {
    var s' := DoCallReturn(s, f);
    assert s'.frames.Keys == s.frames.Keys;
    if DtorWaiting(s.dtor) {
      assert Depth(s'.frames, s.dtor.thr) == Depth(s.frames, s.dtor.thr);
    }
    assert forall p | WaitingAt(s, p) :: WaitingAt(s', p);
  }

  lemma GuardDropGlobals(s: State, f: Id)
    requires Inv(s) && CanGuardDrop(s, f)
    ensures Globals(DoGuardDrop(s, f))
  {
    var s' := DoGuardDrop(s, f);
    assert s'.frames.Keys == s.frames.Keys - {f};
    if DtorActive(s.dtor) {
      DepthDrop(s.frames, f, s.dtor.thr);
    }
    assert forall p | WaitingAt(s, p) :: WaitingAt(s', p);
  }

  lemma PostGlobals(s: State, a: PostStep)
    requires Inv(s) && CanPost(s, a)
    ensures Globals(DoPost(s, a))
  {
    match a
    case TaskConn(c, t) => TaskConnGlobals(s, c, t);
    case TaskPooled(p, t) => TaskPooledGlobals(s, p, t);
    case TaskWatcher(p) => SameGlobals(s, DoTaskWatcher(s, p));
    case CallReturn(f) => CallReturnGlobals(s, f);
    case GuardDrop(f) => GuardDropGlobals(s, f);
  }
}
