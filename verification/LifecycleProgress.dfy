/** No thread of the connector gets stuck: whatever is under way has a next step, so the guards of
    the transition system never hide a behaviour, and a state without steps is at rest. */
module LifecycleProgress {
  import opened ConnectorState
  import opened Lifecycle
  import opened LifecycleInvariant
  import opened LifecycleTheorems
  import opened LifecycleCallbacks

  /** A thread that is not the destructor's. */
  function OtherThread(s: State): (t: Id)
    ensures ThreadFree(s, t)
  {
    if DtorActive(s.dtor) then s.dtor.thr + 1 else 0
  }

  /** The step that a `Request` call takes next. */
  function RequestStep(s: State, r: Id): ReqStep
    requires r in s.reqs
  {
    match s.reqs[r].pc
    case Take => if CanReqTake(s, r) && Hits(s, r) then ReqTake(r) else ReqTakeNone(r)
    case Insert(None) => if s.sh.closing then ReqRefuse(r) else ReqInsert(r)
    case Insert(Some(_)) => if s.sh.closing then ReqGiveBack(r) else ReqInsertOn(r)
    case Start(_, None) => ReqOpen(r)
    case Start(_, Some(_)) => ReqAdoptFail(r, OtherThread(s))
    case Release(_, _) => ReqRelease(r)
    case Retry(_) => ReqRetry(r)
    case _ => ReqCheck(r)
  }

  lemma RequestProgress(s: State, r: Id)
    requires Inv(s) && r in s.reqs && !HasReturned(s.reqs[r].pc)
    ensures CanReq(s, RequestStep(s, r))
  {
    var pc := s.reqs[r].pc;
    assert AtReq(r);
    if Borrowed(pc).Some? {
      assert AtPool(Borrowed(pc).value);
    }
  }

  /** The step that a connection's handler takes next on its event thread. */
  function HandlerStep(s: State, c: Id): ConnStep
    requires c in s.conns
  {
    match s.conns[c].pc
    case Deliver(_) =>
      if s.conns[c].delivered || !s.conns[c].handler then ConnMute(c, false)
      else ConnDeliver(c, false, OtherThread(s))
    case ToPool => ConnPool(c)
    case PoolArm(_, _) => ConnPoolArm(c, false)
    case Detach => ConnDetach(c)
    case AdoptSwap => ConnSwap(c)
    case AdoptOpen(_) => ConnReopenFail(c)
    case _ => ConnAfterCall(c)
  }

  /** A handler waits for nothing but the callback it has called. */
  lemma HandlerProgress(s: State, c: Id)
    requires Inv(s) && c in s.conns && OnStrand(s.conns[c].pc)
    ensures || CanConn(s, HandlerStep(s, c))
            || (s.conns[c].pc.InCall? && s.conns[c].pc.frame in s.frames)
  {
    assert AtConn(c);
  }

  /** No call, handler or task of the connector has a step left; only new calls and the events of
      channels remain. */
  ghost predicate Stopped(s: State) {
    && (forall b | CanReq(s, b) :: b.ReqBegin?)
    && (forall b | CanConn(s, b) :: false)
    && (forall b | CanPost(s, b) :: false)
    && (forall h | h in s.chans :: s.chans[h].busy != Leaving)
    && s.frames == map[] && s.closers == {} && !s.dtor.CloseNotify?
  }

  lemma StoppedReqs(s: State, r: Id)
    requires Inv(s) && Stopped(s) && r in s.reqs
    ensures HasReturned(s.reqs[r].pc)
  {
    if !HasReturned(s.reqs[r].pc) {
      RequestProgress(s, r);
    }
  }

  lemma StoppedConns(s: State, c: Id)
    requires Inv(s) && Stopped(s) && c in s.conns
    ensures !OnStrand(s.conns[c].pc) && !s.conns[c].pc.Doomed?
  {
    if OnStrand(s.conns[c].pc) {
      HandlerProgress(s, c);
    }
    assert s.conns[c].pc.Doomed? ==> CanPost(s, TaskConn(c, OtherThread(s)));
  }

  lemma StoppedPools(s: State, p: Id)
    requires Inv(s) && Stopped(s) && p in s.pools
    ensures !s.pools[p].pc.Sched?
  {
    assert AtPool(p);
    assert s.pools[p].pc == Sched(TerminalClosed) ==> CanPost(s, TaskPooled(p, OtherThread(s)));
    assert s.pools[p].pc == Sched(TerminalDetached) ==> CanPost(s, TaskWatcher(p));
  }

  lemma StoppedChans(s: State, h: Id)
    requires Inv(s) && Stopped(s) && h in s.chans
    ensures s.chans[h].busy == Free
    ensures !(s.chans[h].alive && s.chans[h].st.Unopened?)
  {
    assert AtChan(h);
    if s.chans[h].busy.ByConn? {
      assert AtConn(s.chans[h].busy.conn);
      StoppedConns(s, s.chans[h].busy.conn);
    }
    assert s.chans[h].busy.ByTail? ==> CanConn(s, ConnTail(h));
    if s.chans[h].st.Unopened? {
      StoppedUnopened(s, h);
    }
  }

  lemma StoppedUnopened(s: State, h: Id)
    requires Inv(s) && Stopped(s) && h in s.chans && s.chans[h].st.Unopened?
    ensures !s.chans[h].alive
  {
    var c := s.chans[h].st.conn;
    assert AtChan(h) && AtConn(c);
    StoppedConns(s, c);
    if s.conns[c].pc.Starting? {
      StoppedReqs(s, s.conns[c].req);
    }
  }

  /** When the connector has come to a stop and every channel has ended, a closing connector has
      called `OnClosed` exactly once, every request that succeeded was answered exactly once, and
      nothing is left allocated. */
  lemma StoppedIsComplete(s: State)
    requires Reachable(s) && Stopped(s)
    requires forall h | h in s.chans :: s.chans[h].st.Unopened? || !LiveSt(s.chans[h].st)
    ensures s.sh.closing && s.sh.handler && !s.sh.abandoned ==> s.closedCalls == 1
    ensures !s.sh.abandoned ==>
              forall r | r in s.reqs && s.reqs[r].pc.ReturnedOk? :: s.reqs[r].calls == 1
    ensures forall o :: !Alive(s, o)
  {
    ReachableInv(s);
    StoppedQuiet(s);
    if s.sh.closing && s.sh.handler && !s.sh.abandoned {
      OnClosedNotLost(s);
    }
    if !s.sh.abandoned {
      forall r | r in s.reqs && s.reqs[r].pc.ReturnedOk? ensures s.reqs[r].calls == 1 {
        NoAnswerLost(s, r);
      }
    }
    forall o ensures !Alive(s, o) {
      QuietDead(s, o);
    }
  }

  lemma StoppedQuiet(s: State)
    requires Inv(s) && Stopped(s)
    requires forall h | h in s.chans :: s.chans[h].st.Unopened? || !LiveSt(s.chans[h].st)
    ensures Quiet(s)
  {
    forall r | r in s.reqs ensures HasReturned(s.reqs[r].pc) { StoppedReqs(s, r); }
    forall c | c in s.conns ensures !s.conns[c].pc.Doomed? { StoppedConns(s, c); }
    forall p | p in s.pools ensures !s.pools[p].pc.Sched? { StoppedPools(s, p); }
    forall h | h in s.chans
      ensures s.chans[h].busy == Free && (s.chans[h].alive ==> !LiveSt(s.chans[h].st))
    {
      StoppedChans(s, h);
    }
  }

  /** At rest nothing is left allocated: no connection, no watcher, no channel leaks. */
  lemma QuietDead(s: State, o: Obj)
    requires Inv(s) && Quiet(s)
    ensures !Alive(s, o)
  {
    match o
    case TheConn(c) => if c in s.conns { QuietConns(s, c); }
    case ThePooled(p) => if p in s.pools { QuietPools(s, p); }
    case TheChan(h) =>
      if h in s.chans {
        assert AtChan(h);
        match s.chans[h].st
        case EndedConn(c) => QuietConns(s, c);
        case EndedPool(p) => QuietPools(s, p);
        case _ =>
      }
  }
}
