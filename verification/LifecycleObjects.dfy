/** Every step keeps every object in order: connections, channels, parked channels, requests,
    callback frames and idle lists.  One or more lemmas a step, each about some kinds of object. */
module LifecycleObjects {
  import opened Wrappers
  import opened ConnectorState
  import opened PoolKeys
  import opened Lifecycle
  import opened LifecycleInvariant

  /** Steps that touch no object: only callback frames, `Close` calls or the destructor move. */
  lemma SameObjects(s: State, s': State)
    requires Objects(s)
    requires s'.conns == s.conns && s'.pools == s.pools && s'.chans == s.chans && s'.reqs == s.reqs
    requires s'.sh.conns == s.sh.conns && s'.sh.destroying == s.sh.destroying
    requires s'.sh.idle == s.sh.idle && s'.sh.maxIdle == s.sh.maxIdle
    requires s'.sh.abandoned == s.sh.abandoned && s'.counted == s.counted && s.next <= s'.next
    requires forall f | f in s'.frames ::
               f < s'.next && (if f in s.frames then s'.frames[f].kind == s.frames[f].kind
                               else s'.frames[f].kind.ClosedCall? && s'.sh.closedNotified)
    requires s.sh.closedNotified ==> s'.sh.closedNotified
    requires forall k | k in s'.closers :: k < s'.next
    ensures Objects(s')
  {
  }

  // ----- `Request` -------------------------------------------------------------------------------

  lemma ReqBeginKeeps(s: State, key: Key, from: Option<Id>)
    requires Objects(s)
    ensures Objects(DoReqBegin(s, key, from))
  {
  }

  lemma ReqTakeConns(s: State, r: Id)
    requires Conns(s) && Books(s) && Idles(s)
    requires CanReqTake(s, r) && Hits(s, r)
    ensures var s' := DoReqTake(s, r); Conns(s') && Books(s')
  {
    assert IdleOk(s, s.reqs[r].key);
    assert AtPool(TakeFromPool(s.sh, s.reqs[r].key).1.value) && AtReq(r);
  }

  lemma ReqTakeChans(s: State, r: Id)
    requires Chans(s) && Pools(s) && Idles(s)
    requires CanReqTake(s, r) && Hits(s, r)
    ensures var s' := DoReqTake(s, r); Chans(s') && Pools(s')
  {
    assert IdleOk(s, s.reqs[r].key);
    assert AtPool(TakeFromPool(s.sh, s.reqs[r].key).1.value) && AtReq(r);
  }

  lemma ReqTakeReqs(s: State, r: Id)
    requires Pools(s) && Reqs(s) && Frames(s) && Idles(s) && Below(s)
    requires CanReqTake(s, r) && Hits(s, r)
    ensures var s' := DoReqTake(s, r); Reqs(s') && Frames(s') && Idles(s') && Below(s')
  {
    assert IdleOk(s, s.reqs[r].key);
    assert AtPool(TakeFromPool(s.sh, s.reqs[r].key).1.value) && AtReq(r);
  }

  lemma ReqTakeNoneConns(s: State, r: Id)
    requires Conns(s) && Books(s)
    requires CanReqTake(s, r) && !Hits(s, r)
    ensures var s' := DoReqTakeNone(s, r); Conns(s') && Books(s')
  {
    assert AtReq(r);
  }

  lemma ReqTakeNoneRest(s: State, r: Id)
    requires Chans(s) && Pools(s) && Reqs(s) && Frames(s) && Idles(s) && Below(s)
    requires CanReqTake(s, r) && !Hits(s, r)
    ensures var s' := DoReqTakeNone(s, r);
            Chans(s') && Pools(s') && Reqs(s') && Frames(s') && Idles(s') && Below(s')
  {
    assert AtReq(r);
  }

  lemma ReqRefuseKeeps(s: State, r: Id)
    requires Objects(s)
    requires CanReqInsert(s, r) && s.sh.closing
    ensures Objects(SetReq(s, r, ReturnedError))
  {
    assert AtReq(r);
  }

  lemma ReqGiveBackConns(s: State, r: Id)
    requires Conns(s) && Books(s) && Pools(s)
    requires CanReqInsertOn(s, r) && s.sh.closing
    ensures var s' := DoReqGiveBack(s, r); Conns(s') && Books(s')
  {
    assert AtPool(s.reqs[r].pc.b.value) && AtReq(r);
  }

  lemma ReqGiveBackChans(s: State, r: Id)
    requires Chans(s) && Pools(s) && Reqs(s)
    requires CanReqInsertOn(s, r) && s.sh.closing
    ensures var s' := DoReqGiveBack(s, r); Chans(s') && Pools(s')
  {
    assert AtPool(s.reqs[r].pc.b.value) && AtReq(r);
  }

  lemma ReqGiveBackReqs(s: State, r: Id)
    requires Reqs(s) && Frames(s) && Idles(s) && Below(s)
    requires CanReqInsertOn(s, r) && s.sh.closing
    ensures var s' := DoReqGiveBack(s, r); Reqs(s') && Frames(s') && Idles(s') && Below(s')
  {
    assert AtPool(s.reqs[r].pc.b.value) && AtReq(r);
  }

  lemma ReqInsertConns(s: State, r: Id)
    requires Conns(s) && Below(s)
    requires CanReqInsert(s, r) && !s.sh.closing
    ensures var s' := DoReqInsert(s, r); Conns(s')
  {
    assert AtReq(r);
  }

  lemma ReqInsertBooks(s: State, r: Id)
    requires Books(s) && Reqs(s) && Below(s) && Known(s) && FlagsOk(s)
    requires CanReqInsert(s, r) && !s.sh.closing
    ensures var s' := DoReqInsert(s, r); Books(s')
  {
    assert AtReq(r);
  }

  lemma ReqInsertChans(s: State, r: Id)
    requires Chans(s) && Pools(s) && Below(s)
    requires CanReqInsert(s, r) && !s.sh.closing
    ensures var s' := DoReqInsert(s, r); Chans(s') && Pools(s')
  {
    assert AtReq(r);
  }

  lemma ReqInsertReqs(s: State, r: Id)
    requires Reqs(s) && Below(s)
    requires CanReqInsert(s, r) && !s.sh.closing
    ensures var s' := DoReqInsert(s, r); Reqs(s')
  {
    assert AtReq(r);
  }

  lemma ReqInsertFrames(s: State, r: Id)
    requires Frames(s) && Below(s)
    requires CanReqInsert(s, r) && !s.sh.closing
    ensures var s' := DoReqInsert(s, r); Frames(s') && Below(s')
  {
    assert AtReq(r);
  }

  lemma ReqInsertIdles(s: State, r: Id)
    requires Idles(s)
    requires CanReqInsert(s, r) && !s.sh.closing
    ensures var s' := DoReqInsert(s, r); Idles(s')
  {
    assert AtReq(r);
  }

  lemma ReqInsertOnConns(s: State, r: Id)
    requires Conns(s) && Books(s) && Pools(s) && Reqs(s) && Below(s) && Known(s) && FlagsOk(s)
    requires CanReqInsertOn(s, r) && !s.sh.closing
    ensures var s' := DoReqInsertOn(s, r); Conns(s') && Books(s')
  {
    assert AtChan(s.pools[s.reqs[r].pc.b.value].chan) && AtPool(s.reqs[r].pc.b.value) && AtReq(r);
  }

  lemma ReqInsertOnChans(s: State, r: Id)
    requires Chans(s) && Pools(s) && Below(s)
    requires CanReqInsertOn(s, r) && !s.sh.closing
    ensures var s' := DoReqInsertOn(s, r); Chans(s') && Pools(s')
  {
    assert AtChan(s.pools[s.reqs[r].pc.b.value].chan) && AtPool(s.reqs[r].pc.b.value) && AtReq(r);
  }

  lemma ReqInsertOnReqs(s: State, r: Id)
    requires Reqs(s) && Below(s)
    requires CanReqInsertOn(s, r) && !s.sh.closing
    ensures var s' := DoReqInsertOn(s, r); Reqs(s')
  {
    assert AtChan(s.pools[s.reqs[r].pc.b.value].chan) && AtPool(s.reqs[r].pc.b.value) && AtReq(r);
  }

  lemma ReqInsertOnRest(s: State, r: Id)
    requires Frames(s) && Idles(s) && Below(s)
    requires CanReqInsertOn(s, r) && !s.sh.closing
    ensures var s' := DoReqInsertOn(s, r); Frames(s') && Idles(s') && Below(s')
  {
    assert AtChan(s.pools[s.reqs[r].pc.b.value].chan) && AtPool(s.reqs[r].pc.b.value) && AtReq(r);
  }

  lemma ReqOpenConns(s: State, r: Id)
    requires Conns(s) && Reqs(s)
    requires CanReqOpen(s, r)
    ensures var s' := DoReqOpen(s, r); Conns(s')
  {
    assert AtConn(s.reqs[r].pc.c) && AtChan(s.conns[s.reqs[r].pc.c].chan.value) && AtReq(r);
  }

  lemma ReqOpenBooks(s: State, r: Id)
    requires Books(s) && Reqs(s)
    requires CanReqOpen(s, r)
    ensures var s' := DoReqOpen(s, r); Books(s')
  {
    assert AtConn(s.reqs[r].pc.c) && AtChan(s.conns[s.reqs[r].pc.c].chan.value) && AtReq(r);
  }

  lemma ReqOpenChans(s: State, r: Id)
    requires Chans(s) && Pools(s) && Reqs(s)
    requires CanReqOpen(s, r)
    ensures var s' := DoReqOpen(s, r); Chans(s') && Pools(s')
  {
    assert AtConn(s.reqs[r].pc.c) && AtChan(s.conns[s.reqs[r].pc.c].chan.value) && AtReq(r);
  }

  lemma ReqOpenReqs(s: State, r: Id)
    requires Reqs(s) && Frames(s) && Idles(s) && Below(s)
    requires CanReqOpen(s, r)
    ensures var s' := DoReqOpen(s, r); Reqs(s') && Frames(s') && Idles(s') && Below(s')
  {
    assert AtConn(s.reqs[r].pc.c) && AtChan(s.conns[s.reqs[r].pc.c].chan.value) && AtReq(r);
  }

  lemma ReqOpenFailConns(s: State, r: Id, t: Id)
    requires Conns(s) && Reqs(s)
    requires CanReqOpen(s, r) && ThreadFree(s, t)
    ensures var s' := DoReqOpenFail(s, r, t); Conns(s')
  {
    assert AtConn(s.reqs[r].pc.c) && AtChan(s.conns[s.reqs[r].pc.c].chan.value) && AtReq(r);
  }

  lemma ReqOpenFailBooks(s: State, r: Id, t: Id)
    requires Books(s)
    requires CanReqOpen(s, r) && ThreadFree(s, t)
    ensures var s' := DoReqOpenFail(s, r, t); Books(s')
  {
    assert AtConn(s.reqs[r].pc.c) && AtChan(s.conns[s.reqs[r].pc.c].chan.value) && AtReq(r);
  }

  lemma ReqOpenFailChans(s: State, r: Id, t: Id)
    requires Chans(s) && Pools(s) && Reqs(s)
    requires CanReqOpen(s, r) && ThreadFree(s, t)
    ensures var s' := DoReqOpenFail(s, r, t); Chans(s') && Pools(s')
  {
    assert AtConn(s.reqs[r].pc.c) && AtChan(s.conns[s.reqs[r].pc.c].chan.value) && AtReq(r);
  }

  lemma ReqOpenFailReqs(s: State, r: Id, t: Id)
    requires Books(s) && Reqs(s)
    requires CanReqOpen(s, r) && ThreadFree(s, t)
    ensures var s' := DoReqOpenFail(s, r, t); Reqs(s')
  {
    assert AtConn(s.reqs[r].pc.c) && AtChan(s.conns[s.reqs[r].pc.c].chan.value) && AtReq(r);
  }

  lemma ReqOpenFailRest(s: State, r: Id, t: Id)
    requires Reqs(s) && Frames(s) && Idles(s) && Below(s)
    requires CanReqOpen(s, r) && ThreadFree(s, t)
    ensures var s' := DoReqOpenFail(s, r, t); Frames(s') && Idles(s') && Below(s')
  {
    assert AtConn(s.reqs[r].pc.c) && AtChan(s.conns[s.reqs[r].pc.c].chan.value) && AtReq(r);
  }

  lemma ReqAdoptConns(s: State, r: Id)
    requires Conns(s) && Pools(s) && Reqs(s)
    requires CanReqAdopt(s, r) && AdoptAccepted(s, r)
    ensures Conns(DoReqAdopt(s, r))
  {
    assert AtConn(s.reqs[r].pc.c) && AtChan(s.pools[s.reqs[r].pc.b.value].chan) &&
      AtPool(s.reqs[r].pc.b.value) && AtReq(r);
  }

  lemma ReqAdoptBooks(s: State, r: Id)
    requires Books(s) && Reqs(s)
    requires CanReqAdopt(s, r) && AdoptAccepted(s, r)
    ensures Books(DoReqAdopt(s, r))
  {
    assert AtConn(s.reqs[r].pc.c) && AtReq(r);
  }

  lemma ReqAdoptChans(s: State, r: Id)
    requires Chans(s) && Reqs(s)
    requires CanReqAdopt(s, r) && AdoptAccepted(s, r)
    ensures var s' := DoReqAdopt(s, r); Chans(s')
  {
    assert AtConn(s.reqs[r].pc.c) && AtChan(s.pools[s.reqs[r].pc.b.value].chan) &&
      AtPool(s.reqs[r].pc.b.value) && AtReq(r);
  }

  lemma ReqAdoptPools(s: State, r: Id)
    requires Pools(s) && Reqs(s)
    requires CanReqAdopt(s, r) && AdoptAccepted(s, r)
    ensures var s' := DoReqAdopt(s, r); Pools(s')
  {
    assert AtConn(s.reqs[r].pc.c) && AtChan(s.pools[s.reqs[r].pc.b.value].chan) &&
      AtPool(s.reqs[r].pc.b.value) && AtReq(r);
  }

  lemma ReqAdoptReqs(s: State, r: Id)
    requires Reqs(s)
    requires CanReqAdopt(s, r) && AdoptAccepted(s, r)
    ensures var s' := DoReqAdopt(s, r); Reqs(s')
  {
    assert AtConn(s.reqs[r].pc.c) && AtChan(s.pools[s.reqs[r].pc.b.value].chan) &&
      AtPool(s.reqs[r].pc.b.value) && AtReq(r);
  }

  lemma ReqAdoptRest(s: State, r: Id)
    requires Reqs(s) && Frames(s) && Idles(s) && Below(s)
    requires CanReqAdopt(s, r) && AdoptAccepted(s, r)
    ensures var s' := DoReqAdopt(s, r); Frames(s') && Idles(s') && Below(s')
  {
    assert AtConn(s.reqs[r].pc.c) && AtChan(s.pools[s.reqs[r].pc.b.value].chan) &&
      AtPool(s.reqs[r].pc.b.value) && AtReq(r);
  }

  lemma ReqAdoptFailConns(s: State, r: Id, t: Id)
    requires Conns(s) && Books(s) && Reqs(s)
    requires CanReqAdopt(s, r) && ThreadFree(s, t)
    ensures var s' := DoReqAdoptFail(s, r, t); Conns(s') && Books(s')
  {
    assert AtConn(s.reqs[r].pc.c) && AtPool(s.reqs[r].pc.b.value) && AtReq(r);
  }

  lemma ReqAdoptFailChans(s: State, r: Id, t: Id)
    requires Chans(s) && Pools(s) && Reqs(s)
    requires CanReqAdopt(s, r) && ThreadFree(s, t)
    ensures var s' := DoReqAdoptFail(s, r, t); Chans(s') && Pools(s')
  {
    assert AtConn(s.reqs[r].pc.c) && AtPool(s.reqs[r].pc.b.value) && AtReq(r);
  }

  lemma ReqAdoptFailReqs(s: State, r: Id, t: Id)
    requires Books(s) && Reqs(s)
    requires CanReqAdopt(s, r) && ThreadFree(s, t)
    ensures Reqs(DoReqAdoptFail(s, r, t))
  {
    assert AtConn(s.reqs[r].pc.c) && AtPool(s.reqs[r].pc.b.value) && AtReq(r);
  }

  lemma ReqAdoptFailRest(s: State, r: Id, t: Id)
    requires Books(s) && Reqs(s) && Frames(s) && Idles(s) && Below(s)
    requires CanReqAdopt(s, r) && ThreadFree(s, t)
    ensures var s' := DoReqAdoptFail(s, r, t); Frames(s') && Idles(s') && Below(s')
  {
    assert AtConn(s.reqs[r].pc.c) && AtReq(r);
  }

  lemma ReqReleaseConns(s: State, r: Id)
    requires Conns(s) && Books(s) && Pools(s)
    requires CanReqRelease(s, r)
    ensures var s' := DoReqRelease(s, r); Conns(s') && Books(s')
  {
    assert AtPool(s.reqs[r].pc.p) && AtReq(r);
  }

  lemma ReqReleaseChans(s: State, r: Id)
    requires Chans(s) && Pools(s) && Reqs(s)
    requires CanReqRelease(s, r)
    ensures var s' := DoReqRelease(s, r); Chans(s') && Pools(s')
  {
    assert AtPool(s.reqs[r].pc.p) && AtReq(r);
  }

  lemma ReqReleaseReqs(s: State, r: Id)
    requires Reqs(s) && Frames(s) && Idles(s) && Below(s)
    requires CanReqRelease(s, r)
    ensures var s' := DoReqRelease(s, r); Reqs(s') && Frames(s') && Idles(s') && Below(s')
  {
    assert AtPool(s.reqs[r].pc.p) && AtReq(r);
  }

  lemma ReqRetryConns(s: State, r: Id)
    requires Conns(s) && Books(s) && Pools(s)
    requires CanReqRetry(s, r)
    ensures var s' := DoReqRetry(s, r); Conns(s') && Books(s')
  {
    assert AtPool(s.reqs[r].pc.p) && AtReq(r);
  }

  lemma ReqRetryChans(s: State, r: Id)
    requires Chans(s) && Pools(s) && Reqs(s)
    requires CanReqRetry(s, r)
    ensures var s' := DoReqRetry(s, r); Chans(s') && Pools(s')
  {
    assert AtPool(s.reqs[r].pc.p) && AtReq(r);
  }

  lemma ReqRetryReqs(s: State, r: Id)
    requires Reqs(s) && Frames(s) && Idles(s) && Below(s)
    requires CanReqRetry(s, r)
    ensures var s' := DoReqRetry(s, r); Reqs(s') && Frames(s') && Idles(s') && Below(s')
  {
    assert AtPool(s.reqs[r].pc.p) && AtReq(r);
  }

  lemma ReqCheckConns(s: State, r: Id)
    requires Conns(s) && Books(s)
    requires r in s.reqs && s.reqs[r].pc.Check?
    ensures var s' := SetReq(s, r, ReturnedOk(s.reqs[r].pc.c)); Conns(s') && Books(s')
  {
    assert AtReq(r);
  }

  lemma ReqCheckRest(s: State, r: Id)
    requires Chans(s) && Pools(s) && Reqs(s) && Frames(s) && Idles(s) && Below(s)
    requires r in s.reqs && s.reqs[r].pc.Check?
    ensures var s' := SetReq(s, r, ReturnedOk(s.reqs[r].pc.c));
            Chans(s') && Pools(s') && Reqs(s') && Frames(s') && Idles(s') && Below(s')
  {
    assert AtReq(r);
  }


  // ----- `Close` and the destructor --------------------------------------------------------------

  lemma CloseFinishKeeps(s: State, k: Id, t: Id)
    requires Objects(s)
    requires k in s.closers && ThreadFree(s, t)
    ensures Objects(DoCloseFinish(s, k, t))
  {
    SameObjects(s, DoCloseFinish(s, k, t));
  }

  lemma DtorNotifyKeeps(s: State)
    requires Objects(s)
    requires s.dtor.CloseNotify?
    ensures Objects(DoDtorNotify(s))
  {
    SameObjects(s, DoDtorNotify(s));
  }

  lemma DtorTimeoutConns(s: State)
    requires Conns(s) && Books(s)
    requires s.dtor.WaitDrain? && !DtorPred(s)
    ensures var s' := DoDtorTimeout(s); Conns(s') && Books(s')
  {
  }

  lemma DtorTimeoutRest(s: State)
    requires Chans(s) && Pools(s) && Reqs(s) && Frames(s) && Idles(s) && Below(s)
    requires s.dtor.WaitDrain? && !DtorPred(s)
    ensures var s' := DoDtorTimeout(s);
            Chans(s') && Pools(s') && Reqs(s') && Frames(s') && Idles(s') && Below(s')
  {
  }


  // ----- channel events --------------------------------------------------------------------------

  lemma ConnDataConns(s: State, c: Id, done: bool, failed: bool)
    requires Conns(s) && Books(s)
    requires CanConnEvent(s, c)
    ensures var s' := DoConnData(s, c, done, failed); Conns(s') && Books(s')
  {
    assert AtConn(c);
  }

  lemma ConnDataChans(s: State, c: Id, done: bool, failed: bool)
    requires Chans(s) && Pools(s)
    requires CanConnEvent(s, c)
    ensures var s' := DoConnData(s, c, done, failed); Chans(s') && Pools(s')
  {
    assert AtConn(c);
  }

  lemma ConnDataReqs(s: State, c: Id, done: bool, failed: bool)
    requires Reqs(s) && Frames(s) && Idles(s) && Below(s)
    requires CanConnEvent(s, c)
    ensures var s' := DoConnData(s, c, done, failed); Reqs(s') && Frames(s') && Idles(s') && Below(s')
  {
    assert AtConn(c);
  }

  lemma ConnKeepConns(s: State, c: Id)
    requires Conns(s) && Books(s) && Frames(s)
    requires CanConnKeep(s, c)
    ensures var s' := DoConnKeep(s, c); Conns(s') && Books(s')
  {
    assert AtConn(c) && AtChan(s.conns[c].chan.value);
  }

  lemma ConnKeepRest(s: State, c: Id)
    requires Conns(s) && Reqs(s) && Frames(s) && Idles(s) && Below(s)
    requires CanConnKeep(s, c)
    ensures var s' := DoConnKeep(s, c); Reqs(s') && Frames(s') && Idles(s') && Below(s')
  {
    assert AtConn(c) && AtChan(s.conns[c].chan.value);
  }

  lemma ConnKeepChans(s: State, c: Id)
    requires Conns(s) && Chans(s) && Pools(s)
    requires CanConnKeep(s, c)
    ensures var s' := DoConnKeep(s, c); Chans(s') && Pools(s')
  {
    assert AtConn(c) && AtChan(s.conns[c].chan.value);
  }

  lemma ChanCloseConnConns(s: State, h: Id)
    requires Conns(s) && Books(s) && Chans(s)
    requires CanChanCloseConn(s, h)
    ensures var s' := DoChanCloseConn(s, h); Conns(s') && Books(s')
  {
    assert AtConn(s.chans[h].st.conn) && AtChan(h);
  }

  lemma ChanCloseConnChans(s: State, h: Id)
    requires Conns(s) && Chans(s) && Pools(s)
    requires CanChanCloseConn(s, h)
    ensures var s' := DoChanCloseConn(s, h); Chans(s') && Pools(s')
  {
    assert AtConn(s.chans[h].st.conn) && AtChan(h);
  }

  lemma ChanCloseConnReqs(s: State, h: Id)
    requires Conns(s) && Chans(s) && Reqs(s) && Frames(s) && Idles(s) && Below(s)
    requires CanChanCloseConn(s, h)
    ensures var s' := DoChanCloseConn(s, h); Reqs(s') && Frames(s') && Idles(s') && Below(s')
  {
    assert AtConn(s.chans[h].st.conn) && AtChan(h);
  }

  lemma ChanClosePoolConns(s: State, h: Id)
    requires Conns(s) && Chans(s)
    requires CanChanClosePool(s, h)
    ensures var s' := DoChanClosePool(s, h); Conns(s')
  {
    assert AtChan(h) && AtPool(s.chans[h].st.pooled);
  }

  lemma ChanClosePoolBooks(s: State, h: Id)
    requires Books(s)
    requires CanChanClosePool(s, h)
    ensures var s' := DoChanClosePool(s, h); Books(s')
  {
    assert AtChan(h) && AtPool(s.chans[h].st.pooled);
  }

  lemma ChanClosePoolChans(s: State, h: Id)
    requires Chans(s)
    requires CanChanClosePool(s, h)
    ensures var s' := DoChanClosePool(s, h); Chans(s')
  {
    assert AtChan(h) && AtPool(s.chans[h].st.pooled);
  }

  lemma ChanClosePoolPools(s: State, h: Id)
    requires Chans(s) && Pools(s) && Idles(s)
    requires CanChanClosePool(s, h)
    ensures var s' := DoChanClosePool(s, h); Pools(s')
  {
    assert AtChan(h) && AtPool(s.chans[h].st.pooled);
    var p := s.chans[h].st.pooled;
    var s' := DoChanClosePool(s, h);
    forall q | AtPool(q) && q in s'.pools ensures PooledOk(s', q) {
      var k := s.pools[q].key;
      if s.pools[q].inIdle && q != p {
        assert s.pools[p].key in s.sh.idle ==> IdleOk(s, s.pools[p].key);
        RemoveKeeps(s.sh, s.pools[p].key, p, k, q);
      }
    }
  }

  lemma ChanClosePoolReqs(s: State, h: Id)
    requires Reqs(s) && Frames(s) && Below(s)
    requires CanChanClosePool(s, h)
    ensures var s' := DoChanClosePool(s, h); Reqs(s') && Frames(s') && Below(s')
  {
    assert AtChan(h) && AtPool(s.chans[h].st.pooled);
  }

  lemma ChanClosePoolIdles(s: State, h: Id)
    requires Idles(s)
    requires CanChanClosePool(s, h)
    ensures var s' := DoChanClosePool(s, h); Idles(s')
  {
    assert AtChan(h) && AtPool(s.chans[h].st.pooled);
    var p := s.chans[h].st.pooled;
    var k := s.pools[p];
    if k.key in s.sh.idle {
      assert IdleOk(s, k.key);
      WithoutKeeps(s.sh.idle[k.key], p);
    }
    var s' := DoChanClosePool(s, h);
    forall key | key in s'.sh.idle ensures IdleOk(s', key) {
      assert IdleOk(s, key);
      forall i | 0 <= i < |s'.sh.idle[key]|
        ensures s'.sh.idle[key][i] in s.sh.idle[key] && s'.sh.idle[key][i] != p
      {
        assert s'.sh.idle[key][i] in s'.sh.idle[key];
      }
    }
  }

  lemma ChanAdoptOkConns(s: State, h: Id)
    requires Conns(s) && Books(s) && Chans(s)
    requires CanChanAdopt(s, h)
    ensures var s' := DoChanAdoptOk(s, h); Conns(s') && Books(s')
  {
    assert AtConn(s.chans[h].st.conn) && AtChan(h) && AtPool(s.chans[h].st.pooled);
  }

  lemma ChanAdoptOkChans(s: State, h: Id)
    requires Chans(s)
    requires CanChanAdopt(s, h)
    ensures var s' := DoChanAdoptOk(s, h); Chans(s')
  {
    assert AtConn(s.chans[h].st.conn) && AtChan(h) && AtPool(s.chans[h].st.pooled);
  }

  lemma ChanAdoptOkPools(s: State, h: Id)
    requires Chans(s) && Pools(s)
    requires CanChanAdopt(s, h)
    ensures var s' := DoChanAdoptOk(s, h); Pools(s')
  {
    assert AtConn(s.chans[h].st.conn) && AtChan(h) && AtPool(s.chans[h].st.pooled);
  }

  lemma ChanAdoptOkReqs(s: State, h: Id)
    requires Chans(s) && Pools(s) && Reqs(s) && Frames(s) && Idles(s) && Below(s)
    requires CanChanAdopt(s, h)
    ensures var s' := DoChanAdoptOk(s, h); Reqs(s') && Frames(s') && Idles(s') && Below(s')
  {
    assert AtConn(s.chans[h].st.conn) && AtChan(h) && AtPool(s.chans[h].st.pooled);
  }

  lemma ChanAdoptFailConns(s: State, h: Id)
    requires Conns(s) && Chans(s)
    requires CanChanAdopt(s, h)
    ensures var s' := DoChanAdoptFail(s, h); Conns(s')
  {
    assert AtConn(s.chans[h].st.conn) && AtChan(h) && AtPool(s.chans[h].st.pooled);
  }

  lemma ChanAdoptFailBooks(s: State, h: Id)
    requires Books(s) && Chans(s)
    requires CanChanAdopt(s, h)
    ensures var s' := DoChanAdoptFail(s, h); Books(s')
  {
    assert AtConn(s.chans[h].st.conn) && AtChan(h) && AtPool(s.chans[h].st.pooled);
  }

  lemma ChanAdoptFailChans(s: State, h: Id)
    requires Conns(s) && Chans(s) && Pools(s)
    requires CanChanAdopt(s, h)
    ensures var s' := DoChanAdoptFail(s, h); Chans(s') && Pools(s')
  {
    assert AtConn(s.chans[h].st.conn) && AtChan(h) && AtPool(s.chans[h].st.pooled);
  }

  lemma ChanAdoptFailReqs(s: State, h: Id)
    requires Chans(s) && Reqs(s) && Frames(s) && Idles(s) && Below(s)
    requires CanChanAdopt(s, h)
    ensures var s' := DoChanAdoptFail(s, h); Reqs(s') && Frames(s') && Idles(s') && Below(s')
  {
    assert AtConn(s.chans[h].st.conn) && AtChan(h) && AtPool(s.chans[h].st.pooled);
  }

  lemma TimerFireConns(s: State, p: Id)
    requires Conns(s) && Books(s)
    requires CanTimerFire(s, p)
    ensures var s' := DoTimerFire(s, p); Conns(s') && Books(s')
  {
    assert AtPool(p);
  }

  lemma TimerFireRest(s: State, p: Id)
    requires Chans(s) && Pools(s) && Reqs(s) && Frames(s) && Idles(s) && Below(s)
    requires CanTimerFire(s, p)
    ensures var s' := DoTimerFire(s, p);
            Chans(s') && Pools(s') && Reqs(s') && Frames(s') && Idles(s') && Below(s')
  {
    assert AtPool(p);
  }

  lemma StrandReturnKeeps(s: State, h: Id)
    requires Objects(s)
    requires h in s.chans && s.chans[h].busy == Leaving
    ensures Objects(SetBusy(s, h, Free))
  {
    assert AtChan(h);
  }


  // ----- a connection's handler ------------------------------------------------------------------

  lemma ConnMuteConns(s: State, c: Id, finish: bool)
    requires Conns(s) && Books(s)
    requires CanConnMute(s, c, finish)
    ensures var s' := DoConnMute(s, c, finish); Conns(s') && Books(s')
  {
    assert AtConn(c);
  }

  lemma ConnMuteChans(s: State, c: Id, finish: bool)
    requires Chans(s)
    requires CanConnMute(s, c, finish)
    ensures var s' := DoConnMute(s, c, finish); Chans(s')
  {
    assert AtConn(c);
  }

  lemma ConnMutePools(s: State, c: Id, finish: bool)
    requires Pools(s)
    requires CanConnMute(s, c, finish)
    ensures var s' := DoConnMute(s, c, finish); Pools(s')
  {
    assert AtConn(c);
  }

  lemma ConnMuteReqs(s: State, c: Id, finish: bool)
    requires Reqs(s) && Frames(s) && Idles(s) && Below(s)
    requires CanConnMute(s, c, finish)
    ensures var s' := DoConnMute(s, c, finish); Reqs(s') && Frames(s') && Idles(s') && Below(s')
  {
    assert AtConn(c);
  }

  lemma ConnDeliverConns(s: State, c: Id, finish: bool, t: Id)
    requires Conns(s)
    requires CanConnTell(s, c, finish, t)
    ensures var s' := DoConnDeliver(s, c, finish, t); Conns(s')
  {
    assert AtConn(c) && AtReq(s.conns[c].req);
  }

  lemma ConnDeliverBooks(s: State, c: Id, finish: bool, t: Id)
    requires Books(s)
    requires CanConnTell(s, c, finish, t)
    ensures var s' := DoConnDeliver(s, c, finish, t); Books(s')
  {
    assert AtConn(c) && AtReq(s.conns[c].req);
  }

  lemma ConnDeliverChans(s: State, c: Id, finish: bool, t: Id)
    requires Chans(s)
    requires CanConnTell(s, c, finish, t)
    ensures var s' := DoConnDeliver(s, c, finish, t); Chans(s')
  {
    assert AtConn(c) && AtReq(s.conns[c].req);
  }

  lemma ConnDeliverPools(s: State, c: Id, finish: bool, t: Id)
    requires Pools(s)
    requires CanConnTell(s, c, finish, t)
    ensures var s' := DoConnDeliver(s, c, finish, t); Pools(s')
  {
    assert AtConn(c) && AtReq(s.conns[c].req);
  }

  lemma ConnDeliverReqs(s: State, c: Id, finish: bool, t: Id)
    requires Books(s) && Reqs(s) && Frames(s) && Idles(s) && Below(s)
    requires CanConnTell(s, c, finish, t)
    ensures var s' := DoConnDeliver(s, c, finish, t); Reqs(s') && Frames(s') && Idles(s') && Below(s')
  {
    assert AtConn(c) && AtReq(s.conns[c].req);
  }

  lemma ConnAfterCallConns(s: State, c: Id)
    requires Conns(s)
    requires CanConnAfterCall(s, c)
    ensures var s' := DoConnAfterCall(s, c); Conns(s')
  {
    assert AtConn(c);
  }

  lemma ConnAfterCallBooks(s: State, c: Id)
    requires Books(s)
    requires CanConnAfterCall(s, c)
    ensures var s' := DoConnAfterCall(s, c); Books(s')
  {
    assert AtConn(c);
  }

  lemma ConnAfterCallChans(s: State, c: Id)
    requires Chans(s) && Pools(s)
    requires CanConnAfterCall(s, c)
    ensures var s' := DoConnAfterCall(s, c); Chans(s') && Pools(s')
  {
    assert AtConn(c);
  }

  lemma ConnAfterCallReqs(s: State, c: Id)
    requires Reqs(s) && Frames(s) && Idles(s) && Below(s)
    requires CanConnAfterCall(s, c)
    ensures var s' := DoConnAfterCall(s, c); Reqs(s') && Frames(s') && Idles(s') && Below(s')
  {
    assert AtConn(c);
  }

  lemma ConnPoolConns(s: State, c: Id)
    requires Conns(s) && Below(s)
    requires CanConnPool(s, c)
    ensures var s' := DoConnPool(s, c); Conns(s')
  {
    assert AtConn(c) && AtChan(s.conns[c].chan.value);
  }

  lemma ConnPoolBooks(s: State, c: Id)
    requires Books(s)
    requires CanConnPool(s, c)
    ensures var s' := DoConnPool(s, c); Books(s')
  {
    assert AtConn(c) && AtChan(s.conns[c].chan.value);
  }

  lemma ConnPoolChans(s: State, c: Id)
    requires Conns(s) && Chans(s) && Below(s)
    requires CanConnPool(s, c)
    ensures var s' := DoConnPool(s, c); Chans(s')
  {
    assert AtConn(c) && AtChan(s.conns[c].chan.value);
  }

  lemma ConnPoolPools(s: State, c: Id)
    requires Conns(s) && Pools(s) && Below(s) && Known(s)
    requires CanConnPool(s, c)
    ensures var s' := DoConnPool(s, c); Pools(s')
  {
    assert AtConn(c) && AtChan(s.conns[c].chan.value);
  }

  lemma ConnPoolReqs(s: State, c: Id)
    requires Conns(s) && Reqs(s) && Below(s)
    requires CanConnPool(s, c)
    ensures var s' := DoConnPool(s, c); Reqs(s')
  {
    assert AtConn(c) && AtChan(s.conns[c].chan.value);
  }

  lemma ConnPoolFrames(s: State, c: Id)
    requires Frames(s) && Below(s)
    requires CanConnPool(s, c)
    ensures var s' := DoConnPool(s, c); Frames(s') && Below(s')
  {
    assert AtConn(c) && AtChan(s.conns[c].chan.value);
  }

  lemma ConnPoolIdles(s: State, c: Id)
    requires Idles(s) && Below(s)
    requires CanConnPool(s, c)
    ensures Idles(DoConnPool(s, c))
  {
    var s' := DoConnPool(s, c);
    var key := s.reqs[s.conns[c].req].key;
    forall k | k in s'.sh.idle ensures IdleOk(s', k) {
      assert k in s.sh.idle ==> IdleOk(s, k);
      if k == key && PutInPool(s.sh, key, s.next).1 {
        ParkedList(if k in s.sh.idle then s.sh.idle[k] else [], s.next);
      }
    }
  }

  lemma ParkedList(list: seq<Id>, p: Id)
    requires Distinct(list) && forall i | 0 <= i < |list| :: list[i] < p
    ensures Distinct(list + [p])
  {
  }

  lemma ConnPoolArmConns(s: State, c: Id, arm: bool)
    requires Conns(s) && Pools(s)
    requires CanConnPoolArm(s, c)
    ensures var s' := DoConnPoolArm(s, c, arm); Conns(s')
  {
    assert AtConn(c) && AtChan(s.conns[c].thr.value) && AtPool(s.conns[c].pc.pooled);
  }

  lemma ConnPoolArmBooks(s: State, c: Id, arm: bool)
    requires Conns(s) && Books(s)
    requires CanConnPoolArm(s, c)
    ensures var s' := DoConnPoolArm(s, c, arm); Books(s')
  {
    assert AtConn(c) && AtChan(s.conns[c].thr.value) && AtPool(s.conns[c].pc.pooled);
  }

  lemma ConnPoolArmChans(s: State, c: Id, arm: bool)
    requires Conns(s) && Chans(s) && Pools(s)
    requires CanConnPoolArm(s, c)
    ensures var s' := DoConnPoolArm(s, c, arm); Chans(s') && Pools(s')
  {
    assert AtConn(c) && AtChan(s.conns[c].thr.value) && AtPool(s.conns[c].pc.pooled);
  }

  lemma ConnPoolArmReqs(s: State, c: Id, arm: bool)
    requires Conns(s) && Reqs(s) && Frames(s) && Idles(s) && Below(s)
    requires CanConnPoolArm(s, c)
    ensures var s' := DoConnPoolArm(s, c, arm); Reqs(s') && Frames(s') && Idles(s') && Below(s')
  {
    assert AtConn(c) && AtChan(s.conns[c].thr.value) && AtPool(s.conns[c].pc.pooled);
  }

  lemma ConnDetachConns(s: State, c: Id)
    requires Conns(s) && Books(s)
    requires CanConnDetach(s, c)
    ensures var s' := DoConnDetach(s, c); Conns(s') && Books(s')
  {
    assert AtConn(c) && AtChan(s.conns[c].thr.value);
  }

  lemma ConnDetachChans(s: State, c: Id)
    requires Conns(s) && Chans(s) && Pools(s)
    requires CanConnDetach(s, c)
    ensures var s' := DoConnDetach(s, c); Chans(s') && Pools(s')
  {
    assert AtConn(c) && AtChan(s.conns[c].thr.value);
  }

  lemma ConnDetachReqs(s: State, c: Id)
    requires Reqs(s) && Frames(s) && Idles(s) && Below(s)
    requires CanConnDetach(s, c)
    ensures var s' := DoConnDetach(s, c); Reqs(s') && Frames(s') && Idles(s') && Below(s')
  {
    assert AtConn(c) && AtChan(s.conns[c].thr.value);
  }

  lemma ConnSwapConns(s: State, c: Id)
    requires Conns(s) && Below(s)
    requires CanConnSwap(s, c)
    ensures var s' := DoConnSwap(s, c); Conns(s')
  {
    assert AtConn(c) && AtChan(s.conns[c].thr.value);
  }

  lemma ConnSwapBooks(s: State, c: Id)
    requires Conns(s) && Books(s)
    requires CanConnSwap(s, c)
    ensures var s' := DoConnSwap(s, c); Books(s')
  {
    assert AtConn(c) && AtChan(s.conns[c].thr.value);
  }

  lemma ConnSwapChans(s: State, c: Id)
    requires Conns(s) && Chans(s) && Pools(s) && Below(s)
    requires CanConnSwap(s, c)
    ensures var s' := DoConnSwap(s, c); Chans(s') && Pools(s')
  {
    assert AtConn(c) && AtChan(s.conns[c].thr.value);
  }

  lemma ConnSwapReqs(s: State, c: Id)
    requires Conns(s) && Reqs(s) && Frames(s) && Idles(s) && Below(s)
    requires CanConnSwap(s, c)
    ensures var s' := DoConnSwap(s, c); Reqs(s') && Frames(s') && Idles(s') && Below(s')
  {
    assert AtConn(c) && AtChan(s.conns[c].thr.value);
  }

  lemma ConnReopenConns(s: State, c: Id)
    requires Conns(s)
    requires CanConnReopen(s, c) && !s.conns[c].pc.closing
    ensures var s' := DoConnReopen(s, c); Conns(s')
  {
    assert AtConn(c) && AtChan(s.conns[c].chan.value) && AtChan(s.conns[c].thr.value);
  }

  lemma ConnReopenBooks(s: State, c: Id)
    requires Books(s)
    requires CanConnReopen(s, c) && !s.conns[c].pc.closing
    ensures var s' := DoConnReopen(s, c); Books(s')
  {
    assert AtConn(c) && AtChan(s.conns[c].chan.value) && AtChan(s.conns[c].thr.value);
  }

  lemma ConnReopenChans(s: State, c: Id)
    requires Conns(s) && Chans(s) && Pools(s)
    requires CanConnReopen(s, c) && !s.conns[c].pc.closing
    ensures var s' := DoConnReopen(s, c); Chans(s') && Pools(s')
  {
    assert AtConn(c) && AtChan(s.conns[c].chan.value) && AtChan(s.conns[c].thr.value);
  }

  lemma ConnReopenReqs(s: State, c: Id)
    requires Conns(s) && Reqs(s) && Frames(s) && Idles(s) && Below(s)
    requires CanConnReopen(s, c) && !s.conns[c].pc.closing
    ensures var s' := DoConnReopen(s, c); Reqs(s') && Frames(s') && Idles(s') && Below(s')
  {
    assert AtConn(c) && AtChan(s.conns[c].chan.value) && AtChan(s.conns[c].thr.value);
  }

  lemma ConnReopenFailConns(s: State, c: Id)
    requires Conns(s) && Books(s)
    requires CanConnReopen(s, c)
    ensures var s' := DoConnReopenFail(s, c); Conns(s') && Books(s')
  {
    assert AtConn(c) && AtChan(s.conns[c].chan.value) && AtChan(s.conns[c].thr.value);
  }

  lemma ConnReopenFailChans(s: State, c: Id)
    requires Chans(s) && Pools(s)
    requires CanConnReopen(s, c)
    ensures var s' := DoConnReopenFail(s, c); Chans(s') && Pools(s')
  {
    assert AtConn(c) && AtChan(s.conns[c].chan.value) && AtChan(s.conns[c].thr.value);
  }

  lemma ConnReopenFailReqs(s: State, c: Id)
    requires Reqs(s) && Frames(s) && Idles(s) && Below(s)
    requires CanConnReopen(s, c)
    ensures var s' := DoConnReopenFail(s, c); Reqs(s') && Frames(s') && Idles(s') && Below(s')
  {
    assert AtConn(c) && AtChan(s.conns[c].chan.value) && AtChan(s.conns[c].thr.value);
  }

  lemma ConnTailKeeps(s: State, h: Id)
    requires Objects(s)
    requires h in s.chans && s.chans[h].busy.ByTail?
    ensures Objects(SetBusy(s, h, Leaving))
  {
    assert AtChan(h);
  }


  // ----- posted tasks and callback frames --------------------------------------------------------

  lemma TaskConnConns(s: State, c: Id, t: Id)
    requires Conns(s)
    requires CanTaskConn(s, c, t)
    ensures var s' := DoTaskConn(s, c, t); Conns(s')
  {
    assert AtConn(c);
  }

  lemma TaskConnBooks(s: State, c: Id, t: Id)
    requires Books(s)
    requires CanTaskConn(s, c, t)
    ensures var s' := DoTaskConn(s, c, t); Books(s')
  {
    assert AtConn(c);
  }

  lemma TaskConnChans(s: State, c: Id, t: Id)
    requires Conns(s) && Chans(s)
    requires CanTaskConn(s, c, t)
    ensures var s' := DoTaskConn(s, c, t); Chans(s')
  {
    assert AtConn(c);
  }

  lemma TaskConnPools(s: State, c: Id, t: Id)
    requires Pools(s)
    requires CanTaskConn(s, c, t)
    ensures var s' := DoTaskConn(s, c, t); Pools(s')
  {
    assert AtConn(c);
  }

  lemma TaskConnReqs(s: State, c: Id, t: Id)
    requires Books(s) && Reqs(s) && Frames(s) && Idles(s) && Below(s)
    requires CanTaskConn(s, c, t)
    ensures var s' := DoTaskConn(s, c, t); Reqs(s') && Frames(s') && Idles(s') && Below(s')
  {
    assert AtConn(c);
  }

  lemma TaskPooledConns(s: State, p: Id, t: Id)
    requires Conns(s) && Books(s)
    requires CanTaskPooled(s, p, t)
    ensures var s' := DoTaskPooled(s, p, t); Conns(s') && Books(s')
  {
    assert AtChan(s.pools[p].chan) && AtPool(p);
  }

  lemma TaskPooledChans(s: State, p: Id, t: Id)
    requires Chans(s) && Pools(s)
    requires CanTaskPooled(s, p, t)
    ensures var s' := DoTaskPooled(s, p, t); Chans(s') && Pools(s')
  {
    assert AtChan(s.pools[p].chan) && AtPool(p);
  }

  lemma TaskPooledReqs(s: State, p: Id, t: Id)
    requires Reqs(s)
    requires CanTaskPooled(s, p, t)
    ensures Reqs(DoTaskPooled(s, p, t))
  {
    assert AtPool(p);
  }

  lemma TaskPooledRest(s: State, p: Id, t: Id)
    requires Frames(s) && Idles(s) && Below(s)
    requires CanTaskPooled(s, p, t)
    ensures var s' := DoTaskPooled(s, p, t); Frames(s') && Idles(s') && Below(s')
  {
    assert AtPool(p);
  }

  lemma TaskWatcherConns(s: State, p: Id)
    requires Conns(s) && Books(s)
    requires CanTaskWatcher(s, p)
    ensures var s' := DoTaskWatcher(s, p); Conns(s') && Books(s')
  {
    assert AtPool(p);
  }

  lemma TaskWatcherRest(s: State, p: Id)
    requires Chans(s) && Pools(s) && Reqs(s) && Frames(s) && Idles(s) && Below(s)
    requires CanTaskWatcher(s, p)
    ensures var s' := DoTaskWatcher(s, p);
            Chans(s') && Pools(s') && Reqs(s') && Frames(s') && Idles(s') && Below(s')
  {
    assert AtPool(p);
  }

  // ----- all steps ---------------------------------------------------------------------------

  lemma ReqObjects(s: State, a: ReqStep)
    requires Inv(s) && CanReq(s, a)
    ensures Objects(DoReq(s, a))
  {
    match a
    case ReqBegin(cfg, from) => ReqBeginKeeps(s, PoolKey(cfg), from);
    case ReqTake(r) => ReqTakeConns(s, r); ReqTakeChans(s, r); ReqTakeReqs(s, r);
    case ReqTakeNone(r) => ReqTakeNoneConns(s, r); ReqTakeNoneRest(s, r);
    case ReqRefuse(r) => ReqRefuseKeeps(s, r);
    case ReqGiveBack(r) => ReqGiveBackConns(s, r); ReqGiveBackChans(s, r); ReqGiveBackReqs(s, r);
    case ReqInsert(r) =>
      ReqInsertConns(s, r);
      ReqInsertBooks(s, r);
      ReqInsertChans(s, r);
      ReqInsertReqs(s, r);
      ReqInsertFrames(s, r);
      ReqInsertIdles(s, r);
    case ReqInsertOn(r) =>
      ReqInsertOnConns(s, r);
      ReqInsertOnChans(s, r);
      ReqInsertOnReqs(s, r);
      ReqInsertOnRest(s, r);
    case ReqOpen(r) =>
      ReqOpenConns(s, r);
      ReqOpenBooks(s, r);
      ReqOpenChans(s, r);
      ReqOpenReqs(s, r);
    case ReqOpenFail(r, t) =>
      ReqOpenFailConns(s, r, t);
      ReqOpenFailBooks(s, r, t);
      ReqOpenFailChans(s, r, t);
      ReqOpenFailReqs(s, r, t);
      ReqOpenFailRest(s, r, t);
    case ReqAdopt(r) =>
      ReqAdoptConns(s, r);
      ReqAdoptBooks(s, r);
      ReqAdoptChans(s, r);
      ReqAdoptPools(s, r);
      ReqAdoptReqs(s, r);
      ReqAdoptRest(s, r);
    case ReqAdoptFail(r, t) =>
      ReqAdoptFailConns(s, r, t);
      ReqAdoptFailChans(s, r, t);
      ReqAdoptFailReqs(s, r, t);
      ReqAdoptFailRest(s, r, t);
    case ReqRelease(r) => ReqReleaseConns(s, r); ReqReleaseChans(s, r); ReqReleaseReqs(s, r);
    case ReqRetry(r) => ReqRetryConns(s, r); ReqRetryChans(s, r); ReqRetryReqs(s, r);
    case ReqCheck(r) => ReqCheckConns(s, r); ReqCheckRest(s, r);
  }

  lemma CloseObjects(s: State, a: CloseStep)
    requires Inv(s) && CanClose(s, a)
    ensures Objects(DoClose(s, a))
  {
    match a
    case CloseBegin => SameObjects(s, DoClose(s, a));
    case CloseFinish(k, t) => CloseFinishKeeps(s, k, t);
    case DtorBegin(t) => SameObjects(s, DoClose(s, a));
    case DtorNotify => DtorNotifyKeeps(s);
    case DtorWait => SameObjects(s, DoClose(s, a));
    case DtorDrained => SameObjects(s, DoClose(s, a));
    case DtorTimeout => DtorTimeoutConns(s); DtorTimeoutRest(s);
    case DtorCut => SameObjects(s, DoClose(s, a));
  }

  lemma ChanObjects(s: State, a: ChanStep)
    requires Inv(s) && CanChan(s, a)
    ensures Objects(DoChan(s, a))
  {
    match a
    case ConnData(c, done, failed) =>
      ConnDataConns(s, c, done, failed);
      ConnDataChans(s, c, done, failed);
      ConnDataReqs(s, c, done, failed);
    case ConnKeep(c) => ConnKeepConns(s, c); ConnKeepChans(s, c); ConnKeepRest(s, c);
    case ChanCloseConn(h) =>
      ChanCloseConnConns(s, h);
      ChanCloseConnChans(s, h);
      ChanCloseConnReqs(s, h);
    case ChanClosePool(h) =>
      ChanClosePoolConns(s, h);
      ChanClosePoolBooks(s, h);
      ChanClosePoolChans(s, h);
      ChanClosePoolPools(s, h);
      ChanClosePoolReqs(s, h);
      ChanClosePoolIdles(s, h);
    case ChanAdoptOk(h) =>
      ChanAdoptOkConns(s, h);
      ChanAdoptOkChans(s, h);
      ChanAdoptOkPools(s, h);
      ChanAdoptOkReqs(s, h);
    case ChanAdoptFail(h) =>
      ChanAdoptFailConns(s, h);
      ChanAdoptFailBooks(s, h);
      ChanAdoptFailChans(s, h);
      ChanAdoptFailReqs(s, h);
    case TimerFire(p) => TimerFireConns(s, p); TimerFireRest(s, p);
    case StrandReturn(h) => StrandReturnKeeps(s, h);
  }

  lemma ConnObjects(s: State, a: ConnStep)
    requires Inv(s) && CanConn(s, a)
    ensures Objects(DoConn(s, a))
  {
    match a
    case ConnMute(c, finish) =>
      ConnMuteConns(s, c, finish);
      ConnMuteChans(s, c, finish);
      ConnMutePools(s, c, finish);
      ConnMuteReqs(s, c, finish);
    case ConnDeliver(c, finish, t) =>
      ConnDeliverConns(s, c, finish, t);
      ConnDeliverBooks(s, c, finish, t);
      ConnDeliverChans(s, c, finish, t);
      ConnDeliverPools(s, c, finish, t);
      ConnDeliverReqs(s, c, finish, t);
    case ConnAfterCall(c) =>
      ConnAfterCallConns(s, c);
      ConnAfterCallBooks(s, c);
      ConnAfterCallChans(s, c);
      ConnAfterCallReqs(s, c);
    case ConnPool(c) =>
      ConnPoolConns(s, c);
      ConnPoolBooks(s, c);
      ConnPoolChans(s, c);
      ConnPoolPools(s, c);
      ConnPoolReqs(s, c);
      ConnPoolFrames(s, c);
      ConnPoolIdles(s, c);
    case ConnPoolArm(c, arm) =>
      ConnPoolArmConns(s, c, arm);
      ConnPoolArmBooks(s, c, arm);
      ConnPoolArmChans(s, c, arm);
      ConnPoolArmReqs(s, c, arm);
    case ConnDetach(c) => ConnDetachConns(s, c); ConnDetachChans(s, c); ConnDetachReqs(s, c);
    case ConnSwap(c) =>
      ConnSwapConns(s, c);
      ConnSwapBooks(s, c);
      ConnSwapChans(s, c);
      ConnSwapReqs(s, c);
    case ConnReopen(c) =>
      ConnReopenConns(s, c);
      ConnReopenBooks(s, c);
      ConnReopenChans(s, c);
      ConnReopenReqs(s, c);
    case ConnReopenFail(c) =>
      ConnReopenFailConns(s, c);
      ConnReopenFailChans(s, c);
      ConnReopenFailReqs(s, c);
    case ConnTail(h) => ConnTailKeeps(s, h);
  }

  lemma PostObjects(s: State, a: PostStep)
    requires Inv(s) && CanPost(s, a)
    ensures Objects(DoPost(s, a))
  {
    match a
    case TaskConn(c, t) =>
      TaskConnConns(s, c, t);
      TaskConnBooks(s, c, t);
      TaskConnChans(s, c, t);
      TaskConnPools(s, c, t);
      TaskConnReqs(s, c, t);
    case TaskPooled(p, t) =>
      TaskPooledConns(s, p, t);
      TaskPooledChans(s, p, t);
      TaskPooledReqs(s, p, t);
      TaskPooledRest(s, p, t);
    case TaskWatcher(p) => TaskWatcherConns(s, p); TaskWatcherRest(s, p);
    case CallReturn(f) => SameObjects(s, DoPost(s, a));
    case GuardDrop(f) => SameObjects(s, DoPost(s, a));
  }
}
