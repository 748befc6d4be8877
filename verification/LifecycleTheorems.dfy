/** Runs of the HTTP connector: every step keeps the invariant, and no step of a run uses or deletes
    an object that was deleted before. */
module LifecycleTheorems {
  import opened ConnectorState
  import opened PoolKeys
  import opened Lifecycle
  import opened LifecycleInvariant
  import opened LifecycleObjects
  import opened LifecycleGlobals

  // ----- runs --------------------------------------------------------------------------------

  ghost predicate CanRun(s: State, run: seq<Step>)
    decreases run
  {
    run == [] || (Enabled(s, run[0]) && CanRun(Next(s, run[0]), run[1..]))
  }

  ghost function Run(s: State, run: seq<Step>): State
    requires CanRun(s, run)
    decreases run
  {
    if run == [] then s else Run(Next(s, run[0]), run[1..])
  }

  lemma StepInv(s: State, a: Step)
    requires Inv(s) && Enabled(s, a)
    ensures Inv(Next(s, a))
  {
    match a
    case OfReq(b) => ReqObjects(s, b); ReqGlobals(s, b);
    case OfClose(b) => CloseObjects(s, b); CloseGlobals(s, b);
    case OfChan(b) => ChanObjects(s, b); ChanGlobals(s, b);
    case OfConn(b) => ConnObjects(s, b); ConnGlobals(s, b);
    case OfPost(b) => PostObjects(s, b); PostGlobals(s, b);
  }

  lemma {:induction false} RunInv(s: State, run: seq<Step>)
    requires Inv(s) && CanRun(s, run)
    ensures Inv(Run(s, run))
    decreases run
  {
    if run != [] {
      StepInv(s, run[0]);
      RunInv(Next(s, run[0]), run[1..]);
    }
  }

  /** `s` is reached by some interleaving after `Create`. */
  ghost predicate Reachable(s: State) {
    exists strict, handler, maxIdle, run ::
      CanRun(Initial(strict, handler, maxIdle), run) && Run(Initial(strict, handler, maxIdle), run) == s
  }

  lemma ReachableInv(s: State)
    requires Reachable(s)
    ensures Inv(s)
  {
    var strict, handler, maxIdle, run :|
      CanRun(Initial(strict, handler, maxIdle), run) && Run(Initial(strict, handler, maxIdle), run) == s;
    InitialInv(strict, handler, maxIdle);
    RunInv(Initial(strict, handler, maxIdle), run);
  }

  // ----- objects are deleted once and not used afterwards ------------------------------------

  datatype Obj = TheConn(c: Id) | ThePooled(p: Id) | TheChan(h: Id)

  predicate Exists(s: State, o: Obj) {
    match o
    case TheConn(c) => c in s.conns
    case ThePooled(p) => p in s.pools
    case TheChan(h) => h in s.chans
  }

  predicate Alive(s: State, o: Obj) {
    match o
    case TheConn(c) => c in s.conns && !s.conns[c].pc.Finished?
    case ThePooled(p) => p in s.pools && PooledAlive(s.pools[p].pc)
    case TheChan(h) => h in s.chans && s.chans[h].alive
  }

  /** A connection and the channel it points to, if any. */
  function ConnTouch(s: State, c: Id): set<Obj> {
    {TheConn(c)} + (if c in s.conns && s.conns[c].chan.Some? then {TheChan(s.conns[c].chan.value)} else {})
  }

  /** A watcher and its channel. */
  function PooledTouch(s: State, p: Id): set<Obj> {
    {ThePooled(p)} + (if p in s.pools then {TheChan(s.pools[p].chan)} else {})
  }

  /** `Close` cancels every listed connection and closes every parked channel. */
  ghost predicate CancelTouches(s: State, o: Obj) {
    || (exists c :: c in s.sh.conns && o in ConnTouch(s, c))
    || (exists key, p :: key in s.sh.idle && p in s.sh.idle[key] && o in PooledTouch(s, p))
  }

  /** The objects the code of a step dereferences or deletes. */
  ghost predicate Touches(s: State, a: Step, o: Obj)
    requires Enabled(s, a)
  {
    match a
    case OfReq(b) => ReqTouches(s, b, o)
    case OfClose(b) => CloseTouches(s, b, o)
    case OfChan(b) => ChanTouches(s, b, o)
    case OfConn(b) => ConnTouches(s, b, o)
    case OfPost(b) => PostTouches(s, b, o)
  }

  ghost predicate ReqTouches(s: State, a: ReqStep, o: Obj)
    requires CanReq(s, a)
  {
    match a
    case ReqTake(r) => o == ThePooled(TakeFromPool(s.sh, s.reqs[r].key).1.value)
    case ReqGiveBack(r) => o in PooledTouch(s, s.reqs[r].pc.b.value)
    case ReqInsertOn(r) => o in PooledTouch(s, s.reqs[r].pc.b.value)
    case ReqOpen(r) => o in ConnTouch(s, s.reqs[r].pc.c)
    case ReqOpenFail(r, t) => o in ConnTouch(s, s.reqs[r].pc.c)
    case ReqAdopt(r) =>
      o in ConnTouch(s, s.reqs[r].pc.c) + PooledTouch(s, s.reqs[r].pc.b.value)
    case ReqAdoptFail(r, t) =>
      o in ConnTouch(s, s.reqs[r].pc.c) + PooledTouch(s, s.reqs[r].pc.b.value)
    case ReqRelease(r) => o == ThePooled(s.reqs[r].pc.p)
    case ReqRetry(r) => o in PooledTouch(s, s.reqs[r].pc.p)
    case ReqCheck(r) =>
      s.sh.closing && s.reqs[r].pc.c in s.sh.conns && o in ConnTouch(s, s.reqs[r].pc.c)
    case _ => false
  }

  ghost predicate CloseTouches(s: State, a: CloseStep, o: Obj)
    requires CanClose(s, a)
  {
    match a
    case CloseBegin => CancelTouches(s, o)
    case DtorBegin(t) => CancelTouches(s, o)
    case DtorTimeout => o.TheConn? && o.c in s.sh.conns
    case _ => false
  }

  ghost predicate ChanTouches(s: State, a: ChanStep, o: Obj)
    requires CanChan(s, a)
  {
    match a
    case ConnData(c, done, failed) => o in ConnTouch(s, c)
    case ConnKeep(c) => o in ConnTouch(s, c)
    case ChanCloseConn(h) => o in ConnTouch(s, s.chans[h].st.conn) + {TheChan(h)}
    case ChanClosePool(h) => o in PooledTouch(s, s.chans[h].st.pooled) + {TheChan(h)}
    case ChanAdoptOk(h) =>
      o in ConnTouch(s, s.chans[h].st.conn) + PooledTouch(s, s.chans[h].st.pooled) + {TheChan(h)}
    case ChanAdoptFail(h) => o in ConnTouch(s, s.chans[h].st.conn) + {TheChan(h)}
    case TimerFire(p) => o in PooledTouch(s, p)
    case StrandReturn(h) => o == TheChan(h)
  }

  ghost predicate ConnTouches(s: State, a: ConnStep, o: Obj)
    requires CanConn(s, a)
  {
    match a
    case ConnPoolArm(c, arm) => o in ConnTouch(s, c) + PooledTouch(s, s.conns[c].pc.pooled)
    case ConnTail(h) =>
      || o == TheChan(h)
      || (s.sh.closing && s.chans[h].busy.conn in s.sh.conns && o in ConnTouch(s, s.chans[h].busy.conn))
    case ConnMute(c, _) => o in ConnTouch(s, c)
    case ConnDeliver(c, _, _) => o in ConnTouch(s, c)
    case ConnAfterCall(c) => o in ConnTouch(s, c)
    case ConnPool(c) => o in ConnTouch(s, c)
    case ConnDetach(c) => o == TheConn(c)
    case ConnSwap(c) => o == TheConn(c)
    case ConnReopen(c) => o in ConnTouch(s, c)
    case ConnReopenFail(c) => o in ConnTouch(s, c)
  }

  ghost predicate PostTouches(s: State, a: PostStep, o: Obj)
    requires CanPost(s, a)
  {
    match a
    case TaskConn(c, t) => o in ConnTouch(s, c)
    case TaskPooled(p, t) => o in PooledTouch(s, p)
    case TaskWatcher(p) => o == ThePooled(p)
    case _ => false
  }

  lemma ConnTouchAlive(s: State, c: Id)
    requires Inv(s) && c in s.conns && !s.conns[c].pc.Finished?
    ensures forall o | o in ConnTouch(s, c) :: Alive(s, o)
  {
    if s.conns[c].pc.Starting? {
      StartingAlive(s, c);
    } else {
      StartedAlive(s, c);
    }
  }

  lemma StartedAlive(s: State, c: Id)
    requires Conns(s) && Chans(s) && c in s.conns
    requires !s.conns[c].pc.Finished? && !s.conns[c].pc.Starting?
    ensures forall o | o in ConnTouch(s, c) :: Alive(s, o)
  {
    assert AtConn(c);
    if s.conns[c].chan.Some? {
      assert AtChan(s.conns[c].chan.value);
    }
  }

  /** A connection that is starting points to its own fresh channel or to a borrowed one. */
  lemma StartingAlive(s: State, c: Id)
    requires Objects(s) && c in s.conns && s.conns[c].pc.Starting?
    ensures forall o | o in ConnTouch(s, c) :: Alive(s, o)
  {
    var r := s.conns[c].req;
    assert AtConn(c) && AtReq(r);
    if s.reqs[r].pc.b.Some? {
      assert AtPool(s.reqs[r].pc.b.value);
    }
    assert AtChan(s.conns[c].chan.value);
  }

  lemma PooledTouchAlive(s: State, p: Id)
    requires Inv(s) && p in s.pools && PooledAlive(s.pools[p].pc)
    requires s.pools[p].pc.Waiting? || s.pools[p].pc.how == TerminalClosed
    ensures forall o | o in PooledTouch(s, p) :: Alive(s, o)
  {
    assert AtPool(p) && AtChan(s.pools[p].chan);
  }

  /** A channel lent to a `Request` that has not adopted it is still its watcher's. */
  lemma BorrowedAlive(s: State, r: Id)
    requires Inv(s) && r in s.reqs && Borrowed(s.reqs[r].pc).Some?
    ensures var p := Borrowed(s.reqs[r].pc).value;
            && Alive(s, ThePooled(p))
            && (!s.reqs[r].pc.Release? ==> forall o | o in PooledTouch(s, p) :: Alive(s, o))
  {
    var p := Borrowed(s.reqs[r].pc).value;
    assert AtReq(r) && AtPool(p);
    if !s.reqs[r].pc.Release? {
      PooledTouchAlive(s, p);
    }
  }

  lemma IdleAlive(s: State, key: Key, p: Id)
    requires Inv(s) && key in s.sh.idle && p in s.sh.idle[key]
    ensures p in s.pools && s.pools[p].pc.Waiting? && !s.pools[p].held && !s.pools[p].adopted
    ensures s.pools[p].chan in s.chans && s.chans[s.pools[p].chan].st == Parked(p)
    ensures forall o | o in PooledTouch(s, p) :: Alive(s, o)
  {
    assert IdleOk(s, key) && AtPool(p);
    PooledTouchAlive(s, p);
  }

  lemma CancelAlive(s: State, o: Obj)
    requires Inv(s) && CancelTouches(s, o)
    ensures Alive(s, o)
  {
    if c :| c in s.sh.conns && o in ConnTouch(s, c) {
      assert AtConn(c);
      ConnTouchAlive(s, c);
    } else {
      var key, p :| key in s.sh.idle && p in s.sh.idle[key] && o in PooledTouch(s, p);
      IdleAlive(s, key, p);
    }
  }

  lemma ReqTouchesAlive(s: State, a: ReqStep, o: Obj)
    requires Inv(s) && CanReq(s, a) && ReqTouches(s, a, o)
    ensures Alive(s, o)
  {
    match a
    case ReqTake(r) => IdleAlive(s, s.reqs[r].key, TakeFromPool(s.sh, s.reqs[r].key).1.value);
    case ReqGiveBack(r) => BorrowedAlive(s, r);
    case ReqInsertOn(r) => BorrowedAlive(s, r);
    case ReqOpen(r) => assert AtReq(r); ConnTouchAlive(s, s.reqs[r].pc.c);
    case ReqOpenFail(r, t) => assert AtReq(r); ConnTouchAlive(s, s.reqs[r].pc.c);
    case ReqAdopt(r) => assert AtReq(r); ConnTouchAlive(s, s.reqs[r].pc.c); BorrowedAlive(s, r);
    case ReqAdoptFail(r, t) => assert AtReq(r); ConnTouchAlive(s, s.reqs[r].pc.c); BorrowedAlive(s, r);
    case ReqRelease(r) => BorrowedAlive(s, r);
    case ReqRetry(r) => BorrowedAlive(s, r);
    case ReqCheck(r) => assert AtConn(s.reqs[r].pc.c); ConnTouchAlive(s, s.reqs[r].pc.c);
    case _ =>
  }

  lemma CloseTouchesAlive(s: State, a: CloseStep, o: Obj)
    requires Inv(s) && CanClose(s, a) && CloseTouches(s, a, o)
    ensures Alive(s, o)
  {
    match a
    case CloseBegin => CancelAlive(s, o);
    case DtorBegin(t) => CancelAlive(s, o);
    case DtorTimeout => assert AtConn(o.c);
    case _ =>
  }

  lemma ChanTouchesAlive(s: State, a: ChanStep, o: Obj)
    requires Inv(s) && CanChan(s, a) && ChanTouches(s, a, o)
    ensures Alive(s, o)
  {
    match a
    case ConnData(c, done, failed) => ConnTouchAlive(s, c);
    case ConnKeep(c) => ConnTouchAlive(s, c);
    case ChanCloseConn(h) => assert AtChan(h); ConnTouchAlive(s, s.chans[h].st.conn);
    case ChanClosePool(h) => assert AtChan(h); PooledTouchAlive(s, s.chans[h].st.pooled);
    case ChanAdoptOk(h) =>
      assert AtChan(h);
      ConnTouchAlive(s, s.chans[h].st.conn);
      PooledTouchAlive(s, s.chans[h].st.pooled);
    case ChanAdoptFail(h) => assert AtChan(h); ConnTouchAlive(s, s.chans[h].st.conn);
    case TimerFire(p) => assert AtPool(p); PooledTouchAlive(s, p);
    case StrandReturn(h) => assert AtChan(h);
  }

  lemma ConnTouchesAlive(s: State, a: ConnStep, o: Obj)
    requires Inv(s) && CanConn(s, a) && ConnTouches(s, a, o)
    ensures Alive(s, o)
  {
    match a
    case ConnPoolArm(c, arm) =>
      assert AtConn(c);
      ConnTouchAlive(s, c);
      PooledTouchAlive(s, s.conns[c].pc.pooled);
    case ConnTail(h) =>
      assert AtChan(h);
      if o != TheChan(h) {
        assert AtConn(s.chans[h].busy.conn);
        ConnTouchAlive(s, s.chans[h].busy.conn);
      }
    case ConnMute(c, _) => ConnTouchAlive(s, c);
    case ConnDeliver(c, _, _) => ConnTouchAlive(s, c);
    case ConnAfterCall(c) => ConnTouchAlive(s, c);
    case ConnPool(c) => ConnTouchAlive(s, c);
    case ConnDetach(c) =>
    case ConnSwap(c) =>
    case ConnReopen(c) => ConnTouchAlive(s, c);
    case ConnReopenFail(c) => ConnTouchAlive(s, c);
  }

  lemma TouchesAlive(s: State, a: Step, o: Obj)
    requires Inv(s) && Enabled(s, a) && Touches(s, a, o)
    ensures Alive(s, o)
  {
    match a
    case OfReq(b) => ReqTouchesAlive(s, b, o);
    case OfClose(b) => CloseTouchesAlive(s, b, o);
    case OfChan(b) => ChanTouchesAlive(s, b, o);
    case OfConn(b) => ConnTouchesAlive(s, b, o);
    case OfPost(b) =>
      match b
      case TaskConn(c, t) => ConnTouchAlive(s, c);
      case TaskPooled(p, t) => PooledTouchAlive(s, p);
      case TaskWatcher(p) =>
      case _ =>
  }

  /** No step of any run uses or deletes an object that was deleted before. */
  lemma NoUseAfterFree(s: State, a: Step, o: Obj)
    requires Reachable(s) && Enabled(s, a) && Touches(s, a, o)
    ensures Alive(s, o)
  {
    ReachableInv(s);
    TouchesAlive(s, a, o);
  }
}
