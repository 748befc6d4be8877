/** What the caller sees: how often the handlers are called, in which order, and what is still
    called after the destructor. */
module LifecycleCallbacks {
  import opened ConnectorState
  import opened Lifecycle
  import opened LifecycleInvariant
  import opened LifecycleGlobals
  import opened LifecycleTheorems

  // ----- what a step may do to the flags -----------------------------------------------------

  /** A section that arms `OnClosed` leaves a closing, drained connector with a handler. */
  predicate Arms(s: State, s': State) {
    && s'.closedCalls == s.closedCalls + 1 && !s.sh.closedNotified && s'.sh.closedNotified
    && s'.sh.closing && Drained(s'.sh) && !s'.sh.abandoned && s'.sh.handler
    && s'.sh.inFlight == s.sh.inFlight + 1
  }

  predicate Returns(a: Step) {
    a.OfClose? && (a.close.DtorDrained? || a.close.DtorCut?)
  }

  predicate CallsRequest(a: Step) {
    a.OfConn? && a.conn.ConnDeliver?
  }

  /** The flags move one way only, and few steps change a request. */
  predicate Effect(s: State, a: Step, s': State) {
    && (s.sh.closing ==> s'.sh.closing)
    && (s.sh.abandoned ==> s'.sh.abandoned)
    && (s'.sh.handler ==> s.sh.handler)
    && (s.sh.closedNotified ==> s'.sh.closedNotified)
    && (s'.closedCalls == s.closedCalls || Arms(s, s'))
    && (s.dtor.Returned? ==> s'.dtor == s.dtor)
    && (s'.dtor.Returned? ==> s.dtor.Returned? || (Returns(a) && s'.frames == s.frames))
    && (a.OfReq? || CallsRequest(a) || s'.reqs == s.reqs)
  }

  lemma ReqEffect(s: State, a: ReqStep)
    requires CanReq(s, a)
    ensures Effect(s, OfReq(a), DoReq(s, a))
  {
  }

  lemma CloseEffect(s: State, a: CloseStep)
    requires CanClose(s, a)
    ensures Effect(s, OfClose(a), DoClose(s, a))
  {
  }

  lemma ChanEffect(s: State, a: ChanStep)
    requires CanChan(s, a)
    ensures Effect(s, OfChan(a), DoChan(s, a))
  {
  }

  lemma ConnEffect(s: State, a: ConnStep)
    requires CanConn(s, a)
    ensures Effect(s, OfConn(a), DoConn(s, a))
  {
  }

  lemma PostEffect(s: State, a: PostStep)
    requires CanPost(s, a)
    ensures Effect(s, OfPost(a), DoPost(s, a))
  {
  }

  lemma StepEffect(s: State, a: Step)
    requires Enabled(s, a)
    ensures Effect(s, a, Next(s, a))
  {
    match a
    case OfReq(b) => ReqEffect(s, b);
    case OfClose(b) => CloseEffect(s, b);
    case OfChan(b) => ChanEffect(s, b);
    case OfConn(b) => ConnEffect(s, b);
    case OfPost(b) => PostEffect(s, b);
  }

  // ----- the request handlers ----------------------------------------------------------------

  predicate ConnEnded(s: State, c: Id) {
    c in s.conns && (s.conns[c].pc.Doomed? || s.conns[c].pc.Finished?)
  }

  /** One answer at most; none for a request that failed synchronously; exactly one for a request
      that succeeded and whose connection has ended, unless the destructor cut it off; the answer
      is a response if and only if the message was complete. */
  lemma AnsweredOnce(s: State, r: Id)
    requires Reachable(s) && r in s.reqs
    ensures var q := s.reqs[r];
            && q.calls <= 1
            && (q.pc.ReturnedError? ==> q.calls == 0)
            && (q.pc.ReturnedOk? && ConnEnded(s, q.pc.c) && !s.sh.abandoned ==> q.calls == 1)
            && (q.calls == 1 ==>
                  && q.cur.Some? && q.cur.value in s.conns
                  && (q.response <==> s.conns[q.cur.value].done))
  {
    ReachableInv(s);
    assert AtReq(r);
    if s.reqs[r].cur.Some? {
      assert AtConn(s.reqs[r].cur.value);
    }
  }

  /** A failed request stays failed and silent, whatever happens later. */
  lemma {:induction false} FailedStaysSilent(s: State, run: seq<Step>, r: Id)
    requires Inv(s) && CanRun(s, run) && r in s.reqs && s.reqs[r].pc.ReturnedError?
    ensures var s' := Run(s, run);
            r in s'.reqs && s'.reqs[r].pc.ReturnedError? && s'.reqs[r].calls == 0
    decreases run
  {
    if run == [] {
      assert AtReq(r);
    } else {
      StepInv(s, run[0]);
      FailedStep(s, run[0], r);
      FailedStaysSilent(Next(s, run[0]), run[1..], r);
    }
  }

  lemma FailedStep(s: State, a: Step, r: Id)
    requires Enabled(s, a) && r in s.reqs && s.reqs[r].pc.ReturnedError?
    requires r < s.next
    ensures r in Next(s, a).reqs && Next(s, a).reqs[r].pc.ReturnedError?
  {
    StepEffect(s, a);
    if a.OfReq? {
      FailedReqStep(s, a.req, r);
    } else if CallsRequest(a) {
      assert Next(s, a) == DoConnDeliver(s, a.conn.c, a.conn.finish, a.conn.t);
    }
  }

  lemma FailedReqStep(s: State, a: ReqStep, r: Id)
    requires CanReq(s, a) && r in s.reqs && s.reqs[r].pc.ReturnedError?
    requires r < s.next
    ensures r in DoReq(s, a).reqs && DoReq(s, a).reqs[r].pc.ReturnedError?
  {
  }

  // ----- after the destructor gave up --------------------------------------------------------

  lemma AbandonedStep(s: State, a: Step, r: Id)
    requires Inv(s) && Enabled(s, a) && s.sh.abandoned
    ensures Next(s, a).sh.abandoned && Next(s, a).closedCalls == s.closedCalls
    ensures Answers(Next(s, a), r) == Answers(s, r)
  {
    StepEffect(s, a);
    if CallsRequest(a) {
      CutHandler(s, a.conn.c);
    } else {
      OnlyDeliverAnswers(s, a, r);
    }
  }

  /** Every connection that has yet to deliver lost its handler when the destructor gave up. */
  lemma CutHandler(s: State, c: Id)
    requires Books(s) && s.sh.abandoned && c in s.conns && Listed(s.conns[c].pc)
    ensures !s.conns[c].handler
  {
    assert AtConn(c);
  }

  /** From the moment the destructor gives up, no request is answered and `OnClosed` is not called
      any more, whatever still runs. */
  lemma {:induction false} AbandonedIsSilent(s: State, run: seq<Step>, r: Id)
    requires Inv(s) && CanRun(s, run) && s.sh.abandoned
    ensures var s' := Run(s, run);
            Answers(s', r) == Answers(s, r) && s'.closedCalls == s.closedCalls
    decreases run
  {
    if run != [] {
      AbandonedStep(s, run[0], r);
      StepInv(s, run[0]);
      AbandonedIsSilent(Next(s, run[0]), run[1..], r);
    }
  }

  // ----- `OnClosed` --------------------------------------------------------------------------

  ghost predicate OnlyClosedFrames(s: State) {
    forall f | f in s.frames :: s.frames[f].kind.ClosedCall?
  }

  lemma NotifiedQuiet(s: State)
    requires Inv(s) && s.sh.closedNotified
    ensures OnlyClosedFrames(s)
    ensures forall c | c in s.conns :: s.conns[c].pc.Finished?
    ensures s.sh.closing
  {
    forall f | f in s.frames ensures s.frames[f].kind.ClosedCall? {
      assert AtFrame(f);
      if s.frames[f].kind.HttpCall? {
        assert AtConn(s.frames[f].kind.conn);
      }
    }
    forall c | c in s.conns ensures s.conns[c].pc.Finished? {
      assert AtConn(c);
    }
  }

  function Answers(s: State, r: Id): nat {
    if r in s.reqs then s.reqs[r].calls else 0
  }

  lemma OnlyDeliverAnswers(s: State, a: Step, r: Id)
    requires Enabled(s, a) && Below(s) && !CallsRequest(a)
    ensures Answers(Next(s, a), r) == Answers(s, r)
  {
    StepEffect(s, a);
    if a.OfReq? {
      OnlyDeliverAnswersReq(s, a.req, r);
    }
  }

  lemma OnlyDeliverAnswersReq(s: State, a: ReqStep, r: Id)
    requires CanReq(s, a) && Below(s)
    ensures Answers(DoReq(s, a), r) == Answers(s, r)
  {
  }

  /** `OnClosed` is the last callback: from the section that arms it, no request handler is
      running, none is ever called again, and `OnClosed` itself is not called again. */
  lemma {:induction false} OnClosedIsLast(s: State, run: seq<Step>, r: Id)
    requires Inv(s) && CanRun(s, run) && s.sh.closedNotified
    ensures var s' := Run(s, run);
            && OnlyClosedFrames(s') && Answers(s', r) == Answers(s, r)
            && s'.closedCalls == s.closedCalls
    decreases run
  {
    NotifiedQuiet(s);
    if run != [] {
      OnlyDeliverAnswers(s, run[0], r);
      StepEffect(s, run[0]);
      StepInv(s, run[0]);
      OnClosedIsLast(Next(s, run[0]), run[1..], r);
    }
  }

  /** `OnClosed` is armed at most once, by a lock section that leaves a closing connector with
      nothing in its four collections, and while no request handler is running. */
  lemma OnClosedOnceAndDrained(s: State, a: Step)
    requires Reachable(s) && Enabled(s, a)
    ensures Next(s, a).closedCalls <= 1
    ensures Next(s, a).closedCalls != s.closedCalls ==>
              && s.closedCalls == 0 && Next(s, a).sh.closing && Drained(Next(s, a).sh)
              && OnlyClosedFrames(Next(s, a))
  {
    ReachableInv(s);
    StepInv(s, a);
    StepEffect(s, a);
    if Next(s, a).closedCalls != s.closedCalls {
      NotifiedQuiet(Next(s, a));
    }
  }

  // ----- `OnClosed` is not lost --------------------------------------------------------------

  predicate LiveSt(st: ChanSt) {
    st.Unopened? || st.Attached? || st.Parked? || st.AdoptPosted?
  }

  /** Nothing is left that could move by itself: no call under way, no channel that still serves
      the connector, no posted task. */
  ghost predicate Quiet(s: State) {
    && (forall r | r in s.reqs :: HasReturned(s.reqs[r].pc))
    && s.closers == {} && !s.dtor.CloseNotify?
    && (forall h | h in s.chans :: s.chans[h].alive ==> !LiveSt(s.chans[h].st))
    && (forall h | h in s.chans :: s.chans[h].busy == Free)
    && (forall c | c in s.conns :: !s.conns[c].pc.Doomed?)
    && (forall p | p in s.pools :: !s.pools[p].pc.Sched?)
  }

  lemma QuietConns(s: State, c: Id)
    requires Objects(s) && Quiet(s) && c in s.conns
    ensures s.conns[c].pc.Finished?
  {
    assert AtConn(c);
    if s.conns[c].chan.Some? {
      assert AtChan(s.conns[c].chan.value);
    }
  }

  lemma QuietPools(s: State, p: Id)
    requires Objects(s) && Quiet(s) && p in s.pools
    ensures s.pools[p].pc.Gone? && p !in s.counted
  {
    assert AtPool(p) && AtChan(s.pools[p].chan);
  }

  lemma QuietDrained(s: State)
    requires Inv(s) && Quiet(s)
    ensures Drained(s.sh) && !SomeWaiting(s)
  {
    forall c | c in s.conns ensures s.conns[c].pc.Finished? && AtConn(c) {
      QuietConns(s, c);
    }
    forall p | p in s.pools ensures s.pools[p].pc.Gone? && p !in s.counted && AtPool(p) {
      QuietPools(s, p);
    }
    assert s.counted == {};
    assert forall key | key in s.sh.idle :: IdleOk(s, key) && AtPool(s.sh.idle[key][0]);
    assert s.sh.idle == map[];
  }

  /** In every reachable state in which everything has come to rest, a closing connector that has
      a handler and was not abandoned has called `OnClosed`, exactly once. */
  lemma OnClosedNotLost(s: State)
    requires Reachable(s) && Quiet(s)
    requires s.sh.closing && s.sh.handler && !s.sh.abandoned
    ensures s.sh.closedNotified && s.closedCalls == 1
  {
    ReachableInv(s);
    QuietDrained(s);
  }

  /** At rest, every request that returned success has had exactly its one answer. */
  lemma NoAnswerLost(s: State, r: Id)
    requires Reachable(s) && Quiet(s) && r in s.reqs
    ensures s.reqs[r].pc.ReturnedOk? && !s.sh.abandoned ==> s.reqs[r].calls == 1
  {
    ReachableInv(s);
    assert AtReq(r);
    AnsweredOnce(s, r);
    if s.reqs[r].pc.ReturnedOk? {
      QuietConns(s, s.reqs[r].pc.c);
    }
  }

  // ----- after the destructor ----------------------------------------------------------------

  /** The step starts a callback. */
  predicate StartsCall(s: State, a: Step)
    requires Enabled(s, a)
  {
    CallsRequest(a) || Next(s, a).closedCalls != s.closedCalls
  }

  /** No thread but the destructor's is inside a callback. */
  ghost predicate Alone(s: State)
    requires s.dtor.Returned?
  {
    forall f | f in s.frames :: s.frames[f].thread == s.dtor.thr
  }

  /** When the destructor returns, drained or abandoned, no other thread is inside a callback. */
  lemma ReturnsAlone(s: State, a: Step)
    requires Reachable(s) && Enabled(s, a) && !s.dtor.Returned?
    ensures Next(s, a).dtor.Returned? ==> Alone(Next(s, a))
  {
    ReachableInv(s);
    StepEffect(s, a);
    if Returns(a) {
      OnlyOwnFrames(s);
      assert Next(s, a) == DoDtorReturn(s);
    }
  }

  /** `OnClosed` is settled: it was called, there is nobody to call, or the handlers are cut off. */
  predicate Settled(s: State) {
    s.sh.abandoned || !s.sh.handler || s.sh.closedNotified
  }

  lemma NoDelivery(s: State, a: ConnStep)
    requires Inv(s) && CanConn(s, a) && s.dtor.Returned?
    ensures !a.ConnDeliver?
  {
    if a.ConnDeliver? {
      assert AtConn(a.c);
    }
  }

  lemma SettledStays(s: State, a: Step)
    requires Inv(s) && Enabled(s, a) && s.dtor.Returned? && Settled(s)
    ensures !StartsCall(s, a)
    ensures Next(s, a).dtor.Returned? && Settled(Next(s, a))
  {
    StepEffect(s, a);
    if a.OfConn? {
      NoDelivery(s, a.conn);
    }
  }

  /** Some continuation of the run starts a callback. */
  ghost predicate MayCall(s: State) {
    exists run, a :: CanRun(s, run) && Enabled(Run(s, run), a) && StartsCall(Run(s, run), a)
  }

  /** A step of a call on the connector itself, which no longer exists after its destructor. */
  predicate IsCall(a: Step) {
    a.OfReq? || a.OfClose?
  }

  /** Some continuation starts a callback without any call on the connector: events of channels and
      posted tasks are enough. */
  ghost predicate MayCallAlone(s: State) {
    exists run, a ::
      && CanRun(s, run) && Enabled(Run(s, run), a) && StartsCall(Run(s, run), a)
      && !IsCall(a) && (forall i | 0 <= i < |run| :: !IsCall(run[i]))
  }

  lemma {:induction false} SettledNeverCalls(s: State, run: seq<Step>, a: Step)
    requires Inv(s) && s.dtor.Returned? && Settled(s)
    requires CanRun(s, run) && Enabled(Run(s, run), a)
    ensures !StartsCall(Run(s, run), a)
    decreases run
  {
    if run == [] {
      SettledStays(s, a);
    } else {
      SettledStays(s, run[0]);
      StepInv(s, run[0]);
      SettledNeverCalls(Next(s, run[0]), run[1..], a);
    }
  }

  /** If every `Request` that overlaps the destructor is made from a callback on another thread, or
      no channel is ever pooled, no callback starts after the destructor has returned, and none is
      running but those it was called from. */
  lemma NoCallAfterDestructor(s: State)
    requires Reachable(s) && Promised(s) && s.dtor.Returned?
    ensures !MayCall(s) && Alone(s)
  {
    ReachableInv(s);
    if MayCall(s) {
      var run, a :| CanRun(s, run) && Enabled(Run(s, run), a) && StartsCall(Run(s, run), a);
      SettledNeverCalls(s, run, a);
    }
  }
}
