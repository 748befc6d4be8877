/** When a `Request` overlaps the destructor, `OnClosed` can come after it: exactly when. */
module LifecycleLate {
  import opened Wrappers
  import opened ConnectorState
  import opened PoolKeys
  import VpnPolicy
  import opened Lifecycle
  import opened LifecycleInvariant
  import opened LifecycleTheorems
  import opened LifecycleCallbacks

  lemma LateStep(s: State, a: Step)
    requires Enabled(s, a) && MayCall(Next(s, a))
    ensures MayCall(s)
  {
    var run, b :| CanRun(Next(s, a), run) && Enabled(Run(Next(s, a), run), b)
                  && StartsCall(Run(Next(s, a), run), b);
    var longer := [a] + run;
    assert longer[0] == a && longer[1..] == run;
    assert CanRun(s, longer) && Run(s, longer) == Run(Next(s, a), run);
  }

  lemma AloneStep(s: State, a: Step)
    requires Enabled(s, a) && !IsCall(a) && MayCallAlone(Next(s, a))
    ensures MayCallAlone(s)
  {
    var run, b :|
      && CanRun(Next(s, a), run) && Enabled(Run(Next(s, a), run), b)
      && StartsCall(Run(Next(s, a), run), b)
      && !IsCall(b) && (forall i | 0 <= i < |run| :: !IsCall(run[i]));
    var longer := [a] + run;
    assert longer[0] == a && longer[1..] == run;
    assert CanRun(s, longer) && Run(s, longer) == Run(Next(s, a), run);
    assert forall i | 0 <= i < |longer| :: !IsCall(longer[i]);
  }

  lemma LateNow(s: State, a: Step)
    requires Enabled(s, a) && StartsCall(s, a)
    ensures MayCall(s) && (!IsCall(a) ==> MayCallAlone(s))
  {
    assert CanRun(s, []) && Run(s, []) == s;
  }

  lemma AloneIsLate(s: State)
    requires MayCallAlone(s)
    ensures MayCall(s)
  {
    var run, a :|
      && CanRun(s, run) && Enabled(Run(s, run), a) && StartsCall(Run(s, run), a)
      && !IsCall(a) && (forall i | 0 <= i < |run| :: !IsCall(run[i]));
  }

  /** The destructor returned on a drained connector that still owes `OnClosed`. */
  ghost predicate Owing(s: State) {
    s.dtor.Returned? && !Settled(s) && Drained(s.sh)
  }

  lemma LateFromCloser(s: State, k: Id)
    requires Inv(s) && Owing(s) && k in s.closers
    ensures MayCall(s)
  {
    LateNow(s, OfClose(CloseFinish(k, 0)));
  }

  /** The parked channel of an untouched watcher may close, and the delete task then notifies. */
  lemma LateFromParked(s: State, p: Id, h: Id)
    requires Inv(s) && Owing(s) && p in s.pools && s.pools[p].pc.Waiting? && !s.pools[p].held
    requires s.pools[p].chan == h && h in s.chans && s.chans[h] == Chan(Parked(p), Free, true)
    ensures MayCallAlone(s)
  {
    var a := OfChan(ChanClosePool(h));
    var s' := DoChanClosePool(s, h);
    assert s'.sh == s.sh.(idleDestroying := 1);
    assert s'.pools[p].pc == Sched(TerminalClosed);
    LateNow(s', OfPost(TaskPooled(p, 0)));
    AloneStep(s, a);
  }

  lemma LateFromLeaving(s: State, p: Id, h: Id)
    requires Inv(s) && Owing(s) && p in s.pools && s.pools[p].pc.Waiting? && !s.pools[p].held
    requires s.pools[p].chan == h && h in s.chans && s.chans[h] == Chan(Parked(p), Leaving, true)
    ensures MayCallAlone(s)
  {
    var a := OfChan(StrandReturn(h));
    StepInv(s, a);
    LateFromParked(SetBusy(s, h, Free), p, h);
    AloneStep(s, a);
  }

  /** Whatever the channel's event thread is doing, it gets back to rest. */
  lemma LateFromBusy(s: State, p: Id, h: Id)
    requires Inv(s) && Owing(s) && p in s.pools && s.pools[p].pc.Waiting? && !s.pools[p].held
    requires s.pools[p].chan == h && h in s.chans && s.chans[h].st == Parked(p)
    requires s.chans[h].alive && !s.chans[h].busy.ByConn?
    ensures MayCallAlone(s)
  {
    match s.chans[h].busy
    case Free => LateFromParked(s, p, h);
    case Leaving => LateFromLeaving(s, p, h);
    case ByTail(_) =>
      var a := OfConn(ConnTail(h));
      StepInv(s, a);
      LateFromLeaving(SetBusy(s, h, Leaving), p, h);
      AloneStep(s, a);
  }

  /** The step by which the call that holds a pooled channel lets go of it. */
  function LetGo(r: Id, pc: ReqPc): ReqStep {
    match pc
    case Insert(_) => ReqGiveBack(r)
    case Release(_, _) => ReqRelease(r)
    case _ => ReqRetry(r)
  }

  /** With every connection gone, a watcher without a terminal event has a parked channel. */
  lemma OwingParked(s: State, p: Id)
    requires Inv(s) && Owing(s) && WaitingAt(s, p)
    ensures var h := s.pools[p].chan;
            h in s.chans && s.chans[h].st == Parked(p) && s.chans[h].alive && !s.chans[h].busy.ByConn?
  {
    var h := s.pools[p].chan;
    assert AtPool(p) && AtChan(h);
    if s.chans[h].st.AdoptPosted? {
      assert AtConn(s.chans[h].st.conn);
    }
    if s.chans[h].busy.ByConn? {
      assert AtConn(s.chans[h].busy.conn);
    }
  }

  lemma LateFromHeld(s: State, p: Id)
    requires Inv(s) && Owing(s) && WaitingAt(s, p) && s.pools[p].held
    ensures MayCall(s)
  {
    var r := s.pools[p].holder;
    assert AtPool(p) && AtReq(r);
    var pc := s.reqs[r].pc;
    if pc.Start? {
      assert AtConn(pc.c);
      assert false;
    }
    var b := LetGo(r, pc);
    OwingParked(s, p);
    LetsGo(s, p, b);
    StepInv(s, OfReq(b));
    LateFromBusy(DoReq(s, b), p, s.pools[p].chan);
    AloneIsLate(DoReq(s, b));
    LateStep(s, OfReq(b));
  }

  lemma LetsGo(s: State, p: Id, b: ReqStep)
    requires Inv(s) && Owing(s) && WaitingAt(s, p)
    requires b.ReqGiveBack? || b.ReqRelease? || b.ReqRetry?
    requires b.r in s.reqs && b == LetGo(b.r, s.reqs[b.r].pc) && Borrowed(s.reqs[b.r].pc) == Some(p)
    requires !s.reqs[b.r].pc.Start?
    ensures CanReq(s, b)
    ensures var s' := DoReq(s, b);
            && s'.sh == s.sh && s'.chans == s.chans && s'.dtor == s.dtor
            && p in s'.pools && s'.pools[p] == s.pools[p].(held := false)
  {
    assert AtPool(p);
  }

  lemma LateFromOwing(s: State)
    requires Inv(s) && Owing(s)
    ensures MayCall(s)
  {
    assert s.closers != {} || SomeWaiting(s);
    if s.closers != {} {
      var k :| k in s.closers;
      LateFromCloser(s, k);
    } else {
      var p :| WaitingAt(s, p);
      if s.pools[p].held {
        LateFromHeld(s, p);
      } else {
        OwingParked(s, p);
        LateFromBusy(s, p, s.pools[p].chan);
        AloneIsLate(s);
      }
    }
  }

  lemma LateIffOwing(s: State)
    requires Inv(s) && s.dtor.Returned? && (Settled(s) || Drained(s.sh))
    ensures MayCall(s) <==> !Settled(s)
  {
    if !Settled(s) {
      LateFromOwing(s);
    } else if MayCall(s) {
      var run, b :| CanRun(s, run) && Enabled(Run(s, run), b) && StartsCall(Run(s, run), b);
      SettledNeverCalls(s, run, b);
    }
  }

  /** After the destructor, some continuation still calls `OnClosed` if and only if it was not
      settled by then: a `Request` held the last parked channel, or another `Close` had yet to
      test for it. */
  lemma LateCallIff(s: State, a: Step)
    requires Reachable(s) && Enabled(s, a) && !s.dtor.Returned? && Next(s, a).dtor.Returned?
    ensures MayCall(Next(s, a)) <==> !Settled(Next(s, a))
  {
    ReachableInv(s);
    StepInv(s, a);
    StepEffect(s, a);
    ReturnsSettledOrDrained(s, a.close);
    LateIffOwing(Next(s, a));
  }

  /** Every call on the connector has returned. */
  ghost predicate CallsOver(s: State) {
    (forall r | r in s.reqs :: HasReturned(s.reqs[r].pc)) && s.closers == {}
  }

  lemma AloneFromOwing(s: State)
    requires Inv(s) && Owing(s) && CallsOver(s)
    ensures MayCallAlone(s)
  {
    assert SomeWaiting(s);
    var p :| WaitingAt(s, p);
    assert AtPool(p);
    OwingParked(s, p);
    LateFromBusy(s, p, s.pools[p].chan);
  }

  lemma AloneIffOwing(s: State)
    requires Inv(s) && s.dtor.Returned? && (Settled(s) || Drained(s.sh)) && CallsOver(s)
    ensures MayCallAlone(s) <==> !Settled(s)
  {
    if !Settled(s) {
      AloneFromOwing(s);
    } else if MayCallAlone(s) {
      AloneIsLate(s);
      LateIffOwing(s);
    }
  }

  /** The same for a destructor by whose return every `Request` and `Close` has returned: events of
      channels and posted tasks alone, without any call on the dead connector, start a callback in
      some continuation if and only if `OnClosed` was not settled by then. */
  lemma LateCallAloneIff(s: State, a: Step)
    requires Reachable(s) && Enabled(s, a) && !s.dtor.Returned? && Next(s, a).dtor.Returned?
    requires CallsOver(Next(s, a))
    ensures MayCallAlone(Next(s, a)) <==> !Settled(Next(s, a))
  {
    ReachableInv(s);
    StepInv(s, a);
    StepEffect(s, a);
    ReturnsSettledOrDrained(s, a.close);
    AloneIffOwing(Next(s, a));
  }

  lemma ReturnsSettledOrDrained(s: State, b: CloseStep)
    requires Inv(s) && CanClose(s, b) && (b.DtorDrained? || b.DtorCut?)
    ensures Settled(DoClose(s, b)) || Drained(DoClose(s, b).sh)
  {
  }

  // ----- a run in which it does come late ----------------------------------------------------

  lemma {:induction false} RunLonger(s: State, run: seq<Step>, a: Step)
    requires CanRun(s, run) && Enabled(Run(s, run), a)
    ensures CanRun(s, run + [a]) && Run(s, run + [a]) == Next(Run(s, run), a)
    decreases run
  {
    var longer := run + [a];
    if run == [] {
      assert longer == [a] && longer[1..] == [];
    } else {
      assert longer[0] == run[0] && longer[1..] == run[1..] + [a];
      RunLonger(Next(s, run[0]), run[1..], a);
    }
  }

  lemma Goes(s: State, a: Step, s': State)
    requires Reachable(s) && Enabled(s, a) && Next(s, a) == s'
    ensures Reachable(s')
  {
    var strict, handler, maxIdle, run :|
      CanRun(Initial(strict, handler, maxIdle), run) && Run(Initial(strict, handler, maxIdle), run) == s;
    RunLonger(Initial(strict, handler, maxIdle), run, a);
  }

  lemma GoesReq(s: State, b: ReqStep, s': State)
    requires Reachable(s) && CanReq(s, b) && DoReq(s, b) == s'
    ensures Reachable(s')
  {
    Goes(s, OfReq(b), s');
  }

  lemma GoesClose(s: State, b: CloseStep, s': State)
    requires Reachable(s) && CanClose(s, b) && DoClose(s, b) == s'
    ensures Reachable(s')
  {
    Goes(s, OfClose(b), s');
  }

  lemma GoesConn(s: State, b: ConnStep, s': State)
    requires Reachable(s) && CanConn(s, b) && DoConn(s, b) == s'
    ensures Reachable(s')
  {
    Goes(s, OfConn(b), s');
  }

  lemma GoesPost(s: State, b: PostStep, s': State)
    requires Reachable(s) && CanPost(s, b) && DoPost(s, b) == s'
    ensures Reachable(s')
  {
    Goes(s, OfPost(b), s');
  }

  const Anywhere := Target([97], 80, false, [], VpnPolicy.Unset, 0, 0)

  function K(): Key {
    PoolKey(Anywhere)
  }

  function Fields(conns: set<Id>, destroying: set<Id>, idle: map<Key, seq<Id>>, closing: bool,
                  inFlight: nat): Shared
  {
    Shared(conns, destroying, idle, 0, true, closing, false, false, inFlight, 1)
  }

  /** Request 0 is to be answered on connection 1 and channel 2. */
  function Asking(conns: map<Id, Conn>, chans: map<Id, Chan>, q: Req, next: Id): State {
    State(false, Fields(conns.Keys, {}, map[], false, 0), conns, map[], chans, map[0 := q],
          map[], {}, NotBegun, {}, 0, next, map[])
  }

  /** The message is complete. */
  function Answering(pc: ConnPc, frames: map<Id, Frame>, next: Id): State {
    var told := !pc.Deliver?;
    State(false, Fields({1}, {}, map[], false, |frames|),
          map[1 := Conn(0, Some(2), Some(2), true, told, told, true, false, pc)],
          map[], map[2 := Chan(Attached(1), ByConn(1), true)],
          map[0 := Req(K(), Some(1), if told then 1 else 0, told, Check(1))],
          frames, {}, NotBegun, {}, 0, next, map[])
  }

  /** Channel 2 is parked with watcher 4. */
  function Parking(pc: ConnPc, conns: set<Id>, destroying: set<Id>, thr: Option<Id>, busy: Busy,
                   next: Id): State
  {
    State(false, Fields(conns, destroying, map[K() := [4]], false, 0),
          map[1 := Conn(0, None, thr, true, true, true, true, false, pc)],
          map[4 := Pooled(2, K(), false, 0, TerminalNone, false, true, false, Waiting)],
          map[2 := Chan(Parked(4), busy, true)],
          map[0 := Req(K(), Some(1), 1, true, Check(1))],
          map[], {}, NotBegun, {}, 0, next, map[])
  }

  /** Connection 1 is gone and request 6 has begun. */
  function Overlapping(pc: ReqPc, first: ReqPc, closing: bool, dtor: Dtor, next: Id): State {
    State(false, Fields({}, {}, if pc.Take? then map[K() := [4]] else map[], closing, 0),
          map[1 := Conn(0, None, None, true, true, true, true, false, Finished)],
          map[4 := Pooled(2, K(), pc.Insert?, if pc.Take? then 0 else 6, TerminalNone, false, pc.Take?,
                          false, Waiting)],
          map[2 := Chan(Parked(4), Leaving, true)],
          map[0 := Req(K(), Some(1), 1, true, first), 6 := Req(K(), None, 0, false, pc)],
          map[], {}, dtor, {}, 0, next, map[])
  }

  lemma RunToRequest()
    ensures Reachable(Asking(map[], map[], Req(K(), None, 0, false, Insert(None)), 1))
  {
    var s0 := Initial(false, true, 1);
    assert CanRun(s0, []) && Run(s0, []) == s0;
    var s1 := Asking(map[], map[], Req(K(), None, 0, false, Take), 1);
    GoesReq(s0, ReqBegin(Anywhere, None), s1);
    GoesReq(s1, ReqTakeNone(0), Asking(map[], map[], Req(K(), None, 0, false, Insert(None)), 1));
  }

  lemma RunToInsert()
    ensures Reachable(Asking(map[1 := NewConn(0, 2)], map[2 := Chan(Unopened(1), Free, true)],
                             Req(K(), Some(1), 0, false, Start(1, None)), 3))
  {
    RunToRequest();
    var s0 := Asking(map[], map[], Req(K(), None, 0, false, Insert(None)), 1);
    GoesReq(s0, ReqInsert(0),
            Asking(map[1 := NewConn(0, 2)], map[2 := Chan(Unopened(1), Free, true)],
                   Req(K(), Some(1), 0, false, Start(1, None)), 3));
  }

  lemma RunToOpen()
    ensures Reachable(Asking(map[1 := NewConn(0, 2).(pc := Live)], map[2 := Chan(Attached(1), Free, true)],
                             Req(K(), Some(1), 0, false, Check(1)), 3))
  {
    RunToInsert();
    var s0 := Asking(map[1 := NewConn(0, 2)], map[2 := Chan(Unopened(1), Free, true)],
                     Req(K(), Some(1), 0, false, Start(1, None)), 3);
    GoesReq(s0, ReqOpen(0),
            Asking(map[1 := NewConn(0, 2).(pc := Live)], map[2 := Chan(Attached(1), Free, true)],
                   Req(K(), Some(1), 0, false, Check(1)), 3));
  }

  lemma RunToDelivery()
    ensures Reachable(Answering(Deliver(ThenPool), map[], 3))
  {
    RunToOpen();
    var s0 := Asking(map[1 := NewConn(0, 2).(pc := Live)], map[2 := Chan(Attached(1), Free, true)],
                     Req(K(), Some(1), 0, false, Check(1)), 3);
    assert DoConnKeep(s0, 1) == Answering(Deliver(ThenPool), map[], 3);
    Goes(s0, OfChan(ConnKeep(1)), Answering(Deliver(ThenPool), map[], 3));
  }

  lemma RunToCall()
    ensures Reachable(Answering(InCall(3, ThenPool), map[3 := Frame(9, HttpCall(1), false)], 4))
  {
    RunToDelivery();
    GoesConn(Answering(Deliver(ThenPool), map[], 3), ConnDeliver(1, false, 9),
             Answering(InCall(3, ThenPool), map[3 := Frame(9, HttpCall(1), false)], 4));
  }

  lemma RunPastCall()
    ensures Reachable(Answering(InCall(3, ThenPool), map[], 4))
  {
    RunToCall();
    var f := Frame(9, HttpCall(1), false);
    var s1 := Answering(InCall(3, ThenPool), map[3 := f.(popped := true)], 4);
    GoesPost(Answering(InCall(3, ThenPool), map[3 := f], 4), CallReturn(3), s1);
    GoesPost(s1, GuardDrop(3), Answering(InCall(3, ThenPool), map[], 4));
  }

  lemma RunToPark()
    ensures Reachable(Answering(ToPool, map[], 4))
  {
    RunPastCall();
    GoesConn(Answering(InCall(3, ThenPool), map[], 4), ConnAfterCall(1), Answering(ToPool, map[], 4));
  }

  lemma RunToPool()
    ensures Reachable(Parking(PoolArm(4, true), {1}, {}, Some(2), ByConn(1), 5))
  {
    RunToPark();
    var s := Answering(ToPool, map[], 4);
    var none: seq<Id> := [];
    assert none + [4] == [4];
    GoesConn(s, ConnPool(1), Parking(PoolArm(4, true), {1}, {}, Some(2), ByConn(1), 5));
  }

  lemma RunToDetach()
    ensures Reachable(Parking(Detach, {1}, {}, Some(2), ByConn(1), 5))
  {
    RunToPool();
    GoesConn(Parking(PoolArm(4, true), {1}, {}, Some(2), ByConn(1), 5), ConnPoolArm(1, false),
             Parking(Detach, {1}, {}, Some(2), ByConn(1), 5));
  }

  lemma RunToDoomed()
    ensures Reachable(Parking(Doomed, {}, {1}, None, Leaving, 5))
  {
    RunToDetach();
    GoesConn(Parking(Detach, {1}, {}, Some(2), ByConn(1), 5), ConnDetach(1),
             Parking(Doomed, {}, {1}, None, Leaving, 5));
  }

  lemma RunToOverlap()
    ensures Reachable(Overlapping(Take, Check(1), false, NotBegun, 7))
  {
    RunToDoomed();
    var s1 := Parking(Finished, {}, {}, None, Leaving, 6);
    GoesPost(Parking(Doomed, {}, {1}, None, Leaving, 5), TaskConn(1, 9), s1);
    GoesReq(s1, ReqBegin(Anywhere, None), Overlapping(Take, Check(1), false, NotBegun, 7));
  }

  lemma RunToWait()
    ensures Reachable(Overlapping(Take, Check(1), true, WaitDrain(8, 0), 8))
  {
    RunToOverlap();
    var s1 := Overlapping(Take, Check(1), true, CloseNotify(8), 7);
    GoesClose(Overlapping(Take, Check(1), false, NotBegun, 7), DtorBegin(8), s1);
    assert K() in s1.sh.idle;
    var s2 := Overlapping(Take, Check(1), true, CloseCall(8, None), 8);
    GoesClose(s1, DtorNotify, s2);
    GoesClose(s2, DtorWait, Overlapping(Take, Check(1), true, WaitDrain(8, 0), 8));
  }

  /** The destructor finds the pool occupied; the overlapping `Request` then takes the last channel
      out of the pool, finds the connector closing, and gives the channel back. */
  lemma RunToTake()
    ensures Reachable(Overlapping(Insert(Some(4)), Check(1), true, WaitDrain(8, 0), 8))
  {
    RunToWait();
    GoesReq(Overlapping(Take, Check(1), true, WaitDrain(8, 0), 8), ReqTake(6),
            Overlapping(Insert(Some(4)), Check(1), true, WaitDrain(8, 0), 8));
  }

  lemma RunToGiveBack()
    ensures Reachable(Overlapping(ReturnedError, Check(1), true, WaitDrain(8, 0), 8))
  {
    RunToTake();
    GoesReq(Overlapping(Insert(Some(4)), Check(1), true, WaitDrain(8, 0), 8), ReqGiveBack(6),
            Overlapping(ReturnedError, Check(1), true, WaitDrain(8, 0), 8));
  }

  lemma RunToReturns()
    ensures Reachable(Overlapping(ReturnedError, ReturnedOk(1), true, WaitDrain(8, 0), 8))
  {
    RunToGiveBack();
    GoesReq(Overlapping(ReturnedError, Check(1), true, WaitDrain(8, 0), 8), ReqCheck(0),
            Overlapping(ReturnedError, ReturnedOk(1), true, WaitDrain(8, 0), 8));
  }

  /** Everything is drained, nobody has called `OnClosed`, and the destructor returns. */
  lemma RunPastDestructor()
    ensures Reachable(Overlapping(ReturnedError, ReturnedOk(1), true, Returned(8), 8))
  {
    RunToReturns();
    GoesClose(Overlapping(ReturnedError, ReturnedOk(1), true, WaitDrain(8, 0), 8), DtorDrained,
              Overlapping(ReturnedError, ReturnedOk(1), true, Returned(8), 8));
  }

  /** Without the caller's promise the destructor does not keep its own: after a `Request` that
      overlapped it, `OnClosed` may be called when every call and the destructor have returned. */
  lemma CallAfterDestructor() returns (s: State)
    ensures Reachable(s) && s.dtor.Returned? && CallsOver(s) && MayCallAlone(s)
  {
    RunPastDestructor();
    s := Overlapping(ReturnedError, ReturnedOk(1), true, Returned(8), 8);
    ReachableInv(s);
    AloneFromOwing(s);
  }
}
