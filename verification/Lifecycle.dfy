/** The life cycle of the HTTP connector as a transition system.

    One step is one lock section of the connector, one callback entry or return, one posted task,
    or one event of a `TcpChannel`'s serial queue.  Work that a thread does on objects no other
    thread can reach (deleting a connection nobody else refers to, posting a task) is part of the
    step it follows.  Any enabled step may be taken at any time, so a run is an arbitrary
    interleaving of all threads.

    Every object gets an id that is never reused, and the records of deleted objects are kept: a
    step that dereferences a deleted object is then visible as such. */
module Lifecycle {
  import opened Wrappers
  import opened ConnectorState
  import opened PoolKeys

  /** What a connection's handler goes on to do once it has delivered the outcome. */
  datatype After = ThenDestroy | ThenPool

  /** Where the handler of an `HttpConnection` stands on the event thread it runs on. */
  datatype ConnPc =
    | Starting                               // inserted, `Start` has not returned
    | Live                                   // waiting for channel events
    | Deliver(after: After)                  // before the lock section of `_DeliverOnce`
    | InCall(frame: Id, after: After)        // inside the request handler
    | ToPool                                 // before `Park` and the section that fills the pool
    | PoolArm(pooled: Id, ok: bool)          // before `ArmIdleTimer` or `Close`
    | Detach                                 // before `_DetachAndScheduleDestroy`
    | AdoptSwap                              // in `OnChannelAdoptFailed`, before the swap
    | AdoptOpen(closing: bool)               // before the fresh channel's `Open`
    | Doomed                                 // delete task posted
    | Finished                               // deleted

  /** `thr` is the channel on whose event thread the handler runs. */
  datatype Conn = Conn(req: Id, chan: Option<Id>, thr: Option<Id>, handler: bool, told: bool,
                       delivered: bool, done: bool, failed: bool, pc: ConnPc)

  datatype PooledPc =
    | Waiting                                // no terminal event yet
    | Over(how: Terminal)                    // terminal event seen, destruction held back
    | Sched(how: Terminal)                   // delete task posted
    | Gone(how: Terminal)                    // deleted

  /** History: `inIdle`, the idle list has it; `holder`, the `Request` call that holds it;
      `adopted`, an `Adopt` was accepted for it. */
  datatype Pooled = Pooled(chan: Id, key: Key, held: bool, holder: Id, pending: Terminal,
                           timer: bool, inIdle: bool, adopted: bool, pc: PooledPc)

  /** Whom a channel's events go to; `Ended` keeps who received the last one. */
  datatype ChanSt =
    | Unopened(conn: Id)
    | Attached(conn: Id)
    | Parked(pooled: Id)
    | AdoptPosted(pooled: Id, conn: Id)
    | EndedConn(conn: Id)
    | EndedPool(pooled: Id)

  /** What the channel's event thread is doing on behalf of the connector. */
  datatype Busy = Free | ByConn(conn: Id) | ByTail(conn: Id) | Leaving

  datatype Chan = Chan(st: ChanSt, busy: Busy, alive: bool)

  /** Program counter of one `Request` call. */
  datatype ReqPc =
    | Take
    | Insert(b: Option<Id>)
    | Start(c: Id, b: Option<Id>)
    | Release(c: Id, p: Id)
    | Retry(p: Id)
    | Check(c: Id)
    | ReturnedOk(c: Id)
    | ReturnedError

  /** `calls` counts invocations of the request's handler, `response` tells which one was made. */
  datatype Req = Req(key: Key, cur: Option<Id>, calls: nat, response: bool, pc: ReqPc)

  datatype Kind = HttpCall(conn: Id) | ClosedCall
  datatype Frame = Frame(thread: Id, kind: Kind, popped: bool)

  /** `~HttpConnector`, called on thread `thr`; `mine` is the dispatch depth of that thread. */
  datatype Dtor =
    | NotBegun
    | CloseNotify(thr: Id)
    | CloseCall(thr: Id, f: Option<Id>)
    | WaitDrain(thr: Id, mine: nat)
    | WaitCut(thr: Id, mine: nat)
    | Returned(thr: Id)

  /** `nested` gives the callback that a `Request` call is made from, if it is made from one.
      `strict` records the caller's promise that no `Request` overlaps the destructor but those
      made from a callback on another thread.  `counted` and `closedCalls` are history: which pooled
      channels `idleDestroying` stands for, and how often `OnClosed` was called. */
  datatype State = State(
    strict: bool,
    sh: Shared,
    conns: map<Id, Conn>,
    pools: map<Id, Pooled>,
    chans: map<Id, Chan>,
    reqs: map<Id, Req>,
    frames: map<Id, Frame>,
    closers: set<Id>,
    dtor: Dtor,
    counted: set<Id>,
    closedCalls: nat,
    next: Id,
    nested: map<Id, Id>)

  /** The state right after `Create`; a connector may have no handler. */
  function Initial(strict: bool, handler: bool, maxIdle: nat): State {
    State(strict, Shared({}, {}, map[], 0, handler, false, false, false, 0, maxIdle),
          map[], map[], map[], map[], map[], {}, NotBegun, {}, 0, 0, map[])
  }

  // ----- helpers ---------------------------------------------------------------------------

  /** Open a frame for an `OnClosed` that the lock section `r` armed on `thread`. */
  function WithClosed(s: State, r: (Shared, bool), thread: Id): State {
    s.(sh := r.0,
       frames := if r.1 then s.frames[s.next := Frame(thread, ClosedCall, false)] else s.frames,
       next := s.next + 1,
       closedCalls := if r.1 then s.closedCalls + 1 else s.closedCalls)
  }

  predicate DtorActive(d: Dtor) {
    !d.NotBegun? && !d.Returned?
  }

  /** A thread blocked inside the destructor enters no further callback. */
  predicate ThreadFree(s: State, thread: Id) {
    DtorActive(s.dtor) ==> thread != s.dtor.thr
  }

  /** The dispatch depth of a thread: the callbacks it is inside of. */
  function Depth(frames: map<Id, Frame>, thr: Id): set<Id> {
    set f | f in frames && frames[f].thread == thr && !frames[f].popped
  }

  function AfterPc(after: After): ConnPc {
    if after.ThenDestroy? then Detach else ToPool
  }

  predicate HasReturned(pc: ReqPc) {
    pc.ReturnedOk? || pc.ReturnedError?
  }

  function SetReq(s: State, r: Id, pc: ReqPc): State
    requires r in s.reqs
  {
    s.(reqs := s.reqs[r := s.reqs[r].(pc := pc)])
  }

  /** `PooledChannel::Release`: schedule what a terminal event left behind. */
  function ReleasePooled(s: State, p: Id): State
    requires p in s.pools
  {
    var k := s.pools[p];
    s.(pools := s.pools[p := k.(held := false,
                                pc := if k.pending == TerminalNone then k.pc else Sched(k.pending))])
  }

  /** The terminal event `how` at the watcher: schedule now, or leave it to `Release`. */
  function EndPooled(s: State, p: Id, how: Terminal): State
    requires p in s.pools
  {
    var k := s.pools[p];
    s.(pools := s.pools[p := k.(timer := false, inIdle := false,
                                pending := if k.held then how else k.pending,
                                pc := if k.held then Over(how) else Sched(how))])
  }

  /** `~HttpConnection` deletes the channel it still owns. */
  function KillChan(chans: map<Id, Chan>, h: Option<Id>): map<Id, Chan> {
    if h.Some? && h.value in chans then chans[h.value := chans[h.value].(alive := false)] else chans
  }

  // ----- steps -----------------------------------------------------------------------------

  /** One step of a `Request` call. */
  datatype ReqStep =
    | ReqBegin(cfg: Target, from: Option<Id>)
    | ReqTake(r: Id)
    | ReqTakeNone(r: Id)
    | ReqRefuse(r: Id)
    | ReqGiveBack(r: Id)
    | ReqInsert(r: Id)
    | ReqInsertOn(r: Id)
    | ReqOpen(r: Id)
    | ReqOpenFail(r: Id, t: Id)
    | ReqAdopt(r: Id)
    | ReqAdoptFail(r: Id, t: Id)
    | ReqRelease(r: Id)
    | ReqRetry(r: Id)
    | ReqCheck(r: Id)

  /** One step of a `Close` call or of the destructor. */
  datatype CloseStep =
    | CloseBegin
    | CloseFinish(k: Id, t: Id)
    | DtorBegin(t: Id)
    | DtorNotify
    | DtorWait
    | DtorDrained
    | DtorTimeout
    | DtorCut

  /** One event of a channel's serial queue. */
  datatype ChanStep =
    | ConnData(c: Id, done: bool, failed: bool)
    | ConnKeep(c: Id)
    | ChanCloseConn(h: Id)
    | ChanClosePool(h: Id)
    | ChanAdoptOk(h: Id)
    | ChanAdoptFail(h: Id)
    | TimerFire(p: Id)
    | StrandReturn(h: Id)

  /** One step of a connection's handler on an event thread. */
  datatype ConnStep =
    | ConnMute(c: Id, finish: bool)
    | ConnDeliver(c: Id, finish: bool, t: Id)
    | ConnAfterCall(c: Id)
    | ConnPool(c: Id)
    | ConnPoolArm(c: Id, arm: bool)
    | ConnDetach(c: Id)
    | ConnSwap(c: Id)
    | ConnReopen(c: Id)
    | ConnReopenFail(c: Id)
    | ConnTail(h: Id)

  /** One posted task, or the end of a callback. */
  datatype PostStep =
    | TaskConn(c: Id, t: Id)
    | TaskPooled(p: Id, t: Id)
    | TaskWatcher(p: Id)
    | CallReturn(f: Id)
    | GuardDrop(f: Id)

  datatype Step =
    | OfReq(req: ReqStep)
    | OfClose(close: CloseStep)
    | OfChan(chan: ChanStep)
    | OfConn(conn: ConnStep)
    | OfPost(post: PostStep)

  // `HttpConnector::Request`

  /** A callback makes a call only while it runs, and not on a thread inside the destructor. */
  predicate MayNest(s: State, from: Option<Id>) {
    from.Some? ==>
      && from.value in s.frames && !s.frames[from.value].popped
      && ThreadFree(s, s.frames[from.value].thread)
  }

  predicate CanReqBegin(s: State, from: Option<Id>) {
    && !s.dtor.Returned? && MayNest(s, from)
    && (s.strict ==> s.dtor.NotBegun? || from.Some?)
  }

  function DoReqBegin(s: State, key: Key, from: Option<Id>): State {
    var pc := if s.sh.maxIdle > 0 then Take else Insert(None);
    s.(reqs := s.reqs[s.next := Req(key, None, 0, false, pc)],
       nested := if from.Some? then s.nested[s.next := from.value] else s.nested,
       next := s.next + 1)
  }

  predicate CanReqTake(s: State, r: Id) {
    r in s.reqs && s.reqs[r].pc.Take?
  }

  /** `_TakeFromPool` found a parked channel; the section also holds its destruction back. */
  predicate Hits(s: State, r: Id)
    requires CanReqTake(s, r)
  {
    var b := TakeFromPool(s.sh, s.reqs[r].key).1;
    b.Some? && b.value in s.pools
  }

  function DoReqTake(s: State, r: Id): State
    requires CanReqTake(s, r) && Hits(s, r)
  {
    var (sh, b) := TakeFromPool(s.sh, s.reqs[r].key);
    s.(sh := sh,
       reqs := s.reqs[r := s.reqs[r].(pc := Insert(b))],
       pools := s.pools[b.value := s.pools[b.value].(held := true, holder := r, inIdle := false)])
  }

  function DoReqTakeNone(s: State, r: Id): State
    requires CanReqTake(s, r)
  {
    var (sh, b) := TakeFromPool(s.sh, s.reqs[r].key);
    SetReq(s.(sh := sh), r, Insert(b))
  }

  predicate CanReqInsert(s: State, r: Id) {
    r in s.reqs && s.reqs[r].pc == Insert(None)
  }

  predicate CanReqInsertOn(s: State, r: Id) {
    && r in s.reqs && s.reqs[r].pc.Insert? && s.reqs[r].pc.b.Some?
    && s.reqs[r].pc.b.value in s.pools
  }

  /** The connector is closing: give up, and give the borrowed channel back. */
  function DoReqGiveBack(s: State, r: Id): State
    requires CanReqInsertOn(s, r)
  {
    ReleasePooled(SetReq(s, r, ReturnedError), s.reqs[r].pc.b.value)
  }

  function NewConn(r: Id, h: Id): Conn {
    Conn(r, Some(h), None, true, false, false, false, false, Starting)
  }

  /** Insert a new connection on a channel of its own. */
  function DoReqInsert(s: State, r: Id): State
    requires CanReqInsert(s, r)
  {
    var c := s.next;
    s.(sh := s.sh.(conns := s.sh.conns + {c}),
       conns := s.conns[c := NewConn(r, c + 1)],
       chans := s.chans[c + 1 := Chan(Unopened(c), Free, true)],
       reqs := s.reqs[r := s.reqs[r].(cur := Some(c), pc := Start(c, None))],
       next := c + 2)
  }

  /** Insert a new connection on the borrowed channel. */
  function DoReqInsertOn(s: State, r: Id): State
    requires CanReqInsertOn(s, r)
  {
    var c := s.next;
    var b := s.reqs[r].pc.b;
    s.(sh := s.sh.(conns := s.sh.conns + {c}),
       conns := s.conns[c := NewConn(r, s.pools[b.value].chan)],
       reqs := s.reqs[r := s.reqs[r].(cur := Some(c), pc := Start(c, b))],
       next := c + 1)
  }

  predicate CanReqOpen(s: State, r: Id) {
    && r in s.reqs && s.reqs[r].pc.Start? && s.reqs[r].pc.b.None?
    && s.reqs[r].pc.c in s.conns && s.conns[s.reqs[r].pc.c].chan.Some?
    && s.conns[s.reqs[r].pc.c].chan.value in s.chans
  }

  function DoReqOpen(s: State, r: Id): State
    requires CanReqOpen(s, r)
  {
    var c := s.reqs[r].pc.c;
    var h := s.conns[c].chan.value;
    s.(chans := s.chans[h := s.chans[h].(st := Attached(c))],
       conns := s.conns[c := s.conns[c].(pc := Live)],
       reqs := s.reqs[r := s.reqs[r].(pc := Check(c))])
  }

  /** `Start` failed on a fresh channel: `_DetachAndArmClosed`, delete, return the error. */
  function DoReqOpenFail(s: State, r: Id, t: Id): State
    requires CanReqOpen(s, r)
  {
    var c := s.reqs[r].pc.c;
    WithClosed(s.(conns := s.conns[c := s.conns[c].(pc := Finished)],
                  chans := KillChan(s.chans, s.conns[c].chan),
                  reqs := s.reqs[r := s.reqs[r].(pc := ReturnedError)]),
               DetachAndArm(s.sh, c), t)
  }

  predicate CanReqAdopt(s: State, r: Id) {
    && r in s.reqs && s.reqs[r].pc.Start? && s.reqs[r].pc.b.Some?
    && s.reqs[r].pc.c in s.conns && s.reqs[r].pc.b.value in s.pools
    && s.pools[s.reqs[r].pc.b.value].chan in s.chans
  }

  /** `Adopt` can only be accepted while the channel is still parked; it may always refuse. */
  predicate AdoptAccepted(s: State, r: Id)
    requires CanReqAdopt(s, r)
  {
    s.chans[s.pools[s.reqs[r].pc.b.value].chan].st == Parked(s.reqs[r].pc.b.value)
  }

  function DoReqAdopt(s: State, r: Id): State
    requires CanReqAdopt(s, r)
  {
    var c := s.reqs[r].pc.c;
    var p := s.reqs[r].pc.b.value;
    var h := s.pools[p].chan;
    s.(chans := s.chans[h := s.chans[h].(st := AdoptPosted(p, c))],
       pools := s.pools[p := s.pools[p].(adopted := true)],
       conns := s.conns[c := s.conns[c].(pc := Live)],
       reqs := s.reqs[r := s.reqs[r].(pc := Release(c, p))])
  }

  /** `Adopt` refused: disown the channel, `_DetachAndArmClosed`, delete, and try again. */
  function DoReqAdoptFail(s: State, r: Id, t: Id): State
    requires CanReqAdopt(s, r)
  {
    var c := s.reqs[r].pc.c;
    WithClosed(s.(conns := s.conns[c := s.conns[c].(chan := None, pc := Finished)],
                  reqs := s.reqs[r := s.reqs[r].(pc := Retry(s.reqs[r].pc.b.value))]),
               DetachAndArm(s.sh, c), t)
  }

  predicate CanReqRelease(s: State, r: Id) {
    r in s.reqs && s.reqs[r].pc.Release? && s.reqs[r].pc.p in s.pools
  }

  function DoReqRelease(s: State, r: Id): State
    requires CanReqRelease(s, r)
  {
    ReleasePooled(SetReq(s, r, Check(s.reqs[r].pc.c)), s.reqs[r].pc.p)
  }

  predicate CanReqRetry(s: State, r: Id) {
    r in s.reqs && s.reqs[r].pc.Retry? && s.reqs[r].pc.p in s.pools
  }

  /** Close and release the channel that could not be adopted; go on as without one. */
  function DoReqRetry(s: State, r: Id): State
    requires CanReqRetry(s, r)
  {
    ReleasePooled(SetReq(s, r, Insert(None)), s.reqs[r].pc.p)
  }

  // `HttpConnector::Close` and the destructor

  function DoCloseBegin(s: State): State {
    s.(sh := s.sh.(closing := true), closers := s.closers + {s.next}, next := s.next + 1)
  }

  function DoCloseFinish(s: State, k: Id, t: Id): State {
    WithClosed(s.(closers := s.closers - {k}), NotifyIfDrained(s.sh), t)
  }

  /** The call is made from a callback that runs on a thread other than `t`. */
  predicate NestedOff(s: State, r: Id, t: Id) {
    && r in s.nested && s.nested[r] in s.frames
    && !s.frames[s.nested[r]].popped && s.frames[s.nested[r]].thread != t
  }

  predicate CanDtorBegin(s: State, t: Id) {
    && s.dtor.NotBegun?
    && (s.strict ==> forall r | r in s.reqs :: HasReturned(s.reqs[r].pc) || NestedOff(s, r, t))
    && (forall f | f in s.frames && s.frames[f].thread == t :: !s.frames[f].popped)
  }

  function DoDtorBegin(s: State, t: Id): State {
    s.(sh := s.sh.(closing := true), dtor := CloseNotify(t))
  }

  function DoDtorNotify(s: State): State
    requires s.dtor.CloseNotify?
  {
    var d := NotifyIfDrained(s.sh);
    WithClosed(s.(dtor := CloseCall(s.dtor.thr, if d.1 then Some(s.next) else None)), d, s.dtor.thr)
  }

  predicate CanDtorWait(s: State) {
    s.dtor.CloseCall? && (s.dtor.f.Some? ==> s.dtor.f.value !in s.frames)
  }

  function DoDtorWait(s: State): State
    requires CanDtorWait(s)
  {
    s.(dtor := WaitDrain(s.dtor.thr, |Depth(s.frames, s.dtor.thr)|))
  }

  /** The predicate of the timed wait. */
  predicate DtorPred(s: State)
    requires s.dtor.WaitDrain?
  {
    Drained(s.sh) && s.sh.inFlight <= s.dtor.mine
  }

  /** Out of time: cut every handler off. */
  function DoDtorTimeout(s: State): State
    requires s.dtor.WaitDrain?
  {
    s.(sh := s.sh.(abandoned := true, handler := false),
       conns := map c | c in s.conns ::
                  if c in s.sh.conns then s.conns[c].(handler := false) else s.conns[c],
       dtor := WaitCut(s.dtor.thr, s.dtor.mine))
  }

  predicate CanDtorCut(s: State) {
    s.dtor.WaitCut? && s.sh.inFlight <= s.dtor.mine
  }

  function DoDtorReturn(s: State): State
    requires s.dtor.WaitDrain? || s.dtor.WaitCut?
  {
    s.(dtor := Returned(s.dtor.thr))
  }

  // Channel events

  predicate AtRest(s: State, h: Id) {
    h in s.chans && s.chans[h].busy == Free
  }

  predicate CanConnEvent(s: State, c: Id) {
    && c in s.conns && s.conns[c].pc.Live? && s.conns[c].chan.Some?
    && AtRest(s, s.conns[c].chan.value) && s.chans[s.conns[c].chan.value].st == Attached(c)
  }

  /** Data or a timer; afterwards the message is complete, or has failed, or neither. */
  function DoConnData(s: State, c: Id, done: bool, failed: bool): State
    requires CanConnEvent(s, c)
  {
    s.(conns := s.conns[c := s.conns[c].(done := s.conns[c].done || done,
                                         failed := s.conns[c].failed || failed)])
  }

  predicate CanConnKeep(s: State, c: Id) {
    CanConnEvent(s, c) && s.sh.maxIdle > 0 && !s.conns[c].failed
  }

  /** The message is complete and the channel goes back to the pool. */
  function DoConnKeep(s: State, c: Id): State
    requires CanConnKeep(s, c)
  {
    var h := s.conns[c].chan.value;
    s.(conns := s.conns[c := s.conns[c].(done := true, pc := Deliver(ThenPool), thr := Some(h))],
       chans := s.chans[h := s.chans[h].(busy := ByConn(c))])
  }

  predicate CanChanCloseConn(s: State, h: Id) {
    AtRest(s, h) && s.chans[h].st.Attached? && s.chans[h].st.conn in s.conns
  }

  function DoChanCloseConn(s: State, h: Id): State
    requires CanChanCloseConn(s, h)
  {
    var c := s.chans[h].st.conn;
    s.(chans := s.chans[h := s.chans[h].(st := EndedConn(c), busy := ByConn(c))],
       conns := s.conns[c := s.conns[c].(pc := Deliver(ThenDestroy), thr := Some(h))])
  }

  predicate CanChanClosePool(s: State, h: Id) {
    AtRest(s, h) && s.chans[h].st.Parked? && s.chans[h].st.pooled in s.pools
  }

  function DoChanClosePool(s: State, h: Id): State
    requires CanChanClosePool(s, h)
  {
    var p := s.chans[h].st.pooled;
    var sh := RemoveFromPool(s.sh, s.pools[p].key, p);
    EndPooled(s.(chans := s.chans[h := s.chans[h].(st := EndedPool(p))],
                 sh := sh.(idleDestroying := sh.idleDestroying + 1),
                 counted := s.counted + {p}),
              p, TerminalClosed)
  }

  predicate CanChanAdopt(s: State, h: Id) {
    && AtRest(s, h) && s.chans[h].st.AdoptPosted?
    && s.chans[h].st.pooled in s.pools && s.chans[h].st.conn in s.conns
  }

  function DoChanAdoptOk(s: State, h: Id): State
    requires CanChanAdopt(s, h)
  {
    EndPooled(s.(chans := s.chans[h := s.chans[h].(st := Attached(s.chans[h].st.conn))]),
              s.chans[h].st.pooled, TerminalDetached)
  }

  function DoChanAdoptFail(s: State, h: Id): State
    requires CanChanAdopt(s, h)
  {
    var c := s.chans[h].st.conn;
    s.(chans := s.chans[h := s.chans[h].(st := Parked(s.chans[h].st.pooled), busy := ByConn(c))],
       conns := s.conns[c := s.conns[c].(pc := AdoptSwap, thr := Some(h))])
  }

  predicate CanTimerFire(s: State, p: Id) {
    p in s.pools && s.pools[p].timer && AtRest(s, s.pools[p].chan)
  }

  function DoTimerFire(s: State, p: Id): State
    requires CanTimerFire(s, p)
  {
    s.(pools := s.pools[p := s.pools[p].(timer := false)])
  }

  function SetBusy(s: State, h: Id, busy: Busy): State
    requires h in s.chans
  {
    s.(chans := s.chans[h := s.chans[h].(busy := busy)])
  }

  // A connection's handler

  predicate CanConnDeliver(s: State, c: Id) {
    c in s.conns && s.conns[c].pc.Deliver? && s.conns[c].req in s.reqs
  }

  /** `finish`: the end of the stream completes a message that had no other end. */
  predicate MayFinish(k: Conn, finish: bool) {
    finish ==> !k.done && !k.failed
  }

  predicate CanConnMute(s: State, c: Id, finish: bool) {
    && CanConnDeliver(s, c) && MayFinish(s.conns[c], finish)
    && (s.conns[c].delivered || !s.conns[c].handler)
  }

  /** The outcome is dropped: delivered before, or the handler was taken away. */
  function DoConnMute(s: State, c: Id, finish: bool): State
    requires CanConnMute(s, c, finish)
  {
    var k := s.conns[c];
    s.(conns := s.conns[c := k.(delivered := true,
                                done := if k.delivered then k.done else k.done || finish,
                                pc := AfterPc(k.pc.after))])
  }

  predicate CanConnTell(s: State, c: Id, finish: bool, t: Id) {
    && CanConnDeliver(s, c) && MayFinish(s.conns[c], finish) && ThreadFree(s, t)
    && !s.conns[c].delivered && s.conns[c].handler
  }

  function DoConnDeliver(s: State, c: Id, finish: bool, t: Id): State
    requires CanConnTell(s, c, finish, t)
  {
    var k := s.conns[c];
    var done := k.done || finish;
    s.(sh := s.sh.(inFlight := s.sh.inFlight + 1),
       frames := s.frames[s.next := Frame(t, HttpCall(c), false)],
       conns := s.conns[c := k.(delivered := true, told := true, done := done,
                                pc := InCall(s.next, k.pc.after))],
       reqs := s.reqs[k.req := s.reqs[k.req].(calls := s.reqs[k.req].calls + 1, response := done)],
       next := s.next + 1)
  }

  predicate CanConnAfterCall(s: State, c: Id) {
    c in s.conns && s.conns[c].pc.InCall? && s.conns[c].pc.frame !in s.frames
  }

  function DoConnAfterCall(s: State, c: Id): State
    requires CanConnAfterCall(s, c)
  {
    s.(conns := s.conns[c := s.conns[c].(pc := AfterPc(s.conns[c].pc.after))])
  }

  predicate CanConnPool(s: State, c: Id) {
    && c in s.conns && s.conns[c].pc.ToPool? && s.conns[c].chan.Some?
    && s.conns[c].chan.value in s.chans && s.conns[c].req in s.reqs
  }

  /** `Park` with a new watcher, then offer the channel to the pool and let go of it. */
  function DoConnPool(s: State, c: Id): State
    requires CanConnPool(s, c)
  {
    var h := s.conns[c].chan.value;
    var key := s.reqs[s.conns[c].req].key;
    var p := s.next;
    var (sh, ok) := PutInPool(s.sh, key, p);
    s.(sh := sh,
       pools := s.pools[p := Pooled(h, key, false, 0, TerminalNone, false, ok, false, Waiting)],
       chans := s.chans[h := s.chans[h].(st := Parked(p))],
       conns := s.conns[c := s.conns[c].(chan := None, pc := PoolArm(p, ok))],
       next := s.next + 1)
  }

  predicate CanConnPoolArm(s: State, c: Id) {
    c in s.conns && s.conns[c].pc.PoolArm? && s.conns[c].pc.pooled in s.pools
  }

  function DoConnPoolArm(s: State, c: Id, arm: bool): State
    requires CanConnPoolArm(s, c)
  {
    var p := s.conns[c].pc.pooled;
    s.(pools := s.pools[p := s.pools[p].(timer := s.conns[c].pc.ok && arm)],
       conns := s.conns[c := s.conns[c].(pc := Detach)])
  }

  predicate CanConnDetach(s: State, c: Id) {
    && c in s.conns && s.conns[c].pc.Detach? && s.conns[c].thr.Some?
    && s.conns[c].thr.value in s.chans
  }

  /** Nothing touches a channel after its last event; any other event still returns into it. */
  function DoConnDetach(s: State, c: Id): State
    requires CanConnDetach(s, c)
  {
    var h := s.conns[c].thr.value;
    s.(sh := MoveToDestroying(s.sh, c),
       conns := s.conns[c := s.conns[c].(thr := None, pc := Doomed)],
       chans := s.chans[h := s.chans[h].(busy := if s.chans[h].st.EndedConn? then Free else Leaving)])
  }

  predicate CanConnSwap(s: State, c: Id) {
    c in s.conns && s.conns[c].pc.AdoptSwap?
  }

  /** `OnChannelAdoptFailed`: a fresh channel replaces the lost one. */
  function DoConnSwap(s: State, c: Id): State
    requires CanConnSwap(s, c)
  {
    s.(conns := s.conns[c := s.conns[c].(chan := Some(s.next), pc := AdoptOpen(s.sh.closing))],
       chans := s.chans[s.next := Chan(Unopened(c), Free, true)],
       next := s.next + 1)
  }

  predicate CanConnReopen(s: State, c: Id) {
    && c in s.conns && s.conns[c].pc.AdoptOpen? && s.conns[c].chan.Some? && s.conns[c].thr.Some?
    && s.conns[c].chan.value in s.chans && s.conns[c].thr.value in s.chans
  }

  function DoConnReopen(s: State, c: Id): State
    requires CanConnReopen(s, c)
  {
    var k := s.conns[c];
    var chans := s.chans[k.chan.value := s.chans[k.chan.value].(st := Attached(c))];
    s.(conns := s.conns[c := k.(pc := Live, thr := None)],
       chans := chans[k.thr.value := chans[k.thr.value].(busy := ByTail(c))])
  }

  function DoConnReopenFail(s: State, c: Id): State
    requires CanConnReopen(s, c)
  {
    s.(conns := s.conns[c := s.conns[c].(failed := true, pc := Deliver(ThenDestroy))])
  }

  // Posted tasks and callback frames

  predicate CanTaskConn(s: State, c: Id, t: Id) {
    c in s.conns && s.conns[c].pc.Doomed? && ThreadFree(s, t)
  }

  /** Delete the connection with its channel, then `_DetachAndArmClosed`. */
  function DoTaskConn(s: State, c: Id, t: Id): State
    requires CanTaskConn(s, c, t)
  {
    WithClosed(s.(conns := s.conns[c := s.conns[c].(pc := Finished)],
                  chans := KillChan(s.chans, s.conns[c].chan)),
               DetachAndArm(s.sh, c), t)
  }

  predicate CanTaskPooled(s: State, p: Id, t: Id) {
    p in s.pools && s.pools[p].pc == Sched(TerminalClosed) && ThreadFree(s, t)
  }

  /** Delete the channel and its watcher, then `_FinishIdleDestroyAndMaybeNotify`. */
  function DoTaskPooled(s: State, p: Id, t: Id): State
    requires CanTaskPooled(s, p, t)
  {
    WithClosed(s.(pools := s.pools[p := s.pools[p].(pc := Gone(TerminalClosed))],
                  chans := KillChan(s.chans, Some(s.pools[p].chan)),
                  counted := s.counted - {p}),
               FinishIdle(s.sh), t)
  }

  predicate CanTaskWatcher(s: State, p: Id) {
    p in s.pools && s.pools[p].pc == Sched(TerminalDetached)
  }

  /** Delete the watcher only: the channel belongs to the adopter. */
  function DoTaskWatcher(s: State, p: Id): State
    requires CanTaskWatcher(s, p)
  {
    s.(pools := s.pools[p := s.pools[p].(pc := Gone(TerminalDetached))])
  }

  /** A callback returns after the calls it has made. */
  predicate CanCallReturn(s: State, f: Id) {
    && f in s.frames && !s.frames[f].popped
    && (forall r | r in s.nested && r in s.reqs && s.nested[r] == f :: HasReturned(s.reqs[r].pc))
    && (ThreadFree(s, s.frames[f].thread) || (s.dtor.CloseCall? && s.dtor.f == Some(f)))
  }

  function DoCallReturn(s: State, f: Id): State
    requires CanCallReturn(s, f)
  {
    s.(frames := s.frames[f := s.frames[f].(popped := true)])
  }

  predicate CanGuardDrop(s: State, f: Id) {
    f in s.frames && s.frames[f].popped
  }

  function DoGuardDrop(s: State, f: Id): State
    requires CanGuardDrop(s, f)
  {
    s.(frames := s.frames - {f},
       sh := s.sh.(inFlight := if s.sh.inFlight > 0 then s.sh.inFlight - 1 else 0))
  }

  // ----- the transition relation -----------------------------------------------------------

  predicate CanReq(s: State, a: ReqStep) {
    match a
    case ReqBegin(_, from) => CanReqBegin(s, from)
    case ReqTake(r) => CanReqTake(s, r) && Hits(s, r)
    case ReqTakeNone(r) => CanReqTake(s, r) && !Hits(s, r)
    case ReqRefuse(r) => CanReqInsert(s, r) && s.sh.closing
    case ReqGiveBack(r) => CanReqInsertOn(s, r) && s.sh.closing
    case ReqInsert(r) => CanReqInsert(s, r) && !s.sh.closing
    case ReqInsertOn(r) => CanReqInsertOn(s, r) && !s.sh.closing
    case ReqOpen(r) => CanReqOpen(s, r)
    case ReqOpenFail(r, t) => CanReqOpen(s, r) && ThreadFree(s, t)
    case ReqAdopt(r) => CanReqAdopt(s, r) && AdoptAccepted(s, r)
    case ReqAdoptFail(r, t) => CanReqAdopt(s, r) && ThreadFree(s, t)
    case ReqRelease(r) => CanReqRelease(s, r)
    case ReqRetry(r) => CanReqRetry(s, r)
    case ReqCheck(r) => r in s.reqs && s.reqs[r].pc.Check?
  }

  function DoReq(s: State, a: ReqStep): State
    requires CanReq(s, a)
  {
    match a
    case ReqBegin(cfg, from) => DoReqBegin(s, PoolKey(cfg), from)
    case ReqTake(r) => DoReqTake(s, r)
    case ReqTakeNone(r) => DoReqTakeNone(s, r)
    case ReqRefuse(r) => SetReq(s, r, ReturnedError)
    case ReqGiveBack(r) => DoReqGiveBack(s, r)
    case ReqInsert(r) => DoReqInsert(s, r)
    case ReqInsertOn(r) => DoReqInsertOn(s, r)
    case ReqOpen(r) => DoReqOpen(s, r)
    case ReqOpenFail(r, t) => DoReqOpenFail(s, r, t)
    case ReqAdopt(r) => DoReqAdopt(s, r)
    case ReqAdoptFail(r, t) => DoReqAdoptFail(s, r, t)
    case ReqRelease(r) => DoReqRelease(s, r)
    case ReqRetry(r) => DoReqRetry(s, r)
    case ReqCheck(r) => SetReq(s, r, ReturnedOk(s.reqs[r].pc.c))
  }

  predicate CanClose(s: State, a: CloseStep) {
    match a
    case CloseBegin => !s.dtor.Returned?
    case CloseFinish(k, t) => k in s.closers && ThreadFree(s, t)
    case DtorBegin(t) => CanDtorBegin(s, t)
    case DtorNotify => s.dtor.CloseNotify?
    case DtorWait => CanDtorWait(s)
    case DtorDrained => s.dtor.WaitDrain? && DtorPred(s)
    case DtorTimeout => s.dtor.WaitDrain? && !DtorPred(s)
    case DtorCut => CanDtorCut(s)
  }

  function DoClose(s: State, a: CloseStep): State
    requires CanClose(s, a)
  {
    match a
    case CloseBegin => DoCloseBegin(s)
    case CloseFinish(k, t) => DoCloseFinish(s, k, t)
    case DtorBegin(t) => DoDtorBegin(s, t)
    case DtorNotify => DoDtorNotify(s)
    case DtorWait => DoDtorWait(s)
    case DtorDrained => DoDtorReturn(s)
    case DtorTimeout => DoDtorTimeout(s)
    case DtorCut => DoDtorReturn(s)
  }

  predicate CanChan(s: State, a: ChanStep) {
    match a
    case ConnData(c, done, failed) => CanConnEvent(s, c)
    case ConnKeep(c) => CanConnKeep(s, c)
    case ChanCloseConn(h) => CanChanCloseConn(s, h)
    case ChanClosePool(h) => CanChanClosePool(s, h)
    case ChanAdoptOk(h) => CanChanAdopt(s, h)
    case ChanAdoptFail(h) => CanChanAdopt(s, h)
    case TimerFire(p) => CanTimerFire(s, p)
    case StrandReturn(h) => h in s.chans && s.chans[h].busy == Leaving
  }

  function DoChan(s: State, a: ChanStep): State
    requires CanChan(s, a)
  {
    match a
    case ConnData(c, done, failed) => DoConnData(s, c, done, failed)
    case ConnKeep(c) => DoConnKeep(s, c)
    case ChanCloseConn(h) => DoChanCloseConn(s, h)
    case ChanClosePool(h) => DoChanClosePool(s, h)
    case ChanAdoptOk(h) => DoChanAdoptOk(s, h)
    case ChanAdoptFail(h) => DoChanAdoptFail(s, h)
    case TimerFire(p) => DoTimerFire(s, p)
    case StrandReturn(h) => SetBusy(s, h, Free)
  }

  predicate CanConn(s: State, a: ConnStep) {
    match a
    case ConnMute(c, finish) => CanConnMute(s, c, finish)
    case ConnDeliver(c, finish, t) => CanConnTell(s, c, finish, t)
    case ConnAfterCall(c) => CanConnAfterCall(s, c)
    case ConnPool(c) => CanConnPool(s, c)
    case ConnPoolArm(c, arm) => CanConnPoolArm(s, c)
    case ConnDetach(c) => CanConnDetach(s, c)
    case ConnSwap(c) => CanConnSwap(s, c)
    case ConnReopen(c) => CanConnReopen(s, c) && !s.conns[c].pc.closing
    case ConnReopenFail(c) => CanConnReopen(s, c)
    case ConnTail(h) => h in s.chans && s.chans[h].busy.ByTail?
  }

  function DoConn(s: State, a: ConnStep): State
    requires CanConn(s, a)
  {
    match a
    case ConnMute(c, finish) => DoConnMute(s, c, finish)
    case ConnDeliver(c, finish, t) => DoConnDeliver(s, c, finish, t)
    case ConnAfterCall(c) => DoConnAfterCall(s, c)
    case ConnPool(c) => DoConnPool(s, c)
    case ConnPoolArm(c, arm) => DoConnPoolArm(s, c, arm)
    case ConnDetach(c) => DoConnDetach(s, c)
    case ConnSwap(c) => DoConnSwap(s, c)
    case ConnReopen(c) => DoConnReopen(s, c)
    case ConnReopenFail(c) => DoConnReopenFail(s, c)
    case ConnTail(h) => SetBusy(s, h, Leaving)
  }

  predicate CanPost(s: State, a: PostStep) {
    match a
    case TaskConn(c, t) => CanTaskConn(s, c, t)
    case TaskPooled(p, t) => CanTaskPooled(s, p, t)
    case TaskWatcher(p) => CanTaskWatcher(s, p)
    case CallReturn(f) => CanCallReturn(s, f)
    case GuardDrop(f) => CanGuardDrop(s, f)
  }

  function DoPost(s: State, a: PostStep): State
    requires CanPost(s, a)
  {
    match a
    case TaskConn(c, t) => DoTaskConn(s, c, t)
    case TaskPooled(p, t) => DoTaskPooled(s, p, t)
    case TaskWatcher(p) => DoTaskWatcher(s, p)
    case CallReturn(f) => DoCallReturn(s, f)
    case GuardDrop(f) => DoGuardDrop(s, f)
  }

  predicate Enabled(s: State, a: Step) {
    match a
    case OfReq(b) => CanReq(s, b)
    case OfClose(b) => CanClose(s, b)
    case OfChan(b) => CanChan(s, b)
    case OfConn(b) => CanConn(s, b)
    case OfPost(b) => CanPost(s, b)
  }

  function Next(s: State, a: Step): State
    requires Enabled(s, a)
  {
    match a
    case OfReq(b) => DoReq(s, b)
    case OfClose(b) => DoClose(s, b)
    case OfChan(b) => DoChan(s, b)
    case OfConn(b) => DoConn(s, b)
    case OfPost(b) => DoPost(s, b)
  }
}
