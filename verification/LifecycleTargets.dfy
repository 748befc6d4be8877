/** Where a request's channel leads: in every run, the channel that a `Request` adopts was opened for
    a call that came with the same pool key, and with usual hosts for the same target. */
module LifecycleTargets {
  import opened Wrappers
  import opened ConnectorState
  import opened PoolKeys
  import opened Lifecycle
  import opened LifecycleInvariant
  import opened LifecycleTheorems

  /** What the steps of a run say: the target that each `Request` call came with, the call that
      started a connection, and the call that a channel was opened for. */
  datatype History = History(came: map<Id, Target>, starter: map<Id, Id>, opener: map<Id, Id>)

  const NoHistory := History(map[], map[], map[])

  /** A step of a call writes down the call's id; a connection that opens a channel anew does it with
      what it was started with. */
  function Noted(h: History, s: State, a: Step): History
    requires Enabled(s, a)
  {
    match a
    case OfReq(ReqBegin(cfg, _)) => h.(came := h.came[s.next := cfg])
    case OfReq(ReqOpen(r)) =>
      var c := s.reqs[r].pc.c;
      h.(starter := h.starter[c := r], opener := h.opener[s.conns[c].chan.value := r])
    case OfReq(ReqAdopt(r)) => h.(starter := h.starter[s.reqs[r].pc.c := r])
    case OfConn(ConnReopen(c)) =>
      if c in h.starter then h.(opener := h.opener[s.conns[c].chan.value := h.starter[c]]) else h
    case _ => h
  }

  ghost function Noting(h: History, s: State, run: seq<Step>): History
    requires CanRun(s, run)
    decreases run
  {
    if run == [] then h else Noting(Noted(h, s, run[0]), Next(s, run[0]), run[1..])
  }

  /** The key of a call, as its first step gave it. */
  predicate CameFor(h: History, r: Id, key: Key) {
    r in h.came && PoolKey(h.came[r]) == key
  }

  /** The channel was opened for a call with this key. */
  predicate OpenedFor(h: History, x: Id, key: Key) {
    x in h.opener && CameFor(h, h.opener[x], key)
  }

  predicate Begun(pc: ConnPc) {
    !pc.Starting? && !pc.Finished?
  }

  // ----- the invariant -----------------------------------------------------------------------

  ghost predicate ReqsCame(s: State, h: History) {
    && h.came.Keys <= s.reqs.Keys
    && (forall r {:trigger AtReq(r)} :: AtReq(r) && r in s.reqs ==> CameFor(h, r, s.reqs[r].key))
  }

  ghost predicate ConnsStarted(s: State, h: History) {
    forall c {:trigger AtConn(c)} :: AtConn(c) && c in s.conns && Begun(s.conns[c].pc) ==>
      c in h.starter && h.starter[c] == s.conns[c].req
  }

  /** A call holds channels of its own key only. */
  ghost predicate KeysMatch(s: State) {
    forall r {:trigger AtReq(r)} :: AtReq(r) && r in s.reqs && Borrowed(s.reqs[r].pc).Some? ==>
      var p := Borrowed(s.reqs[r].pc).value;
      p in s.pools && s.pools[p].key == s.reqs[r].key
  }

  ghost predicate PoolsOpened(s: State, h: History) {
    forall p {:trigger AtPool(p)} :: AtPool(p) && p in s.pools && s.pools[p].pc.Waiting? ==>
      OpenedFor(h, s.pools[p].chan, s.pools[p].key)
  }

  /** The connection that a channel serves, or will serve once it is adopted. */
  function Served(st: ChanSt): Option<Id> {
    match st
    case Attached(c) => Some(c)
    case AdoptPosted(_, c) => Some(c)
    case _ => None
  }

  ghost predicate ChanOpened(s: State, h: History, x: Id)
    requires x in s.chans
  {
    Served(s.chans[x].st).Some? ==>
      var c := Served(s.chans[x].st).value;
      c in s.conns && s.conns[c].req in s.reqs && OpenedFor(h, x, s.reqs[s.conns[c].req].key)
  }

  ghost predicate ChansOpened(s: State, h: History) {
    forall x {:trigger AtChan(x)} :: AtChan(x) && x in s.chans ==> ChanOpened(s, h, x)
  }

  ghost predicate TargetsOk(s: State, h: History) {
    ReqsCame(s, h) && ConnsStarted(s, h) && KeysMatch(s) && PoolsOpened(s, h) && ChansOpened(s, h)
  }

  // ----- the steps that open, lend and park --------------------------------------------------

  lemma OpenPools(s: State, h: History, a: ReqStep)
    requires Objects(s) && ReqsCame(s, h) && ConnsStarted(s, h) && PoolsOpened(s, h) && ChansOpened(s, h)
    requires CanReq(s, a) && a.ReqOpen?
    ensures PoolsOpened(DoReq(s, a), Noted(h, s, OfReq(a)))
  {
    assert AtReq(a.r);
  }

  lemma OpenChans(s: State, h: History, a: ReqStep)
    requires Objects(s) && TargetsOk(s, h) && CanReq(s, a) && a.ReqOpen?
    ensures ChansOpened(DoReq(s, a), Noted(h, s, OfReq(a)))
  {
    assert AtReq(a.r);
  }

  lemma AdoptChans(s: State, h: History, a: ReqStep)
    requires Objects(s) && TargetsOk(s, h) && CanReq(s, a) && a.ReqAdopt?
    ensures ChansOpened(DoReq(s, a), Noted(h, s, OfReq(a)))
  {
    assert AtReq(a.r) && AtPool(s.reqs[a.r].pc.b.value);
    assert AtChan(s.pools[s.reqs[a.r].pc.b.value].chan);
  }

  lemma AdoptedChans(s: State, h: History, a: ChanStep)
    requires Objects(s) && TargetsOk(s, h) && CanChan(s, a) && (a.ChanAdoptOk? || a.ChanAdoptFail?)
    ensures ChansOpened(DoChan(s, a), Noted(h, s, OfChan(a)))
  {
    assert AtChan(a.h) && AtPool(s.chans[a.h].st.pooled);
  }

  lemma ParkPools(s: State, h: History, a: ConnStep)
    requires Objects(s) && ReqsCame(s, h) && ConnsStarted(s, h) && PoolsOpened(s, h) && ChansOpened(s, h)
    requires CanConn(s, a) && a.ConnPool?
    ensures PoolsOpened(DoConn(s, a), Noted(h, s, OfConn(a)))
  {
    assert AtConn(a.c);
    assert AtChan(s.conns[a.c].chan.value);
  }

  lemma ReopenPools(s: State, h: History, a: ConnStep)
    requires Objects(s) && ReqsCame(s, h) && ConnsStarted(s, h) && PoolsOpened(s, h) && ChansOpened(s, h)
    requires CanConn(s, a) && a.ConnReopen?
    ensures PoolsOpened(DoConn(s, a), Noted(h, s, OfConn(a)))
  {
    assert AtConn(a.c);
  }

  lemma ReopenChans(s: State, h: History, a: ConnStep)
    requires Objects(s) && TargetsOk(s, h) && CanConn(s, a) && a.ConnReopen?
    ensures ChansOpened(DoConn(s, a), Noted(h, s, OfConn(a)))
  {
    assert AtConn(a.c) && AtReq(s.conns[a.c].req);
  }

  // ----- every step keeps it -----------------------------------------------------------------

  lemma ReqCame(s: State, h: History, a: ReqStep)
    requires Below(s) && ReqsCame(s, h) && CanReq(s, a)
    ensures ReqsCame(DoReq(s, a), Noted(h, s, OfReq(a)))
  {
  }

  lemma ReqStartersFresh(s: State, h: History, a: ReqStep)
    requires Objects(s) && ConnsStarted(s, h) && CanReq(s, a)
    requires a.ReqBegin? || a.ReqTake? || a.ReqTakeNone? || a.ReqInsert? || a.ReqInsertOn?
    ensures ConnsStarted(DoReq(s, a), Noted(h, s, OfReq(a)))
  {
  }

  lemma ReqStartersEnds(s: State, h: History, a: ReqStep)
    requires Objects(s) && ConnsStarted(s, h) && CanReq(s, a)
    requires a.ReqRefuse? || a.ReqGiveBack? || a.ReqRelease? || a.ReqRetry? || a.ReqCheck?
    ensures ConnsStarted(DoReq(s, a), Noted(h, s, OfReq(a)))
  {
  }

  lemma ReqStartersStarts(s: State, h: History, a: ReqStep)
    requires Objects(s) && ConnsStarted(s, h) && CanReq(s, a)
    requires a.ReqOpen? || a.ReqOpenFail? || a.ReqAdopt? || a.ReqAdoptFail?
    ensures ConnsStarted(DoReq(s, a), Noted(h, s, OfReq(a)))
  {
    assert AtReq(a.r);
  }

  lemma ReqStarters(s: State, h: History, a: ReqStep)
    requires Objects(s) && ConnsStarted(s, h) && CanReq(s, a)
    ensures ConnsStarted(DoReq(s, a), Noted(h, s, OfReq(a)))
  {
    if a.ReqBegin? || a.ReqTake? || a.ReqTakeNone? || a.ReqInsert? || a.ReqInsertOn? {
      ReqStartersFresh(s, h, a);
    } else if a.ReqRefuse? || a.ReqGiveBack? || a.ReqRelease? || a.ReqRetry? || a.ReqCheck? {
      ReqStartersEnds(s, h, a);
    } else {
      ReqStartersStarts(s, h, a);
    }
  }

  lemma ReqMatchesFresh(s: State, a: ReqStep)
    requires Below(s) && KeysMatch(s) && CanReq(s, a)
    requires a.ReqBegin? || a.ReqInsert? || a.ReqInsertOn?
    ensures KeysMatch(DoReq(s, a))
  {
  }

  lemma ReqMatchesTakes(s: State, a: ReqStep)
    requires Idles(s) && KeysMatch(s) && CanReq(s, a)
    requires a.ReqTake? || a.ReqTakeNone?
    ensures KeysMatch(DoReq(s, a))
  {
    if s.reqs[a.r].key in s.sh.idle {
      assert IdleOk(s, s.reqs[a.r].key);
    }
  }

  lemma ReqMatchesEnds(s: State, a: ReqStep)
    requires Below(s) && KeysMatch(s) && CanReq(s, a)
    requires a.ReqRefuse? || a.ReqGiveBack? || a.ReqRelease? || a.ReqRetry? || a.ReqCheck?
    ensures KeysMatch(DoReq(s, a))
  {
  }

  lemma ReqMatchesStarts(s: State, a: ReqStep)
    requires Below(s) && KeysMatch(s) && CanReq(s, a)
    requires a.ReqOpen? || a.ReqOpenFail? || a.ReqAdopt? || a.ReqAdoptFail?
    ensures KeysMatch(DoReq(s, a))
  {
  }

  lemma ReqMatches(s: State, a: ReqStep)
    requires Objects(s) && KeysMatch(s) && CanReq(s, a)
    ensures KeysMatch(DoReq(s, a))
  {
    if a.ReqBegin? || a.ReqInsert? || a.ReqInsertOn? {
      ReqMatchesFresh(s, a);
    } else if a.ReqTake? || a.ReqTakeNone? {
      ReqMatchesTakes(s, a);
    } else if a.ReqRefuse? || a.ReqGiveBack? || a.ReqRelease? || a.ReqRetry? || a.ReqCheck? {
      ReqMatchesEnds(s, a);
    } else {
      ReqMatchesStarts(s, a);
    }
  }

  lemma ReqPoolsOpenFresh(s: State, h: History, a: ReqStep)
    requires Objects(s) && ReqsCame(s, h) && ConnsStarted(s, h) && PoolsOpened(s, h) && ChansOpened(s, h)
    requires CanReq(s, a)
    requires a.ReqBegin? || a.ReqTake? || a.ReqTakeNone? || a.ReqInsert? || a.ReqInsertOn?
    ensures PoolsOpened(DoReq(s, a), Noted(h, s, OfReq(a)))
  {
  }

  lemma ReqPoolsOpenEnds(s: State, h: History, a: ReqStep)
    requires Objects(s) && ReqsCame(s, h) && ConnsStarted(s, h) && PoolsOpened(s, h) && ChansOpened(s, h)
    requires CanReq(s, a)
    requires a.ReqRefuse? || a.ReqGiveBack? || a.ReqRelease? || a.ReqRetry? || a.ReqCheck?
    ensures PoolsOpened(DoReq(s, a), Noted(h, s, OfReq(a)))
  {
  }

  lemma ReqPoolsOpenStarts(s: State, h: History, a: ReqStep)
    requires Objects(s) && ReqsCame(s, h) && ConnsStarted(s, h) && PoolsOpened(s, h) && ChansOpened(s, h)
    requires CanReq(s, a)
    requires a.ReqOpen? || a.ReqOpenFail? || a.ReqAdopt? || a.ReqAdoptFail?
    ensures PoolsOpened(DoReq(s, a), Noted(h, s, OfReq(a)))
  {
    if a.ReqOpen? {
      OpenPools(s, h, a);
    }
  }

  lemma ReqPoolsOpen(s: State, h: History, a: ReqStep)
    requires Objects(s) && ReqsCame(s, h) && ConnsStarted(s, h) && PoolsOpened(s, h) && ChansOpened(s, h)
    requires CanReq(s, a)
    ensures PoolsOpened(DoReq(s, a), Noted(h, s, OfReq(a)))
  {
    if a.ReqBegin? || a.ReqTake? || a.ReqTakeNone? || a.ReqInsert? || a.ReqInsertOn? {
      ReqPoolsOpenFresh(s, h, a);
    } else if a.ReqRefuse? || a.ReqGiveBack? || a.ReqRelease? || a.ReqRetry? || a.ReqCheck? {
      ReqPoolsOpenEnds(s, h, a);
    } else {
      ReqPoolsOpenStarts(s, h, a);
    }
  }

  lemma ReqChansOpenFresh(s: State, h: History, a: ReqStep)
    requires Objects(s) && TargetsOk(s, h) && CanReq(s, a)
    requires a.ReqBegin? || a.ReqTake? || a.ReqTakeNone?
    ensures ChansOpened(DoReq(s, a), Noted(h, s, OfReq(a)))
  {
  }

  lemma ReqChansOpenInserts(s: State, h: History, a: ReqStep)
    requires Objects(s) && TargetsOk(s, h) && CanReq(s, a)
    requires a.ReqInsert? || a.ReqInsertOn?
    ensures ChansOpened(DoReq(s, a), Noted(h, s, OfReq(a)))
  {
  }

  lemma ReqChansOpenEnds(s: State, h: History, a: ReqStep)
    requires Objects(s) && TargetsOk(s, h) && CanReq(s, a)
    requires a.ReqRefuse? || a.ReqGiveBack? || a.ReqRelease? || a.ReqRetry? || a.ReqCheck?
    ensures ChansOpened(DoReq(s, a), Noted(h, s, OfReq(a)))
  {
  }

  lemma ReqChansOpenFails(s: State, h: History, a: ReqStep)
    requires Objects(s) && TargetsOk(s, h) && CanReq(s, a)
    requires a.ReqOpenFail? || a.ReqAdoptFail?
    ensures ChansOpened(DoReq(s, a), Noted(h, s, OfReq(a)))
  {
  }

  lemma ReqChansOpen(s: State, h: History, a: ReqStep)
    requires Objects(s) && TargetsOk(s, h) && CanReq(s, a)
    ensures ChansOpened(DoReq(s, a), Noted(h, s, OfReq(a)))
  {
    if a.ReqBegin? || a.ReqTake? || a.ReqTakeNone? {
      ReqChansOpenFresh(s, h, a);
    } else if a.ReqInsert? || a.ReqInsertOn? {
      ReqChansOpenInserts(s, h, a);
    } else if a.ReqOpen? {
      OpenChans(s, h, a);
    } else if a.ReqAdopt? {
      AdoptChans(s, h, a);
    } else if a.ReqOpenFail? || a.ReqAdoptFail? {
      ReqChansOpenFails(s, h, a);
    } else {
      ReqChansOpenEnds(s, h, a);
    }
  }

  lemma CloseCame(s: State, h: History, a: CloseStep)
    requires Below(s) && ReqsCame(s, h) && CanClose(s, a)
    ensures ReqsCame(DoClose(s, a), Noted(h, s, OfClose(a)))
  {
  }

  lemma CloseStarters(s: State, h: History, a: CloseStep)
    requires Objects(s) && ConnsStarted(s, h) && CanClose(s, a)
    ensures ConnsStarted(DoClose(s, a), Noted(h, s, OfClose(a)))
  {
  }

  lemma CloseMatches(s: State, a: CloseStep)
    requires Below(s) && KeysMatch(s) && CanClose(s, a)
    ensures KeysMatch(DoClose(s, a))
  {
  }

  lemma ClosePoolsOpen(s: State, h: History, a: CloseStep)
    requires Objects(s) && ReqsCame(s, h) && ConnsStarted(s, h) && PoolsOpened(s, h) && ChansOpened(s, h)
    requires CanClose(s, a)
    ensures PoolsOpened(DoClose(s, a), Noted(h, s, OfClose(a)))
  {
  }

  lemma CloseChansOpen(s: State, h: History, a: CloseStep)
    requires Objects(s) && TargetsOk(s, h) && CanClose(s, a)
    ensures ChansOpened(DoClose(s, a), Noted(h, s, OfClose(a)))
  {
  }

  lemma ChanCame(s: State, h: History, a: ChanStep)
    requires Below(s) && ReqsCame(s, h) && CanChan(s, a)
    ensures ReqsCame(DoChan(s, a), Noted(h, s, OfChan(a)))
  {
  }

  lemma ChanStarters(s: State, h: History, a: ChanStep)
    requires Chans(s) && ConnsStarted(s, h) && CanChan(s, a)
    ensures ConnsStarted(DoChan(s, a), Noted(h, s, OfChan(a)))
  {
    match a
    case ChanCloseConn(x) => assert AtChan(x);
    case ChanAdoptFail(x) => assert AtChan(x);
    case _ =>
  }

  lemma ChanMatches(s: State, a: ChanStep)
    requires Below(s) && KeysMatch(s) && CanChan(s, a)
    ensures KeysMatch(DoChan(s, a))
  {
  }

  lemma ChanPoolsOpen(s: State, h: History, a: ChanStep)
    requires Objects(s) && ReqsCame(s, h) && ConnsStarted(s, h) && PoolsOpened(s, h) && ChansOpened(s, h)
    requires CanChan(s, a)
    ensures PoolsOpened(DoChan(s, a), Noted(h, s, OfChan(a)))
  {
  }

  lemma ChanChansOpen(s: State, h: History, a: ChanStep)
    requires Objects(s) && TargetsOk(s, h) && CanChan(s, a)
    ensures ChansOpened(DoChan(s, a), Noted(h, s, OfChan(a)))
  {
    if a.ChanAdoptOk? || a.ChanAdoptFail? {
      AdoptedChans(s, h, a);
    }
  }

  lemma ConnCame(s: State, h: History, a: ConnStep)
    requires Below(s) && ReqsCame(s, h) && CanConn(s, a)
    ensures ReqsCame(DoConn(s, a), Noted(h, s, OfConn(a)))
  {
  }

  lemma ConnStarters(s: State, h: History, a: ConnStep)
    requires Objects(s) && ConnsStarted(s, h) && CanConn(s, a)
    ensures ConnsStarted(DoConn(s, a), Noted(h, s, OfConn(a)))
  {
  }

  lemma ConnMatches(s: State, a: ConnStep)
    requires Below(s) && KeysMatch(s) && CanConn(s, a)
    ensures KeysMatch(DoConn(s, a))
  {
  }

  lemma ConnPoolsOpen(s: State, h: History, a: ConnStep)
    requires Objects(s) && ReqsCame(s, h) && ConnsStarted(s, h) && PoolsOpened(s, h) && ChansOpened(s, h)
    requires CanConn(s, a)
    ensures PoolsOpened(DoConn(s, a), Noted(h, s, OfConn(a)))
  {
    match a
    case ConnPool(c) => ParkPools(s, h, a);
    case ConnReopen(c) => ReopenPools(s, h, a);
    case _ =>
  }

  lemma ConnChansOpenCalls(s: State, h: History, a: ConnStep)
    requires Objects(s) && TargetsOk(s, h) && CanConn(s, a)
    requires a.ConnMute? || a.ConnDeliver? || a.ConnAfterCall? || a.ConnDetach?
    ensures ChansOpened(DoConn(s, a), Noted(h, s, OfConn(a)))
  {
  }

  lemma ConnChansOpenParks(s: State, h: History, a: ConnStep)
    requires Objects(s) && TargetsOk(s, h) && CanConn(s, a)
    requires a.ConnPool? || a.ConnPoolArm?
    ensures ChansOpened(DoConn(s, a), Noted(h, s, OfConn(a)))
  {
  }

  lemma ConnChansOpenOpens(s: State, h: History, a: ConnStep)
    requires Objects(s) && TargetsOk(s, h) && CanConn(s, a)
    requires a.ConnSwap? || a.ConnReopen? || a.ConnReopenFail? || a.ConnTail?
    ensures ChansOpened(DoConn(s, a), Noted(h, s, OfConn(a)))
  {
    if a.ConnReopen? {
      ReopenChans(s, h, a);
    }
  }

  lemma ConnChansOpen(s: State, h: History, a: ConnStep)
    requires Objects(s) && TargetsOk(s, h) && CanConn(s, a)
    ensures ChansOpened(DoConn(s, a), Noted(h, s, OfConn(a)))
  {
    if a.ConnMute? || a.ConnDeliver? || a.ConnAfterCall? || a.ConnDetach? {
      ConnChansOpenCalls(s, h, a);
    } else if a.ConnPool? || a.ConnPoolArm? {
      ConnChansOpenParks(s, h, a);
    } else {
      ConnChansOpenOpens(s, h, a);
    }
  }

  lemma PostCame(s: State, h: History, a: PostStep)
    requires Below(s) && ReqsCame(s, h) && CanPost(s, a)
    ensures ReqsCame(DoPost(s, a), Noted(h, s, OfPost(a)))
  {
  }

  lemma PostStarters(s: State, h: History, a: PostStep)
    requires Objects(s) && ConnsStarted(s, h) && CanPost(s, a)
    ensures ConnsStarted(DoPost(s, a), Noted(h, s, OfPost(a)))
  {
  }

  lemma PostMatches(s: State, a: PostStep)
    requires Below(s) && KeysMatch(s) && CanPost(s, a)
    ensures KeysMatch(DoPost(s, a))
  {
  }

  lemma PostPoolsOpen(s: State, h: History, a: PostStep)
    requires Objects(s) && ReqsCame(s, h) && ConnsStarted(s, h) && PoolsOpened(s, h) && ChansOpened(s, h)
    requires CanPost(s, a)
    ensures PoolsOpened(DoPost(s, a), Noted(h, s, OfPost(a)))
  {
  }

  lemma PostChansOpen(s: State, h: History, a: PostStep)
    requires Objects(s) && TargetsOk(s, h) && CanPost(s, a)
    ensures ChansOpened(DoPost(s, a), Noted(h, s, OfPost(a)))
  {
  }

  lemma StepTargets(s: State, h: History, a: Step)
    requires Objects(s) && TargetsOk(s, h) && Enabled(s, a)
    ensures TargetsOk(Next(s, a), Noted(h, s, a))
  {
    match a
    case OfReq(b) =>
      ReqCame(s, h, b);
      ReqStarters(s, h, b);
      ReqMatches(s, b);
      ReqPoolsOpen(s, h, b);
      ReqChansOpen(s, h, b);
    case OfClose(b) =>
      CloseCame(s, h, b);
      CloseStarters(s, h, b);
      CloseMatches(s, b);
      ClosePoolsOpen(s, h, b);
      CloseChansOpen(s, h, b);
    case OfChan(b) =>
      ChanCame(s, h, b);
      ChanStarters(s, h, b);
      ChanMatches(s, b);
      ChanPoolsOpen(s, h, b);
      ChanChansOpen(s, h, b);
    case OfConn(b) =>
      ConnCame(s, h, b);
      ConnStarters(s, h, b);
      ConnMatches(s, b);
      ConnPoolsOpen(s, h, b);
      ConnChansOpen(s, h, b);
    case OfPost(b) =>
      PostCame(s, h, b);
      PostStarters(s, h, b);
      PostMatches(s, b);
      PostPoolsOpen(s, h, b);
      PostChansOpen(s, h, b);
  }

  // ----- what every run keeps ----------------------------------------------------------------

  lemma {:induction false} RunTargets(s: State, h: History, run: seq<Step>)
    requires Inv(s) && TargetsOk(s, h) && CanRun(s, run)
    ensures TargetsOk(Run(s, run), Noting(h, s, run)) && Inv(Run(s, run))
    decreases run
  {
    if run != [] {
      StepInv(s, run[0]);
      StepTargets(s, h, run[0]);
      RunTargets(Next(s, run[0]), Noted(h, s, run[0]), run[1..]);
    }
  }

  /** The channel was opened for a call whose own first step came with the key of `r`'s own first
      step, and with the same target unless some other target has this key as well. */
  ghost predicate LeadsTo(h: History, x: Id, r: Id) {
    && r in h.came && x in h.opener && h.opener[x] in h.came
    && PoolKey(h.came[h.opener[x]]) == PoolKey(h.came[r])
    && (!Ambiguous(h.came[r]) ==> h.came[h.opener[x]] == h.came[r])
  }

  /** In every run, the channel that a `Request` adopts leads where the call's own target says. */
  lemma AdoptsOwnTarget(strict: bool, handler: bool, maxIdle: nat, run: seq<Step>, r: Id)
    requires CanRun(Initial(strict, handler, maxIdle), run)
    requires CanReq(Run(Initial(strict, handler, maxIdle), run), ReqAdopt(r))
    ensures var s0 := Initial(strict, handler, maxIdle);
            var s := Run(s0, run);
            LeadsTo(Noting(NoHistory, s0, run), s.pools[s.reqs[r].pc.b.value].chan, r)
  {
    var s0 := Initial(strict, handler, maxIdle);
    InitialInv(strict, handler, maxIdle);
    RunTargets(s0, NoHistory, run);
    var s := Run(s0, run);
    assert AtReq(r) && AtPool(s.reqs[r].pc.b.value);
  }

  /** In every run, whatever a channel brings is for a connection of a call with the target that the
      channel was opened for: fresh, adopted, or opened anew after a lost adoption. */
  lemma ServesOwnTarget(strict: bool, handler: bool, maxIdle: nat, run: seq<Step>, x: Id)
    requires CanRun(Initial(strict, handler, maxIdle), run)
    requires var s := Run(Initial(strict, handler, maxIdle), run);
             x in s.chans && s.chans[x].st.Attached?
    ensures var s0 := Initial(strict, handler, maxIdle);
            var s := Run(s0, run);
            && s.chans[x].st.conn in s.conns
            && LeadsTo(Noting(NoHistory, s0, run), x, s.conns[s.chans[x].st.conn].req)
  {
    var s0 := Initial(strict, handler, maxIdle);
    InitialInv(strict, handler, maxIdle);
    RunTargets(s0, NoHistory, run);
    var s := Run(s0, run);
    assert AtChan(x);
    assert AtReq(s.conns[s.chans[x].st.conn].req);
  }
}
