/** What gets into the pool, and what comes out of it: only the channel of a message that is complete
    and has not failed is parked, and a call gives up only for closing or for a failed `Open`. */
module LifecyclePool {
  import opened Wrappers
  import opened ConnectorState
  import opened PoolKeys
  import opened Lifecycle
  import opened LifecycleInvariant
  import opened LifecycleTheorems

  /** The connection is on its way to give its channel back. */
  predicate ToBeParked(pc: ConnPc) {
    pc.ToPool? || Bound(pc, ThenPool)
  }

  predicate Complete(s: State, c: Id)
    requires c in s.conns
  {
    ToBeParked(s.conns[c].pc) ==> s.conns[c].done && !s.conns[c].failed && s.sh.maxIdle > 0
  }

  ghost predicate Completes(s: State) {
    forall c {:trigger AtConn(c)} :: AtConn(c) && c in s.conns ==> Complete(s, c)
  }

  lemma ReqCompletes(s: State, a: ReqStep)
    requires Completes(s) && CanReq(s, a)
    ensures Completes(DoReq(s, a))
  {
  }

  lemma CloseCompletes(s: State, a: CloseStep)
    requires Completes(s) && CanClose(s, a)
    ensures Completes(DoClose(s, a))
  {
  }

  lemma ChanCompletes(s: State, a: ChanStep)
    requires Completes(s) && CanChan(s, a)
    ensures Completes(DoChan(s, a))
  {
  }

  lemma ConnCompletes(s: State, a: ConnStep)
    requires Completes(s) && CanConn(s, a)
    ensures Completes(DoConn(s, a))
  {
  }

  lemma PostCompletes(s: State, a: PostStep)
    requires Completes(s) && CanPost(s, a)
    ensures Completes(DoPost(s, a))
  {
  }

  lemma {:induction false} RunCompletes(s: State, run: seq<Step>)
    requires Completes(s) && CanRun(s, run)
    ensures Completes(Run(s, run))
    decreases run
  {
    if run != [] {
      match run[0] {
        case OfReq(b) => ReqCompletes(s, b);
        case OfClose(b) => CloseCompletes(s, b);
        case OfChan(b) => ChanCompletes(s, b);
        case OfConn(b) => ConnCompletes(s, b);
        case OfPost(b) => PostCompletes(s, b);
      }
      RunCompletes(Next(s, run[0]), run[1..]);
    }
  }

  /** In every run, a connection that gives its channel to the pool has a complete message and no
      failure behind it, and has delivered it or was told not to; the channel is its own and open. */
  lemma ParksComplete(s: State, c: Id)
    requires Reachable(s) && CanConnPool(s, c)
    ensures s.conns[c].done && !s.conns[c].failed && s.conns[c].delivered && s.sh.maxIdle > 0
    ensures var h := s.conns[c].chan.value; s.chans[h].st == Attached(c) && s.chans[h].alive
  {
    var strict, handler, maxIdle, run :|
      CanRun(Initial(strict, handler, maxIdle), run) && Run(Initial(strict, handler, maxIdle), run) == s;
    RunCompletes(Initial(strict, handler, maxIdle), run);
    ReachableInv(s);
    assert AtConn(c) && AtChan(s.conns[c].chan.value);
  }

  /** Whether it is parked is up to the pool alone, and if it is, the next call with its key takes it. */
  lemma ParkedIsTaken(s: State, c: Id)
    requires Reachable(s) && CanConnPool(s, c)
    ensures var s' := DoConnPool(s, c);
            var key := s.reqs[s.conns[c].req].key;
            && (s'.pools[s.next].inIdle <==> HasRoom(s.sh, key))
            && (HasRoom(s.sh, key) ==> TakeFromPool(s'.sh, key) == (s.sh, Some(s.next)))
            && s'.chans[s.conns[c].chan.value].st == Parked(s.next)
            && s'.pools[s.next].chan == s.conns[c].chan.value
            && s'.conns[c].pc == PoolArm(s.next, HasRoom(s.sh, key))
  {
    ReachableInv(s);
    var key := s.reqs[s.conns[c].req].key;
    if key in s.sh.idle {
      assert IdleOk(s, key);
    }
    PutThenTake(s.sh, key, s.next, key + [0]);
  }

  /** What was parked gets its idle timer, what was not gets none and is closed. */
  lemma TimerArmed(s: State, c: Id, arm: bool)
    requires CanConn(s, ConnPoolArm(c, arm))
    ensures DoConn(s, ConnPoolArm(c, arm)).pools[s.conns[c].pc.pooled].timer <==> s.conns[c].pc.ok && arm
  {
  }

  /** With the pool on, a call looks into it first, under the key of its own target. */
  lemma LooksIntoPool(s: State, cfg: Target, from: Option<Id>)
    requires CanReqBegin(s, from)
    ensures var s' := DoReq(s, ReqBegin(cfg, from));
            && s'.sh == s.sh && s'.pools == s.pools && s.next in s'.reqs
            && s'.reqs[s.next].key == PoolKey(cfg)
            && s'.reqs[s.next].pc == if s.sh.maxIdle > 0 then Take else Insert(None)
  {
  }

  /** It goes on with the channel that was parked last under its key, or without one if there is none. */
  lemma TakesLastParked(s: State, r: Id)
    requires Idles(s) && CanReqTake(s, r)
    ensures var key := s.reqs[r].key;
            && (key in s.sh.idle ==>
                  && s.sh.idle[key] != [] && CanReq(s, ReqTake(r)) && !CanReq(s, ReqTakeNone(r))
                  && DoReqTake(s, r).reqs[r].pc == Insert(Some(s.sh.idle[key][|s.sh.idle[key]| - 1])))
            && (key !in s.sh.idle ==>
                  && CanReq(s, ReqTakeNone(r)) && !CanReq(s, ReqTake(r))
                  && DoReqTakeNone(s, r).reqs[r].pc == Insert(None))
  {
    if s.reqs[r].key in s.sh.idle {
      assert IdleOk(s, s.reqs[r].key);
    }
  }

  predicate HasFailed(s: State, r: Id) {
    r in s.reqs && s.reqs[r].pc == ReturnedError
  }

  lemma ReqFails(s: State, a: ReqStep, r: Id)
    requires CanReq(s, a) && r in s.reqs
    ensures HasFailed(DoReq(s, a), r) && !HasFailed(s, r) ==> s.sh.closing || (a.ReqOpenFail? && a.r == r)
  {
  }

  lemma CloseFails(s: State, a: CloseStep, r: Id)
    requires CanClose(s, a)
    ensures HasFailed(DoClose(s, a), r) ==> HasFailed(s, r)
  {
  }

  lemma ChanFails(s: State, a: ChanStep, r: Id)
    requires CanChan(s, a)
    ensures HasFailed(DoChan(s, a), r) ==> HasFailed(s, r)
  {
  }

  lemma ConnFails(s: State, a: ConnStep, r: Id)
    requires CanConn(s, a)
    ensures HasFailed(DoConn(s, a), r) ==> HasFailed(s, r)
  {
  }

  lemma PostFails(s: State, a: PostStep, r: Id)
    requires CanPost(s, a)
    ensures HasFailed(DoPost(s, a), r) ==> HasFailed(s, r)
  {
  }

  /** No call fails but for a connector that is closing or for its own `Open`: a channel that cannot be
      adopted is given up for a fresh one. */
  lemma FailsOnlyFor(s: State, a: Step, r: Id)
    requires Enabled(s, a) && r in s.reqs && !HasFailed(s, r) && HasFailed(Next(s, a), r)
    ensures s.sh.closing || (a.OfReq? && a.req.ReqOpenFail? && a.req.r == r)
  {
    match a
    case OfReq(b) => ReqFails(s, b, r);
    case OfClose(b) => CloseFails(s, b, r);
    case OfChan(b) => ChanFails(s, b, r);
    case OfConn(b) => ConnFails(s, b, r);
    case OfPost(b) => PostFails(s, b, r);
  }

  /** A connection that has lost its channel before the adoption opens a channel anew exactly if the
      connector was not closing when it looked. */
  lemma ReopensUnlessClosing(s: State, c: Id)
    requires Reachable(s) && CanConnSwap(s, c)
    ensures var s' := Next(s, OfConn(ConnSwap(c)));
            && CanConn(s', ConnReopenFail(c))
            && (CanConn(s', ConnReopen(c)) <==> !s.sh.closing)
  {
    ReachableInv(s);
    assert AtConn(c);
  }
}
