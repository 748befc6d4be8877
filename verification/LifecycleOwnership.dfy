/** Every object of the connector is deleted by one owner, once, and every pooled channel schedules
    its own destruction once. */
module LifecycleOwnership {
  import opened Wrappers
  import opened ConnectorState
  import opened PoolKeys
  import opened Lifecycle
  import opened LifecycleInvariant
  import opened LifecycleTheorems

  // ----- each object is deleted once ---------------------------------------------------------

  /** The objects a step calls `delete` on. */
  predicate Deletes(s: State, a: Step, o: Obj)
    requires Enabled(s, a)
  {
    match a
    case OfReq(b) => DeletesReq(s, b, o)
    case OfPost(TaskConn(c, _)) => o in ConnTouch(s, c)
    case OfPost(TaskPooled(p, _)) => o in PooledTouch(s, p)
    case OfPost(TaskWatcher(p)) => o == ThePooled(p)
    case _ => false
  }

  predicate DeletesReq(s: State, a: ReqStep, o: Obj)
    requires CanReq(s, a)
  {
    match a
    case ReqOpenFail(r, _) => o in ConnTouch(s, s.reqs[r].pc.c)
    case ReqAdoptFail(r, _) => o == TheConn(s.reqs[r].pc.c)
    case _ => false
  }

  predicate Dead(s: State, o: Obj) {
    Exists(s, o) && !Alive(s, o)
  }

  lemma ReqFailDeletes(s: State, a: ReqStep, o: Obj)
    requires Objects(s) && CanReq(s, a) && (a.ReqOpenFail? || a.ReqAdoptFail?)
    ensures Dead(DoReq(s, a), o) <==> Dead(s, o) || DeletesReq(s, a, o)
  {
    assert AtReq(a.r);
  }

  lemma ReqReleaseDeletes(s: State, a: ReqStep, o: Obj)
    requires Objects(s) && CanReq(s, a) && (a.ReqGiveBack? || a.ReqRelease? || a.ReqRetry?)
    ensures Dead(DoReq(s, a), o) <==> Dead(s, o)
  {
    assert AtReq(a.r) && AtPool(Borrowed(s.reqs[a.r].pc).value);
  }

  lemma ReqDeletes(s: State, a: ReqStep, o: Obj)
    requires Objects(s) && CanReq(s, a)
    ensures Dead(DoReq(s, a), o) <==> Dead(s, o) || DeletesReq(s, a, o)
  {
    if a.ReqOpenFail? || a.ReqAdoptFail? {
      ReqFailDeletes(s, a, o);
    } else if a.ReqGiveBack? || a.ReqRelease? || a.ReqRetry? {
      ReqReleaseDeletes(s, a, o);
    } else if a.ReqOpen? || a.ReqAdopt? {
      assert AtReq(a.r);
    }
  }

  lemma CloseDeletes(s: State, a: CloseStep, o: Obj)
    requires Objects(s) && CanClose(s, a)
    ensures Dead(DoClose(s, a), o) <==> Dead(s, o)
  {
  }

  lemma ChanDeletes(s: State, a: ChanStep, o: Obj)
    requires Objects(s) && CanChan(s, a)
    ensures Dead(DoChan(s, a), o) <==> Dead(s, o)
  {
    match a
    case ChanClosePool(h) => assert AtChan(h);
    case ChanCloseConn(h) => assert AtChan(h);
    case ChanAdoptOk(h) => assert AtChan(h);
    case ChanAdoptFail(h) => assert AtChan(h);
    case _ =>
  }

  lemma ConnDeletes(s: State, a: ConnStep, o: Obj)
    requires Objects(s) && CanConn(s, a)
    ensures Dead(DoConn(s, a), o) <==> Dead(s, o)
  {
  }

  lemma PostDeletes(s: State, a: PostStep, o: Obj)
    requires Objects(s) && CanPost(s, a)
    ensures Dead(DoPost(s, a), o) <==> Dead(s, o) || Deletes(s, OfPost(a), o)
  {
    match a
    case TaskConn(c, t) => assert AtConn(c);
    case TaskPooled(p, t) => assert AtPool(p);
    case _ =>
  }

  /** What was deleted stays deleted, only `delete` ends a life, and it meets a living object. */
  lemma DeletesOnce(s: State, a: Step, o: Obj)
    requires Inv(s) && Enabled(s, a)
    ensures Dead(Next(s, a), o) <==> Dead(s, o) || Deletes(s, a, o)
    ensures Deletes(s, a, o) ==> Alive(s, o)
  {
    if Deletes(s, a, o) {
      assert Touches(s, a, o);
      TouchesAlive(s, a, o);
    }
    match a
    case OfReq(b) => ReqDeletes(s, b, o);
    case OfClose(b) => CloseDeletes(s, b, o);
    case OfChan(b) => ChanDeletes(s, b, o);
    case OfConn(b) => ConnDeletes(s, b, o);
    case OfPost(b) => PostDeletes(s, b, o);
  }

  /** How often a run deletes `o`. */
  ghost function Deletions(s: State, run: seq<Step>, o: Obj): nat
    requires CanRun(s, run)
    decreases run
  {
    if run == [] then 0
    else (if Deletes(s, run[0], o) then 1 else 0) + Deletions(Next(s, run[0]), run[1..], o)
  }

  lemma {:induction false} DeletionsCounted(s: State, run: seq<Step>, o: Obj)
    requires Inv(s) && CanRun(s, run)
    ensures Deletions(s, run, o) + (if Dead(s, o) then 1 else 0) ==
            (if Dead(Run(s, run), o) then 1 else 0)
    decreases run
  {
    if run != [] {
      StepInv(s, run[0]);
      DeletesOnce(s, run[0], o);
      DeletionsCounted(Next(s, run[0]), run[1..], o);
    }
  }

  /** In every run each connection, watcher and channel is deleted at most once, and exactly once
      if it is dead at the end. */
  lemma DeletedOnceInARun(strict: bool, handler: bool, maxIdle: nat, run: seq<Step>, o: Obj)
    requires CanRun(Initial(strict, handler, maxIdle), run)
    ensures var s := Initial(strict, handler, maxIdle);
            Deletions(s, run, o) == if Dead(Run(s, run), o) then 1 else 0
  {
    InitialInv(strict, handler, maxIdle);
    DeletionsCounted(Initial(strict, handler, maxIdle), run, o);
  }

  // ----- a pooled channel schedules its destruction once -------------------------------------

  function WatchOf(k: Pooled): Watch {
    Watch(k.held, k.pending)
  }

  /** The watcher's methods, which the class `PooledChannel` performs in place, are what the steps
      of the life cycle do to a watcher: its release and its terminal event schedule its deletion
      exactly when the method says so, and a `Request` that takes it holds it. */
  lemma WatcherSteps(s: State, p: Id, how: Terminal)
    requires p in s.pools && how != TerminalNone
    ensures var k := s.pools[p];
            var (w, due) := Released(WatchOf(k));
            var k' := ReleasePooled(s, p).pools[p];
            WatchOf(k') == w && k'.pc == if due == TerminalNone then k.pc else Sched(due)
    ensures var k := s.pools[p];
            var (w, due) := Ended(WatchOf(k), how);
            var k' := EndPooled(s, p, how).pools[p];
            WatchOf(k') == w && k'.pc == if due == TerminalNone then Over(how) else Sched(due)
    ensures forall r | CanReqTake(s, r) && Hits(s, r) ::
              WatchOf(DoReqTake(s, r).pools[p]) ==
              if TakeFromPool(s.sh, s.reqs[r].key).1 == Some(p) then Held(WatchOf(s.pools[p]))
              else WatchOf(s.pools[p])
  {
  }

  predicate Scheduled(s: State, p: Id) {
    p in s.pools && (s.pools[p].pc.Sched? || s.pools[p].pc.Gone?)
  }

  predicate EndSeen(s: State, p: Id) {
    p in s.pools && !s.pools[p].pc.Waiting?
  }

  /** The step posts the delete task of watcher `p`. */
  predicate Posts(s: State, a: Step, p: Id)
    requires Enabled(s, a)
  {
    match a
    case OfChan(b) => Ends(s, b, p) && !s.pools[p].held
    case OfReq(b) => Releases(s, b, p) && s.pools[p].pending != TerminalNone
    case _ => false
  }

  /** The step is the terminal event of the channel that `p` watches. */
  predicate Ends(s: State, a: ChanStep, p: Id)
    requires CanChan(s, a)
  {
    match a
    case ChanClosePool(h) => s.chans[h].st.pooled == p
    case ChanAdoptOk(h) => s.chans[h].st.pooled == p
    case _ => false
  }

  /** The step is the borrower's `Release`. */
  predicate Releases(s: State, a: ReqStep, p: Id)
    requires CanReq(s, a)
  {
    match a
    case ReqGiveBack(r) => s.reqs[r].pc.b.value == p
    case ReqRelease(r) => s.reqs[r].pc.p == p
    case ReqRetry(r) => s.reqs[r].pc.p == p
    case _ => false
  }

  lemma ReqLetsGo(s: State, a: ReqStep, p: Id)
    requires Objects(s) && CanReq(s, a) && (a.ReqGiveBack? || a.ReqRelease? || a.ReqRetry?)
    ensures Scheduled(DoReq(s, a), p) <==> Scheduled(s, p) || Posts(s, OfReq(a), p)
    ensures Posts(s, OfReq(a), p) ==> EndSeen(s, p) && !Scheduled(s, p)
    ensures EndSeen(DoReq(s, a), p) <==> EndSeen(s, p)
  {
    assert AtPool(p) && AtReq(a.r);
  }

  lemma ReqPosts(s: State, a: ReqStep, p: Id)
    requires Objects(s) && CanReq(s, a)
    ensures Scheduled(DoReq(s, a), p) <==> Scheduled(s, p) || Posts(s, OfReq(a), p)
    ensures Posts(s, OfReq(a), p) ==> EndSeen(s, p) && !Scheduled(s, p)
    ensures EndSeen(DoReq(s, a), p) <==> EndSeen(s, p)
  {
    if a.ReqGiveBack? || a.ReqRelease? || a.ReqRetry? {
      ReqLetsGo(s, a, p);
    } else {
      assert AtPool(p);
    }
  }

  lemma ChanPosts(s: State, a: ChanStep, p: Id)
    requires Objects(s) && CanChan(s, a)
    ensures Scheduled(DoChan(s, a), p) <==> Scheduled(s, p) || Posts(s, OfChan(a), p)
    ensures Ends(s, a, p) ==> !EndSeen(s, p)
    ensures EndSeen(DoChan(s, a), p) <==> EndSeen(s, p) || Ends(s, a, p)
  {
    assert AtPool(p);
    match a
    case ChanClosePool(h) => assert AtChan(h);
    case ChanAdoptOk(h) => assert AtChan(h);
    case _ =>
  }

  lemma ConnPosts(s: State, a: ConnStep, p: Id)
    requires Objects(s) && CanConn(s, a)
    ensures Scheduled(DoConn(s, a), p) <==> Scheduled(s, p)
    ensures EndSeen(DoConn(s, a), p) <==> EndSeen(s, p)
  {
    assert AtPool(p);
    if a.ConnPoolArm? {
      assert AtConn(a.c);
    }
  }

  lemma PostPosts(s: State, a: PostStep, p: Id)
    requires CanPost(s, a)
    ensures Scheduled(DoPost(s, a), p) <==> Scheduled(s, p)
    ensures EndSeen(DoPost(s, a), p) <==> EndSeen(s, p)
  {
  }

  lemma ScheduledFree(s: State, p: Id)
    requires Pools(s) && Scheduled(s, p)
    ensures !s.pools[p].held && EndSeen(s, p)
  {
    assert AtPool(p);
  }

  lemma ClosePosts(s: State, a: CloseStep, p: Id)
    requires CanClose(s, a)
    ensures Scheduled(DoClose(s, a), p) <==> Scheduled(s, p)
    ensures EndSeen(DoClose(s, a), p) <==> EndSeen(s, p)
  {
  }

  lemma PostsChange(s: State, a: Step, p: Id)
    requires Objects(s) && Enabled(s, a)
    ensures Scheduled(Next(s, a), p) <==> Scheduled(s, p) || Posts(s, a, p)
    ensures Posts(s, a, p) ==> !Scheduled(s, p)
  {
    match a
    case OfReq(b) => ReqPosts(s, b, p);
    case OfChan(b) => ChanPosts(s, b, p);
    case OfClose(b) => ClosePosts(s, b, p);
    case OfConn(b) => ConnPosts(s, b, p);
    case OfPost(b) => PostPosts(s, b, p);
  }

  /** The delete task is posted by a watcher that has none yet, after the terminal event, by the
      event itself or by the `Release` that ends the hold; nothing holds it afterwards. */
  lemma PostsOnce(s: State, a: Step, p: Id)
    requires Inv(s) && Enabled(s, a)
    ensures Scheduled(Next(s, a), p) <==> Scheduled(s, p) || Posts(s, a, p)
    ensures Posts(s, a, p) ==> !Scheduled(s, p) && EndSeen(Next(s, a), p) && !Next(s, a).pools[p].held
  {
    PostsChange(s, a, p);
    StepInv(s, a);
    if Scheduled(Next(s, a), p) {
      ScheduledFree(Next(s, a), p);
    }
  }

  ghost function Postings(s: State, run: seq<Step>, p: Id): nat
    requires CanRun(s, run)
    decreases run
  {
    if run == [] then 0
    else (if Posts(s, run[0], p) then 1 else 0) + Postings(Next(s, run[0]), run[1..], p)
  }

  lemma {:induction false} PostingsCounted(s: State, run: seq<Step>, p: Id)
    requires Inv(s) && CanRun(s, run)
    ensures Postings(s, run, p) + (if Scheduled(s, p) then 1 else 0) ==
            (if Scheduled(Run(s, run), p) then 1 else 0)
    decreases run
  {
    if run != [] {
      StepInv(s, run[0]);
      PostsOnce(s, run[0], p);
      PostingsCounted(Next(s, run[0]), run[1..], p);
    }
  }

  /** Whatever the order of the terminal event and the borrower's `Release`, the delete task is
      posted at most once in a run: exactly once as soon as the event is in and nobody holds. */
  lemma PostedOnceInARun(strict: bool, handler: bool, maxIdle: nat, run: seq<Step>, p: Id)
    requires CanRun(Initial(strict, handler, maxIdle), run)
    ensures var s := Initial(strict, handler, maxIdle);
            var s' := Run(s, run);
            Postings(s, run, p) == if EndSeen(s', p) && !s'.pools[p].held then 1 else 0
  {
    var s := Initial(strict, handler, maxIdle);
    InitialInv(strict, handler, maxIdle);
    PostingsCounted(s, run, p);
    RunInv(s, run);
    assert AtPool(p);
  }

  /** Once the delete task is posted, only that task touches the watcher. */
  lemma ScheduledUntouched(s: State, a: Step, p: Id)
    requires Objects(s) && Enabled(s, a) && Scheduled(s, p) && Touches(s, a, ThePooled(p))
    ensures a.OfPost? && (a.post == TaskWatcher(p) || (a.post.TaskPooled? && a.post.p == p))
  {
    match a
    case OfReq(b) => ScheduledNoReq(s, b, p);
    case OfClose(b) => ScheduledNoClose(s, b, p);
    case OfChan(b) => ScheduledNoChan(s, b, p);
    case OfConn(b) => ScheduledNoConn(s, b, p);
    case OfPost(b) => PostTouchesOwn(s, b, p);
  }

  lemma PostTouchesOwn(s: State, a: PostStep, p: Id)
    requires CanPost(s, a) && PostTouches(s, a, ThePooled(p))
    ensures a == TaskWatcher(p) || (a.TaskPooled? && a.p == p)
  {
  }

  lemma BorrowedUnscheduled(s: State, r: Id)
    requires Objects(s) && r in s.reqs && Borrowed(s.reqs[r].pc).Some?
    ensures !Scheduled(s, Borrowed(s.reqs[r].pc).value)
  {
    assert AtReq(r) && AtPool(Borrowed(s.reqs[r].pc).value);
  }

  lemma IdleUnscheduled(s: State, key: Key, p: Id)
    requires Objects(s) && key in s.sh.idle && p in s.sh.idle[key]
    ensures !Scheduled(s, p)
  {
    assert IdleOk(s, key) && AtPool(p);
  }

  lemma ScheduledNoReq(s: State, a: ReqStep, p: Id)
    requires Objects(s) && CanReq(s, a) && Scheduled(s, p)
    ensures !ReqTouches(s, a, ThePooled(p))
  {
    match a
    case ReqTake(r) => IdleUnscheduled(s, s.reqs[r].key, TakeFromPool(s.sh, s.reqs[r].key).1.value);
    case ReqGiveBack(r) => BorrowedUnscheduled(s, r);
    case ReqInsertOn(r) => BorrowedUnscheduled(s, r);
    case ReqAdopt(r) => BorrowedUnscheduled(s, r);
    case ReqAdoptFail(r, t) => BorrowedUnscheduled(s, r);
    case ReqRelease(r) => BorrowedUnscheduled(s, r);
    case ReqRetry(r) => BorrowedUnscheduled(s, r);
    case _ =>
  }

  lemma ScheduledNoClose(s: State, a: CloseStep, p: Id)
    requires Objects(s) && CanClose(s, a) && Scheduled(s, p)
    ensures !CloseTouches(s, a, ThePooled(p))
  {
    if CancelTouches(s, ThePooled(p)) {
      var key :| key in s.sh.idle && p in s.sh.idle[key];
      IdleUnscheduled(s, key, p);
    }
  }

  lemma ScheduledNoChan(s: State, a: ChanStep, p: Id)
    requires Objects(s) && CanChan(s, a) && Scheduled(s, p)
    ensures !ChanTouches(s, a, ThePooled(p))
  {
    assert AtPool(p);
    match a
    case ChanClosePool(h) => assert AtChan(h);
    case ChanAdoptOk(h) => assert AtChan(h);
    case _ =>
  }

  lemma ScheduledNoConn(s: State, a: ConnStep, p: Id)
    requires Objects(s) && CanConn(s, a) && Scheduled(s, p)
    ensures !ConnTouches(s, a, ThePooled(p))
  {
    if a.ConnPoolArm? {
      assert AtConn(a.c);
    }
  }

  /** `_TakeFromPool` hands out a channel that is parked with its watcher, that has had no
      terminal event, and that no other call holds or has adopted. */
  lemma TakesParked(s: State, r: Id)
    requires Reachable(s) && CanReqTake(s, r) && TakeFromPool(s.sh, s.reqs[r].key).1.Some?
    ensures var p := TakeFromPool(s.sh, s.reqs[r].key).1.value;
            && p in s.pools && s.pools[p].key == s.reqs[r].key
            && s.pools[p].pc.Waiting? && !s.pools[p].held && !s.pools[p].adopted
            && s.pools[p].chan in s.chans && s.chans[s.pools[p].chan].st == Parked(p)
            && s.chans[s.pools[p].chan].alive
  {
    ReachableInv(s);
    var p := TakeFromPool(s.sh, s.reqs[r].key).1.value;
    IdleAlive(s, s.reqs[r].key, p);
    assert IdleOk(s, s.reqs[r].key);
    assert TheChan(s.pools[p].chan) in PooledTouch(s, p);
  }

  /** Every idle list is non-empty, without repetitions, and within the configured length; a
      channel sits in one list only. */
  lemma IdleListsBounded(s: State, key: Key, other: Key)
    requires Reachable(s) && key in s.sh.idle
    ensures 0 < |s.sh.idle[key]| <= s.sh.maxIdle && Distinct(s.sh.idle[key])
    ensures other != key && other in s.sh.idle ==>
              forall p | p in s.sh.idle[key] :: p !in s.sh.idle[other]
  {
    ReachableInv(s);
    assert IdleOk(s, key);
    if other in s.sh.idle {
      assert IdleOk(s, other);
    }
  }
}
