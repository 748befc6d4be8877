/** What comes of the tunnel's answers: the inner connection goes to QUIC only over a tunnel that the
    proxy has accepted, and is torn down by a refusal. */
module MasqueOutcome {
  import opened MasqueConnection
  import opened MasqueTunnel

  // ----- the handling of an answer -----------------------------------------------------------

  /** The task at the head of the inner connection's queue is the tunnel's answer. */
  predicate Answers(p: Pair, ok: bool, a: Step) {
    Enabled(p, a) && a.InnerRuns? && p.queue[0] == TunnelReady(ok)
  }

  /** A refusal ends a working connection and starts no QUIC connection. */
  lemma RefusedStops(p: Pair, a: Step)
    requires Inv(p) && Answers(p, false, a)
    ensures !Working(Next(p, a).inner)
    ensures Next(p, a).inner.quic == p.inner.quic
  {
    var p0 := p.(queue := p.queue[1..]);
    CloseCheckSafe(p.inner);
    CloseCheckSafe(p.inner.(newState := Freed));
    CheckKeeps(p0);
    if Working(p.inner) {
      CheckKeeps(p0.(inner := p.inner.(newState := Freed)));
    }
  }

  /** An acceptance lets a working connection connect: it goes on exactly if the library agrees, and
      has its QUIC connection if the library made one. */
  lemma AcceptedConnects(p: Pair, a: Step)
    requires Inv(p) && Answers(p, true, a)
    ensures Working(Next(p, a).inner) <==> Working(p.inner) && a.ch.ok
    ensures Next(p, a).inner.quic <==> p.inner.quic || (Working(p.inner) && a.ch.quic)
  {
    var p0 := p.(queue := p.queue[1..]);
    CloseCheckSafe(p.inner);
    CheckKeeps(p0);
    if Working(p.inner) {
      var c := p.inner.(quic := p.inner.quic || a.ch.quic);
      CloseCheckSafe(if a.ch.ok then c else c.(newState := Freed));
      CheckKeeps(ConnectInner(p0, a.ch.ok, a.ch.quic));
    }
  }

  /** What a check leaves alone. */
  lemma CheckKeeps(p: Pair)
    ensures var p' := CheckInner(p);
            && p'.queue == p.queue && p'.inner == CloseCheck(p.inner).core
            && p'.inner.quic == p.inner.quic && p'.inner.role == p.inner.role
            && (p'.inner.state == Init ==> p.inner.state == Init)
    ensures Working(p.inner) <==> !CloseCheck(p.inner).stop
    ensures Working(p.inner) ==> CheckInner(p) == p
  {
  }

  /** Every answer of the proxy is passed on, but for a second acceptance, and nothing but the
      proxy's acceptance is passed on as one. */
  lemma AnswerPassedOn(p: Pair, a: Step)
    requires Inv(p) && Enabled(p, a)
    ensures a.TunnelResponds? ==>
              && Next(p, a).queue == p.queue + (if p.tunnel.ready && a.ok then [] else [TunnelReady(a.ok)])
              && Next(p, a).tunnel.Alive? && Next(p, a).tunnel.ready == (p.tunnel.ready || a.ok)
    ensures TunnelReady(true) in Next(p, a).queue && TunnelReady(true) !in p.queue ==> a == TunnelResponds(true)
  {
    if a.InnerRuns? || a.InnerTimesOut? || a.InnerQuicCloses? {
      InnerQueue(p, a);
    }
  }

  /** A step of the inner connection posts nothing to itself. */
  lemma InnerQueue(p: Pair, a: Step)
    requires CoreOk(p.inner) && Enabled(p, a)
    requires a.InnerRuns? || a.InnerTimesOut? || a.InnerQuicCloses?
    ensures Next(p, a).queue == if a.InnerRuns? then p.queue[1..] else p.queue
  {
    match a
    case InnerTimesOut => CheckKeeps(p.(inner := p.inner.(newState := Freed)));
    case InnerQuicCloses =>
      var p1 := p.(inner := p.inner.(quic := false));
      CheckKeeps(p1);
      FreeKeeps(CheckInner(p1));
    case InnerRuns(ch) => TaskKeeps(p.(queue := p.queue[1..]), p.queue[0], ch);
  }

  lemma FreeKeeps(p: Pair)
    ensures FreeInner(p).queue == p.queue && FreeInner(p).inner.quic == p.inner.quic
    ensures FreeInner(p).inner.role == p.inner.role
    ensures FreeInner(p).inner.state == Init ==> p.inner.state == Init
  {
    CheckKeeps(p.(inner := p.inner.(newState := Freed)));
  }

  // ----- no QUIC connection before the proxy accepts -----------------------------------------

  /** The task may start the QUIC connection of a working inner connection. */
  predicate MayConnect(p: Pair, t: InnerTask) {
    t == TunnelReady(true) || (t == Connect && AtInit(p.inner))
  }

  /** The connection has its tunnel and would connect if it were asked to. */
  predicate AtInit(c: Core) {
    !c.role.NoRole? && c.state == Init
  }

  lemma TaskKeeps(p: Pair, t: InnerTask, ch: Choice)
    requires CoreOk(p.inner)
    ensures var p' := DoInnerTask(p, t, ch);
            && p'.queue == p.queue
            && (p'.inner.quic ==> p.inner.quic || MayConnect(p, t))
            && (AtInit(p'.inner) ==> AtInit(p.inner))
  {
    match t
    case Connect => ConnectKeeps(p, ch);
    case TunnelReady(ok) => ReadyKeeps(p, ok, ch);
    case UdpClosed => UdpClosedKeeps(p);
    case TunnelClosed =>
      CheckKeeps((if p.inner.peer then p.(tunnel := Deleted, deletions := p.deletions + 1) else p)
                 .(inner := Gone(p.inner)));
    case _ =>
      CheckKeeps(p);
      CheckKeeps(CheckInner(p));
      FreeKeeps(CheckInner(p));
  }

  lemma ReadyKeeps(p: Pair, ok: bool, ch: Choice)
    ensures var p' := DoTunnelReady(p, ok, ch);
            && p'.queue == p.queue
            && (p'.inner.quic ==> p.inner.quic || ok)
            && (AtInit(p'.inner) ==> AtInit(p.inner))
  {
    var p1 := CheckInner(p);
    CheckKeeps(p);
    FreeKeeps(p1);
    CheckKeeps(ConnectInner(p1, ch.ok, ch.quic));
  }

  lemma UdpClosedKeeps(p: Pair)
    ensures var p' := DoInnerTask(p, UdpClosed, Choice(true, true, true, true, true));
            && p'.queue == p.queue
            && p'.inner.quic == p.inner.quic
            && (AtInit(p'.inner) ==> AtInit(p.inner))
  {
    var p1 := p.(inner := p.inner.(udp := false));
    CheckKeeps(p1);
    FreeKeeps(CheckInner(p1));
  }

  lemma ConnectKeeps(p: Pair, ch: Choice)
    requires CoreOk(p.inner)
    ensures var p' := DoConnect(p, ch);
            && p'.queue == p.queue
            && (p'.inner.quic ==> p.inner.quic || AtInit(p.inner))
            && (AtInit(p'.inner) ==> AtInit(p.inner))
  {
    CheckKeeps(p);
    if Working(p.inner) {
      var p2 := if p.inner.role.NoRole? then StartTunnel(p, ch.born) else ConnectInner(p, ch.ok, ch.quic);
      var p3 := if ch.timer then p2 else p2.(inner := p2.inner.(newState := Freed));
      CheckKeeps(p3.(inner := p3.inner.(state := Handshake)));
    }
  }

  /** `accepted` tells whether the proxy has accepted: without it nothing lets the inner connection
      go to QUIC. */
  ghost predicate AcceptedOk(p: Pair, accepted: bool) {
    && (p.inner.quic ==> accepted)
    && (TunnelReady(true) in p.queue ==> accepted)
    && (AtInit(p.inner) ==> accepted)
  }

  lemma AcceptedStep(p: Pair, a: Step, accepted: bool)
    requires Inv(p) && AcceptedOk(p, accepted) && Enabled(p, a)
    ensures AcceptedOk(Next(p, a), accepted || a == TunnelResponds(true))
  {
    AnswerPassedOn(p, a);
    match a
    case InnerRuns(ch) => TaskKeeps(p.(queue := p.queue[1..]), p.queue[0], ch);
    case InnerTimesOut => FreeKeeps(p);
    case InnerQuicCloses =>
      var p1 := p.(inner := p.inner.(quic := false));
      CheckKeeps(p1);
      FreeKeeps(CheckInner(p1));
    case _ =>
  }

  ghost predicate HasAccepted(run: seq<Step>) {
    TunnelResponds(true) in run
  }

  lemma {:induction false} AcceptedRun(p: Pair, run: seq<Step>, accepted: bool)
    requires Inv(p) && AcceptedOk(p, accepted) && CanRun(p, run)
    ensures AcceptedOk(Run(p, run), accepted || HasAccepted(run))
    decreases run
  {
    if run != [] {
      StepInv(p, run[0]);
      AcceptedStep(p, run[0], accepted);
      AcceptedRun(Next(p, run[0]), run[1..], accepted || run[0] == TunnelResponds(true));
      assert run == [run[0]] + run[1..];
    }
  }

  /** In every run, an inner connection has a QUIC connection only if the proxy has accepted its
      tunnel before. */
  lemma QuicNeedsAcceptance(run: seq<Step>)
    requires CanRun(Initial(), run) && Run(Initial(), run).inner.quic
    ensures TunnelResponds(true) in run
  {
    AcceptedRun(Initial(), run, false);
  }

  // ----- closing -----------------------------------------------------------------------------

  /** What ends the inner connection: its user, its socket, its timer, its QUIC connection, or its
      tunnel. */
  predicate EndsInner(p: Pair, a: Step) {
    || a.InnerTimesOut? || a.InnerQuicCloses?
    || (a.InnerRuns? && p.queue != [] && (p.queue[0].Close? || p.queue[0].UdpClosed? || p.queue[0].TunnelClosed?))
  }

  lemma StoppedStays(p: Pair)
    requires CoreOk(p.inner) && !Working(p.inner)
    ensures CoreOk(CheckInner(p).inner) && !Working(CheckInner(p).inner)
    ensures CoreOk(FreeInner(p).inner) && !Working(FreeInner(p).inner)
  {
    CloseCheckSafe(p.inner);
    CloseCheckSafe(p.inner.(newState := Freed));
  }

  lemma CheckOrFreeStops(p: Pair)
    requires CoreOk(p.inner)
    ensures CloseCheck(p.inner).stop ==> !Working(CheckInner(p).inner)
    ensures !Working(FreeInner(CheckInner(p)).inner) && !Working(FreeInner(p).inner)
  {
    CheckKeeps(p);
    CloseCheckSafe(p.inner);
    CloseCheckSafe(p.inner.(newState := Freed));
    CloseCheckSafe(CheckInner(p).inner.(newState := Freed));
  }

  /** Each of these ends it, and nothing makes a connection that is closing work again. */
  lemma InnerEnds(p: Pair, a: Step)
    requires Inv(p) && Enabled(p, a) && (EndsInner(p, a) || !Working(p.inner))
    ensures !Working(Next(p, a).inner)
  {
    match a
    case InnerRuns(ch) =>
      var p0 := p.(queue := p.queue[1..]);
      if EndsInner(p, a) { TaskEnds(p0, p.queue[0], ch); } else { TaskStays(p0, p.queue[0], ch); }
    case InnerTimesOut => CheckOrFreeStops(p);
    case InnerQuicCloses => CheckOrFreeStops(p.(inner := p.inner.(quic := false)));
    case _ =>
  }

  lemma TaskEnds(p: Pair, t: InnerTask, ch: Choice)
    requires CoreOk(p.inner) && (t.Close? || t.UdpClosed? || t.TunnelClosed?)
    ensures !Working(DoInnerTask(p, t, ch).inner)
  {
    match t
    case Close => CheckOrFreeStops(p);
    case UdpClosed => CheckOrFreeStops(p.(inner := p.inner.(udp := false)));
    case TunnelClosed =>
      StoppedStays((if p.inner.peer then p.(tunnel := Deleted, deletions := p.deletions + 1) else p)
                   .(inner := Gone(p.inner)));
  }

  lemma TaskStays(p: Pair, t: InnerTask, ch: Choice)
    requires CoreOk(p.inner) && !Working(p.inner)
    ensures !Working(DoInnerTask(p, t, ch).inner)
  {
    if t.Close? || t.UdpClosed? || t.TunnelClosed? {
      TaskEnds(p, t, ch);
    } else {
      CheckKeeps(p);
      StoppedStays(p);
      StoppedStays(CheckInner(p));
    }
  }

  /** Nothing else ends a working connection, but for an answer of its tunnel or a `Connect` that fails
      at once; a refusal of the handshake asks for `Close`. */
  lemma InnerGoesOn(p: Pair, a: Step)
    requires Inv(p) && Enabled(p, a) && Working(p.inner) && !EndsInner(p, a)
    requires a.InnerRuns? ==> !p.queue[0].TunnelReady? && !p.queue[0].Connect?
    ensures Working(Next(p, a).inner)
    ensures a.InnerRefused? && p.inner.keep ==> Next(p, a).queue == p.queue + [Close]
    ensures a.InnerRuns? ==> Next(p, a) == p.(queue := p.queue[1..])
  {
    if a.InnerRuns? {
      CheckKeeps(p.(queue := p.queue[1..]));
    }
  }

  /** The first `Connect` of a working connection starts its tunnel, which is to connect to the proxy;
      the connection itself waits for it, unless the tunnel or the timer could not be made. */
  lemma ConnectStartsTunnel(p: Pair, a: Step)
    requires Inv(p) && Enabled(p, a) && a.InnerRuns? && p.queue[0] == Connect
    requires Working(p.inner) && p.inner.state == Init && p.inner.role.NoRole? && a.ch.allowed
    ensures var p' := Next(p, a);
            && p'.inner.role.InnerRole? && p'.inner.quic == p.inner.quic
            && (Working(p'.inner) <==> a.ch.born && a.ch.timer)
            && (a.ch.born ==>
                  && p'.inner.peer && p'.tunnel.Alive? && ConnectToProxy in p'.tunnel.queue
                  && Working(p'.tunnel.core) && p'.tunnel.core.state == Init)
  {
    var p0 := p.(queue := p.queue[1..]);
    CheckKeeps(p0);
    var p2 := StartTunnel(p0, a.ch.born);
    var p3 := if a.ch.timer then p2 else p2.(inner := p2.inner.(newState := Freed));
    var p4 := p3.(inner := p3.inner.(state := Handshake));
    CloseCheckSafe(p4.inner);
    CheckKeeps(p4);
  }

  /** The tunnel's first task connects it to the proxy; if that fails, the inner connection is told. */
  lemma TunnelConnects(p: Pair, a: Step)
    requires Inv(p) && Enabled(p, a) && a.TunnelRuns? && p.tunnel.queue[0] == ConnectToProxy
    requires Working(p.tunnel.core) && p.tunnel.core.state == Init
    ensures var p' := Next(p, a);
            && p'.tunnel.Alive? && p'.tunnel.core.state == Handshake && Working(p'.tunnel.core)
            && (p'.tunnel.core.quic <==> p.tunnel.core.quic || a.ch.quic)
            && p'.queue == p.queue + (if a.ch.ok then [] else [TunnelReady(false)])
  {
    assert p.queue + [] == p.queue;
  }

  /** Datagrams do not disturb the tunnel, and a request that cannot be sent is a refusal. */
  lemma TunnelGoesOn(p: Pair, a: Step)
    requires Inv(p) && Enabled(p, a) && p.tunnel.Alive? && Working(p.tunnel.core)
    ensures a.TunnelRuns? && p.tunnel.queue[0].Datagram? ==>
              Next(p, a) == p.(tunnel := p.tunnel.(queue := p.tunnel.queue[1..]))
    ensures a.TunnelMoves? ==>
              && Next(p, a).tunnel.Alive? && Working(Next(p, a).tunnel.core)
              && Next(p, a).queue == p.queue + (if a.sent then [] else [TunnelReady(false)])
  {
    assert p.queue + [] == p.queue;
  }

  lemma TunnelStops(p: Pair)
    requires p.tunnel.Alive? && CoreOk(p.tunnel.core)
    ensures CloseCheck(p.tunnel.core).stop ==> !Working(CheckTunnel(p).tunnel.core)
    ensures !Working(FreeTunnel(CheckTunnel(p)).tunnel.core)
  {
    CloseCheckSafe(p.tunnel.core);
    CloseCheckSafe(CheckTunnel(p).tunnel.core.(newState := Freed));
  }

  /** What ends the tunnel: the inner connection's wish, its socket, or its QUIC connection. */
  lemma TunnelEnds(p: Pair, a: Step)
    requires Inv(p) && Enabled(p, a)
    requires a.TunnelQuicCloses?
             || (a.TunnelRuns? && (p.tunnel.queue[0].CloseTunnel? || p.tunnel.queue[0].TunnelUdpClosed?))
    ensures Next(p, a).tunnel.Alive? && !Working(Next(p, a).tunnel.core)
  {
    if a.TunnelQuicCloses? {
      TunnelStops(p.(tunnel := p.tunnel.(core := p.tunnel.core.(quic := false))));
    } else {
      var p0 := p.(tunnel := p.tunnel.(queue := p.tunnel.queue[1..]));
      TunnelStops(p0);
      TunnelStops(p0.(tunnel := p0.tunnel.(core := p.tunnel.core.(udp := false))));
    }
  }

  // ----- a tunnel is not forgotten -----------------------------------------------------------

  /** A working tunnel takes tasks, and once it was told to close the task for it is in its queue. */
  predicate Told(p: Pair) {
    && (p.inner.peer ==> p.tunnel.Alive?) && (p.inner.role.NoRole? ==> p.tunnel.Unborn?)
    && (p.tunnel.Unborn? ==> !p.inner.tunnelClosing)
    && (p.tunnel.Alive? && Working(p.tunnel.core) ==>
          && p.tunnel.core.keep
          && (p.inner.tunnelClosing ==> CloseTunnel in p.tunnel.queue))
  }

  lemma CheckTold(p: Pair)
    requires Told(p)
    ensures Told(CheckInner(p))
  {
  }

  lemma FreeTold(p: Pair)
    requires Told(p)
    ensures Told(FreeInner(p))
  {
    CheckTold(p.(inner := p.inner.(newState := Freed)));
  }

  lemma InnerTaskTold(p: Pair, ch: Choice)
    requires Inv(p) && Told(p) && p.queue != []
    ensures Told(DoInnerTask(p.(queue := p.queue[1..]), p.queue[0], ch))
  {
    var t, p0 := p.queue[0], p.(queue := p.queue[1..]);
    if t == TunnelClosed {
      TunnelClosedInv(p);
      ClosedTold(p);
    } else {
      match t
      case Connect => ConnectTold(p0, ch);
      case UdpClosed => OverTold(p0.(inner := p0.inner.(udp := false)));
      case TunnelReady(ok) => ReadyTold(p0, ok, ch);
      case Close => OverTold(p0);
      case _ =>
        CheckTold(p0);
        CheckTold(CheckInner(p0));
    }
  }

  lemma ClosedTold(p: Pair)
    requires Inv(p) && p.queue != [] && p.queue[0] == TunnelClosed
    ensures Told(DoTunnelClosed(p.(queue := p.queue[1..])))
  {
    TunnelClosedInv(p);
  }

  lemma OverTold(p: Pair)
    requires Told(p)
    ensures Told(CheckInner(p)) && Told(FreeInner(CheckInner(p)))
  {
    CheckTold(p);
    FreeTold(CheckInner(p));
  }

  lemma ReadyTold(p: Pair, ok: bool, ch: Choice)
    requires Told(p)
    ensures Told(DoTunnelReady(p, ok, ch))
  {
    CheckTold(p);
    CheckKeeps(p);
    if Working(p.inner) {
      FreeTold(p);
      CheckTold(ConnectInner(p, ch.ok, ch.quic));
    }
  }

  /** Before the last check of a `Connect` task. */
  function ShakenHands(p: Pair, ch: Choice): Pair {
    var p2 := if p.inner.role.NoRole? then StartTunnel(p, ch.born) else ConnectInner(p, ch.ok, ch.quic);
    var p3 := if ch.timer then p2 else p2.(inner := p2.inner.(newState := Freed));
    p3.(inner := p3.inner.(state := Handshake))
  }

  lemma ShakenHandsTold(p: Pair, ch: Choice)
    requires Told(p)
    ensures Told(ShakenHands(p, ch))
  {
  }

  lemma ConnectTold(p: Pair, ch: Choice)
    requires Told(p)
    ensures Told(DoConnect(p, ch))
  {
    CheckTold(p);
    CheckKeeps(p);
    if Working(p.inner) && p.inner.state <= Init && ch.allowed {
      ShakenHandsTold(p, ch);
      CheckTold(ShakenHands(p, ch));
    }
  }

  lemma TunnelTold(p: Pair, a: Step)
    requires Inv(p) && Told(p) && Enabled(p, a) && (a.TunnelRuns? || a.TunnelQuicCloses?)
    ensures Told(Next(p, a))
  {
    CloseCheckSafe(p.tunnel.core);
    if a.TunnelQuicCloses? || p.tunnel.queue[0].CloseTunnel? || p.tunnel.queue[0].TunnelUdpClosed? {
      TunnelEnds(p, a);
    }
  }

  lemma ToldStep(p: Pair, a: Step)
    requires Inv(p) && Told(p) && Enabled(p, a)
    ensures Told(Next(p, a))
  {
    match a
    case InnerRuns(ch) => InnerTaskTold(p, ch);
    case InnerTimesOut => FreeTold(p);
    case InnerQuicCloses => OverTold(p.(inner := p.inner.(quic := false)));
    case TunnelRuns(ch) => TunnelTold(p, a);
    case TunnelQuicCloses => TunnelTold(p, a);
    case _ =>
  }

  lemma {:induction false} ToldRun(p: Pair, run: seq<Step>)
    requires Inv(p) && Told(p) && CanRun(p, run)
    ensures Inv(Run(p, run)) && Told(Run(p, run))
    decreases run
  {
    if run != [] {
      StepInv(p, run[0]);
      ToldStep(p, run[0]);
      ToldRun(Next(p, run[0]), run[1..]);
    }
  }

  /** In every run, a tunnel that its inner connection has given up has stopped working already, or
      the task that will stop it is in its queue. */
  lemma GivenUpIsTold(p: Pair)
    requires Reachable(p) && p.tunnel.Alive? && p.inner.tunnelClosing
    ensures Working(p.tunnel.core) ==> CloseTunnel in p.tunnel.queue
  {
    var run :| CanRun(Initial(), run) && Run(Initial(), run) == p;
    ToldRun(Initial(), run);
  }

  /** As long as both sides work, every packet of the inner connection goes to the tunnel, and every
      packet that the tunnel receives goes to the inner connection. */
  lemma PacketsPassedOn(p: Pair, a: Step)
    requires Reachable(p) && Enabled(p, a) && p.tunnel.Alive? && Working(p.tunnel.core)
    ensures a.InnerSends? ==> Next(p, a) == p.(tunnel := p.tunnel.(queue := p.tunnel.queue + [Datagram]))
    ensures a.TunnelReceives? ==> Next(p, a) == p.(queue := p.queue + [TunneledPacket])
  {
    var run :| CanRun(Initial(), run) && Run(Initial(), run) == p;
    ToldRun(Initial(), run);
  }
}
