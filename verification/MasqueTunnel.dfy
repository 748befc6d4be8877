/** The inner connection and its tunnel: two event queues that post tasks to each other and hold raw
    pointers to each other's connection.

    One step is one task of a queue, one callback of the QUIC library on the queue's thread, one
    post from outside, or the end of a queue.  The queues are first in, first out. */
module MasqueTunnel {
  import opened MasqueConnection

  datatype InnerTask =
    | Connect
    | Close
    | User
    | UdpClosed
    | TunnelReady(ok: bool)
    | TunneledPacket
    | TunnelClosed

  datatype TunnelTask = ConnectToProxy | Datagram | CloseTunnel | TunnelUdpClosed

  predicate FromTunnel(t: InnerTask) {
    t.TunnelReady? || t.TunneledPacket? || t.TunnelClosed?
  }

  /** `ready`: the proxy has accepted; `shut`: the queue has ended. */
  datatype Tunnel = Unborn | Alive(core: Core, queue: seq<TunnelTask>, ready: bool, shut: bool) | Deleted

  /** `deletions` counts the deletes of the tunnel. */
  datatype Pair = Pair(inner: Core, queue: seq<InnerTask>, shut: bool, tunnel: Tunnel, deletions: nat)

  function Initial(): Pair {
    Pair(Created(NoRole), [], false, Unborn, 0)
  }

  // ----- pieces of tasks ---------------------------------------------------------------------

  function Post(p: Pair, t: InnerTask): Pair {
    p.(queue := p.queue + [t])
  }

  /** `masque_tunnel_->Close()`, and other tasks that the inner connection gives its tunnel. */
  function PostToTunnel(p: Pair, t: TunnelTask): Pair {
    if p.tunnel.Alive? && p.tunnel.core.keep
    then p.(tunnel := p.tunnel.(queue := p.tunnel.queue + [t])) else p
  }

  function CheckInner(p: Pair): Pair {
    var r := CloseCheck(p.inner);
    var p1 := p.(inner := r.core);
    if r.closeTunnel then PostToTunnel(p1, CloseTunnel) else p1
  }

  function FreeInner(p: Pair): Pair {
    CheckInner(p.(inner := p.inner.(newState := Freed)))
  }

  /** `Connect_Internal` of an inner connection that has its tunnel: `ok` and `quic` are what the
      library makes of it. */
  function ConnectInner(p: Pair, ok: bool, quic: bool): Pair {
    var p1 := p.(inner := p.inner.(quic := p.inner.quic || quic));
    if ok then p1 else p1.(inner := p1.inner.(newState := Freed))
  }

  /** `MasqueStartTunnel`: `born` tells whether the tunnel could be created. */
  function StartTunnel(p: Pair, born: bool): Pair {
    var inner := p.inner.(role := InnerRole);
    if born then
      p.(inner := inner.(peer := true), tunnel := Alive(Created(TunnelRole), [ConnectToProxy], false, false))
    else p.(inner := inner.(newState := Freed))
  }

  /** The choices a task leaves to its environment. */
  datatype Choice = Choice(ok: bool, quic: bool, born: bool, allowed: bool, timer: bool)

  /** The `Connect` task of the user. */
  function DoConnect(p: Pair, ch: Choice): Pair {
    var p1 := CheckInner(p);
    if CloseCheck(p.inner).stop then p1
    else if p1.inner.state > Init || !ch.allowed then CheckInner(p1)
    else
      var p2 := if p1.inner.role.NoRole? then StartTunnel(p1, ch.born) else ConnectInner(p1, ch.ok, ch.quic);
      var p3 := if ch.timer then p2 else p2.(inner := p2.inner.(newState := Freed));
      CheckInner(p3.(inner := p3.inner.(state := Handshake)))
  }

  function DoTunnelReady(p: Pair, ok: bool, ch: Choice): Pair {
    var p1 := CheckInner(p);
    if CloseCheck(p.inner).stop then p1
    else if !ok then FreeInner(p1)
    else CheckInner(ConnectInner(p1, ch.ok, ch.quic))
  }

  /** `MasqueOnTunnelClosed`: delete the tunnel, then go on closing. */
  function DoTunnelClosed(p: Pair): Pair {
    var p1 := if p.inner.peer then p.(tunnel := Deleted, deletions := p.deletions + 1) else p;
    CheckInner(p1.(inner := Gone(p.inner)))
  }

  function DoInnerTask(p: Pair, t: InnerTask, ch: Choice): Pair {
    match t
    case Connect => DoConnect(p, ch)
    case Close => if CloseCheck(p.inner).stop then CheckInner(p) else FreeInner(CheckInner(p))
    case User => CheckInner(CheckInner(p))
    case UdpClosed =>
      var p1 := p.(inner := p.inner.(udp := false));
      if CloseCheck(p1.inner).stop then CheckInner(p1) else FreeInner(CheckInner(p1))
    case TunnelReady(ok) => DoTunnelReady(p, ok, ch)
    case TunneledPacket => CheckInner(CheckInner(p))
    case TunnelClosed => DoTunnelClosed(p)
  }

  // The tunnel's side

  /** Post to the inner connection, as long as the pointer to it is set. */
  function TellInner(p: Pair, t: InnerTask): Pair
    requires p.tunnel.Alive?
  {
    if p.tunnel.core.peer then Post(p, t) else p
  }

  function CheckTunnel(p: Pair): Pair
    requires p.tunnel.Alive?
  {
    p.(tunnel := p.tunnel.(core := CloseCheck(p.tunnel.core).core))
  }

  function FreeTunnel(p: Pair): Pair
    requires p.tunnel.Alive?
  {
    CheckTunnel(p.(tunnel := p.tunnel.(core := p.tunnel.core.(newState := Freed))))
  }

  /** `MasqueOnConnectUdpResponse`. */
  function Respond(p: Pair, ok: bool): Pair
    requires p.tunnel.Alive?
  {
    if p.tunnel.ready && ok then p
    else TellInner(p.(tunnel := p.tunnel.(ready := p.tunnel.ready || ok)), TunnelReady(ok))
  }

  function DoTunnelTask(p: Pair, t: TunnelTask, ch: Choice): Pair
    requires p.tunnel.Alive?
  {
    var stop := CloseCheck(p.tunnel.core).stop;
    match t
    case ConnectToProxy =>
      if stop then CheckTunnel(p)
      else if p.tunnel.core.state > Init then CheckTunnel(p)
      else
        var core := p.tunnel.core.(state := Handshake, quic := p.tunnel.core.quic || ch.quic);
        var p1 := p.(tunnel := p.tunnel.(core := core));
        CheckTunnel(if ch.ok then p1 else Respond(p1, false))
    case Datagram => CheckTunnel(CheckTunnel(p))
    case CloseTunnel => if stop then CheckTunnel(p) else FreeTunnel(CheckTunnel(p))
    case TunnelUdpClosed =>
      var p1 := p.(tunnel := p.tunnel.(core := p.tunnel.core.(udp := false)));
      if CloseCheck(p1.tunnel.core).stop then CheckTunnel(p1) else FreeTunnel(CheckTunnel(p1))
  }

  // ----- steps -------------------------------------------------------------------------------

  datatype Step =
    | UserPosts(t: InnerTask)
    | InnerRuns(ch: Choice)
    | InnerUdpCloses
    | InnerSends
    | InnerMoves(state: nat)
    | InnerRefused
    | InnerTimesOut
    | InnerQuicCloses
    | InnerShuts
    | TunnelRuns(ch: Choice)
    | TunnelUdpCloses
    | TunnelMoves(sent: bool)
    | TunnelResponds(ok: bool)
    | TunnelReceives
    | TunnelQuicCloses
    | TunnelShuts

  predicate InnerUp(p: Pair) { !p.shut }
  predicate TunnelUp(p: Pair) { p.tunnel.Alive? && !p.tunnel.shut }

  /** The QUIC library calls back only for a connection that is there. */
  predicate Enabled(p: Pair, a: Step) {
    match a
    case UserPosts(t) => p.inner.keep && (t.Connect? || t.Close? || t.User?)
    case InnerRuns(_) => InnerUp(p) && p.queue != []
    case InnerUdpCloses => InnerUp(p) && p.inner.udp
    case InnerSends => InnerUp(p) && p.inner.quic && p.inner.state > ClosingSock && p.inner.role.InnerRole?
    case InnerMoves(state) => InnerUp(p) && p.inner.quic && (state == Connecting || state == Connected)
    case InnerRefused => InnerUp(p) && p.inner.quic
    case InnerTimesOut => InnerUp(p) && p.inner.state >= Init
    case InnerQuicCloses => InnerUp(p) && p.inner.quic
    case InnerShuts => InnerUp(p) && p.inner.detached
    case TunnelRuns(_) => TunnelUp(p) && p.tunnel.queue != []
    case TunnelUdpCloses => TunnelUp(p) && p.tunnel.core.udp
    case TunnelMoves(_) => TunnelUp(p) && p.tunnel.core.quic
    case TunnelResponds(_) => TunnelUp(p) && p.tunnel.core.quic
    case TunnelReceives => TunnelUp(p) && p.tunnel.core.quic
    case TunnelQuicCloses => TunnelUp(p) && p.tunnel.core.quic
    case TunnelShuts => TunnelUp(p) && p.tunnel.core.detached
  }

  function Next(p: Pair, a: Step): Pair
    requires Enabled(p, a)
  {
    match a
    case UserPosts(t) => Post(p, t)
    case InnerRuns(ch) => DoInnerTask(p.(queue := p.queue[1..]), p.queue[0], ch)
    case InnerUdpCloses => Post(p, UdpClosed)
    case InnerSends => if p.inner.peer then PostToTunnel(p, Datagram) else p
    case InnerMoves(state) => p.(inner := p.inner.(state := state))
    case InnerRefused =>
      var p1 := p.(inner := p.inner.(state := Init));
      if p1.inner.keep then Post(p1, Close) else p1
    case InnerTimesOut => FreeInner(p)
    case InnerQuicCloses =>
      var p1 := p.(inner := p.inner.(quic := false));
      if CloseCheck(p1.inner).stop then CheckInner(p1) else FreeInner(CheckInner(p1))
    case InnerShuts => p.(shut := true)
    case TunnelRuns(ch) =>
      DoTunnelTask(p.(tunnel := p.tunnel.(queue := p.tunnel.queue[1..])), p.tunnel.queue[0], ch)
    case TunnelUdpCloses => p.(tunnel := p.tunnel.(queue := p.tunnel.queue + [TunnelUdpClosed]))
    case TunnelMoves(sent) =>
      var p1 := p.(tunnel := p.tunnel.(core := p.tunnel.core.(state := Connecting)));
      if sent then p1 else Respond(p1, false)
    case TunnelResponds(ok) => Respond(p, ok)
    case TunnelReceives => TellInner(p, TunneledPacket)
    case TunnelQuicCloses =>
      var p1 := p.(tunnel := p.tunnel.(core := p.tunnel.core.(quic := false)));
      if CloseCheck(p1.tunnel.core).stop then CheckTunnel(p1) else FreeTunnel(CheckTunnel(p1))
    case TunnelShuts =>
      var p1 := p.(tunnel := p.tunnel.(core := p.tunnel.core.(peer := false), queue := [], shut := true));
      if p.tunnel.core.peer then Post(p1, TunnelClosed) else p1
  }

  // ----- the invariant -----------------------------------------------------------------------

  /** The tunnel's tasks in a queue, in order. */
  function Pending(q: seq<InnerTask>): seq<InnerTask> {
    if q == [] then []
    else if FromTunnel(q[0]) then [q[0]] + Pending(q[1..]) else Pending(q[1..])
  }

  lemma {:induction false} PendingPost(q: seq<InnerTask>, t: InnerTask)
    ensures Pending(q + [t]) == if FromTunnel(t) then Pending(q) + [t] else Pending(q)
  {
    if q == [] {
      assert q + [t] == [t];
    } else {
      assert (q + [t])[1..] == q[1..] + [t];
      PendingPost(q[1..], t);
    }
  }

  /** Exactly the last of the tunnel's tasks says that it is closed. */
  predicate Sealed(q: seq<InnerTask>) {
    q != [] && q[|q| - 1] == TunnelClosed && TunnelClosed !in q[..|q| - 1]
  }

  predicate Inv(p: Pair) {
    && CoreOk(p.inner) && (p.tunnel.Alive? ==> CoreOk(p.tunnel.core))
    && (p.inner.peer <==> p.tunnel.Alive?)
    && (p.inner.peer ==> p.inner.role.InnerRole?)
    && (p.inner.role.NoRole? ==> p.tunnel.Unborn?)
    && !p.inner.role.TunnelRole?
    && (p.inner.detached ==> !p.inner.peer)
    && (p.shut ==> p.inner.detached)
    && p.deletions == (if p.tunnel.Deleted? then 1 else 0)
    && (p.tunnel.Alive? ==>
          && p.tunnel.core.role.TunnelRole?
          && (p.tunnel.core.peer <==> !p.tunnel.shut)
          && (p.tunnel.shut ==> Sealed(Pending(p.queue)))
          && (!p.tunnel.shut ==> TunnelClosed !in Pending(p.queue)))
    && (!p.tunnel.Alive? ==> Pending(p.queue) == [])
  }

  // ----- every step keeps it -----------------------------------------------------------------

  /** What does not concern the tunnel or its tasks. */
  lemma PostOwn(p: Pair, t: InnerTask)
    requires Inv(p) && !FromTunnel(t)
    ensures Inv(Post(p, t))
  {
    PendingPost(p.queue, t);
  }

  lemma PostToTunnelInv(p: Pair, t: TunnelTask)
    requires Inv(p)
    ensures Inv(PostToTunnel(p, t))
  {
  }

  lemma CheckInnerInv(p: Pair)
    requires Inv(p)
    ensures Inv(CheckInner(p))
    ensures var p' := CheckInner(p);
            p'.inner == CloseCheck(p.inner).core && p'.queue == p.queue && p'.shut == p.shut
    ensures Working(p.inner) <==> !CloseCheck(p.inner).stop
    ensures Working(p.inner) ==> CheckInner(p) == p
  {
    CloseCheckSafe(p.inner);
  }

  lemma FreeInnerInv(p: Pair)
    requires Inv(p)
    ensures Inv(FreeInner(p))
  {
    CheckInnerInv(p.(inner := p.inner.(newState := Freed)));
  }

  lemma PopOwn(p: Pair)
    requires Inv(p) && p.queue != [] && !FromTunnel(p.queue[0])
    ensures Inv(p.(queue := p.queue[1..]))
  {
  }

  /** A task of the tunnel that is not its last word. */
  lemma PopTunnel(p: Pair)
    requires Inv(p) && p.queue != [] && FromTunnel(p.queue[0]) && p.queue[0] != TunnelClosed
    ensures Inv(p.(queue := p.queue[1..]))
  {
    var rest := Pending(p.queue[1..]);
    assert Pending(p.queue) == [p.queue[0]] + rest;
    assert Pending(p.queue)[1..] == rest;
    if p.tunnel.Alive? && p.tunnel.shut {
      var all := Pending(p.queue);
      assert rest[|rest| - 1] == all[|all| - 1];
      assert rest[..|rest| - 1] == all[..|all| - 1][1..];
    }
  }

  lemma ConnectInv(p: Pair, ch: Choice)
    requires Inv(p)
    ensures Inv(DoConnect(p, ch))
  {
    CheckInnerInv(p);
    if Working(p.inner) {
      if p.inner.state > Init || !ch.allowed {
      } else {
        var p2 := if p.inner.role.NoRole? then StartTunnel(p, ch.born) else ConnectInner(p, ch.ok, ch.quic);
        var p3 := if ch.timer then p2 else p2.(inner := p2.inner.(newState := Freed));
        var p4 := p3.(inner := p3.inner.(state := Handshake));
        assert Inv(p4);
        CheckInnerInv(p4);
      }
    }
  }

  lemma TunnelReadyInv(p: Pair, ok: bool, ch: Choice)
    requires Inv(p)
    ensures Inv(DoTunnelReady(p, ok, ch))
  {
    CheckInnerInv(p);
    if Working(p.inner) {
      FreeInnerInv(p);
      CheckInnerInv(ConnectInner(p, ch.ok, ch.quic));
    }
  }

  lemma HeadInFront(q: seq<InnerTask>)
    requires |q| > 1
    ensures q[0] in q[..|q| - 1]
  {
    assert q[..|q| - 1][0] == q[0];
  }

  /** When the tunnel says that it is closed, its queue has ended and nothing of it is pending. */
  lemma TunnelClosedInv(p: Pair)
    requires Inv(p) && p.queue != [] && p.queue[0] == TunnelClosed
    ensures p.tunnel.Alive? && p.tunnel.shut
    ensures Inv(DoTunnelClosed(p.(queue := p.queue[1..])))
  {
    var all := Pending(p.queue);
    assert all == [TunnelClosed] + Pending(p.queue[1..]);
    assert TunnelClosed in all;
    if |all| > 1 {
      HeadInFront(all);
    }
    assert Pending(p.queue[1..]) == [];
    var p1 := p.(queue := p.queue[1..], tunnel := Deleted, deletions := p.deletions + 1,
                 inner := Gone(p.inner));
    CheckInnerInv(p1);
  }

  lemma InnerTaskInv(p: Pair, ch: Choice)
    requires Inv(p) && p.queue != []
    ensures Inv(DoInnerTask(p.(queue := p.queue[1..]), p.queue[0], ch))
  {
    var t := p.queue[0];
    if t == TunnelClosed {
      TunnelClosedInv(p);
    } else {
      var p0 := p.(queue := p.queue[1..]);
      if FromTunnel(t) { PopTunnel(p); } else { PopOwn(p); }
      CheckInnerInv(p0);
      match t
      case Connect => ConnectInv(p0, ch);
      case Close => FreeInnerInv(CheckInner(p0));
      case User => CheckInnerInv(CheckInner(p0));
      case UdpClosed => UdpClosedInv(p0);
      case TunnelReady(ok) => TunnelReadyInv(p0, ok, ch);
      case TunneledPacket => CheckInnerInv(CheckInner(p0));
    }
  }

  lemma UdpClosedInv(p: Pair)
    requires Inv(p)
    ensures var p1 := p.(inner := p.inner.(udp := false));
            Inv(CheckInner(p1)) && Inv(FreeInner(CheckInner(p1)))
  {
    var p1 := p.(inner := p.inner.(udp := false));
    CheckInnerInv(p1);
    FreeInnerInv(CheckInner(p1));
  }

  // The tunnel's side

  lemma CheckTunnelInv(p: Pair)
    requires Inv(p) && TunnelUp(p)
    ensures Inv(CheckTunnel(p)) && TunnelUp(CheckTunnel(p))
    ensures Inv(FreeTunnel(p)) && TunnelUp(FreeTunnel(p))
    ensures Working(p.tunnel.core) <==> !CloseCheck(p.tunnel.core).stop
    ensures Working(p.tunnel.core) ==> CheckTunnel(p) == p
  {
    CloseCheckSafe(p.tunnel.core);
    CloseCheckSafe(p.tunnel.core.(newState := Freed));
  }

  lemma TellInnerInv(p: Pair, t: InnerTask)
    requires Inv(p) && TunnelUp(p) && FromTunnel(t) && t != TunnelClosed
    ensures Inv(TellInner(p, t)) && TunnelUp(TellInner(p, t))
  {
    PendingPost(p.queue, t);
  }

  lemma RespondInv(p: Pair, ok: bool)
    requires Inv(p) && TunnelUp(p)
    ensures Inv(Respond(p, ok)) && TunnelUp(Respond(p, ok))
  {
    TellInnerInv(p.(tunnel := p.tunnel.(ready := p.tunnel.ready || ok)), TunnelReady(ok));
  }

  lemma ToProxyInv(p: Pair, ch: Choice)
    requires Inv(p) && TunnelUp(p)
    ensures Inv(DoTunnelTask(p, ConnectToProxy, ch))
  {
    CheckTunnelInv(p);
    if Working(p.tunnel.core) {
      var core := p.tunnel.core.(state := Handshake, quic := p.tunnel.core.quic || ch.quic);
      var p1 := p.(tunnel := p.tunnel.(core := core));
      RespondInv(p1, false);
      CheckTunnelInv(if ch.ok then p1 else Respond(p1, false));
    }
  }

  lemma TunnelTaskInv(p: Pair, t: TunnelTask, ch: Choice)
    requires Inv(p) && TunnelUp(p)
    ensures Inv(DoTunnelTask(p, t, ch))
  {
    CheckTunnelInv(p);
    match t
    case ConnectToProxy => ToProxyInv(p, ch);
    case Datagram => CheckTunnelInv(CheckTunnel(p));
    case CloseTunnel => CheckTunnelInv(CheckTunnel(p));
    case TunnelUdpClosed =>
      var p1 := p.(tunnel := p.tunnel.(core := p.tunnel.core.(udp := false)));
      CheckTunnelInv(p1);
      CheckTunnelInv(CheckTunnel(p1));
  }

  lemma TunnelShutsInv(p: Pair)
    requires Inv(p) && Enabled(p, TunnelShuts)
    ensures Inv(Next(p, TunnelShuts))
  {
    PendingPost(p.queue, TunnelClosed);
    var all := Pending(p.queue);
    assert (all + [TunnelClosed])[..|all|] == all;
  }

  lemma StepInv(p: Pair, a: Step)
    requires Inv(p) && Enabled(p, a)
    ensures Inv(Next(p, a))
  {
    match a
    case UserPosts(t) => PostOwn(p, t);
    case InnerRuns(ch) => InnerTaskInv(p, ch);
    case InnerUdpCloses => PostOwn(p, UdpClosed);
    case InnerSends => PostToTunnelInv(p, Datagram);
    case InnerMoves(state) =>
    case InnerRefused => PostOwn(p.(inner := p.inner.(state := Init)), Close);
    case InnerTimesOut => FreeInnerInv(p);
    case InnerQuicCloses =>
      var p1 := p.(inner := p.inner.(quic := false));
      CheckInnerInv(p1);
      FreeInnerInv(CheckInner(p1));
    case InnerShuts =>
    case TunnelRuns(ch) =>
      TunnelTaskInv(p.(tunnel := p.tunnel.(queue := p.tunnel.queue[1..])), p.tunnel.queue[0], ch);
    case TunnelUdpCloses =>
    case TunnelMoves(sent) =>
      RespondInv(p.(tunnel := p.tunnel.(core := p.tunnel.core.(state := Connecting))), false);
    case TunnelResponds(ok) => RespondInv(p, ok);
    case TunnelReceives => TellInnerInv(p, TunneledPacket);
    case TunnelQuicCloses =>
      var p1 := p.(tunnel := p.tunnel.(core := p.tunnel.core.(quic := false)));
      CheckTunnelInv(p1);
      CheckTunnelInv(CheckTunnel(p1));
    case TunnelShuts => TunnelShutsInv(p);
  }

  // ----- what every run keeps ----------------------------------------------------------------

  ghost predicate CanRun(p: Pair, run: seq<Step>)
    decreases run
  {
    run == [] || (Enabled(p, run[0]) && CanRun(Next(p, run[0]), run[1..]))
  }

  ghost function Run(p: Pair, run: seq<Step>): Pair
    requires CanRun(p, run)
    decreases run
  {
    if run == [] then p else Run(Next(p, run[0]), run[1..])
  }

  lemma {:induction false} RunInv(p: Pair, run: seq<Step>)
    requires Inv(p) && CanRun(p, run)
    ensures Inv(Run(p, run))
    decreases run
  {
    if run != [] {
      StepInv(p, run[0]);
      RunInv(Next(p, run[0]), run[1..]);
    }
  }

  ghost predicate Reachable(p: Pair) {
    exists run :: CanRun(Initial(), run) && Run(Initial(), run) == p
  }

  lemma ReachableInv(p: Pair)
    requires Reachable(p)
    ensures Inv(p)
  {
    var run :| CanRun(Initial(), run) && Run(Initial(), run) == p;
    RunInv(Initial(), run);
  }

  /** The inner connection never detaches while its tunnel exists; once it has detached, no task of
      the tunnel is queued and none will be posted, because no pointer to it is left. */
  lemma DetachedIsFree(p: Pair)
    requires Reachable(p) && p.inner.detached
    ensures !p.tunnel.Alive? && !p.inner.peer
    ensures forall i | 0 <= i < |p.queue| :: !FromTunnel(p.queue[i])
  {
    ReachableInv(p);
    NothingPending(p.queue);
  }

  lemma {:induction false} NothingPending(q: seq<InnerTask>)
    requires Pending(q) == []
    ensures forall i | 0 <= i < |q| :: !FromTunnel(q[i])
  {
    if q != [] {
      NothingPending(q[1..]);
      assert forall i | 1 <= i < |q| :: q[i] == q[1..][i - 1];
    }
  }

  /** A tunnel that can still post points at an inner connection that can still be posted to. */
  lemma TunnelPointsAtLiveInner(p: Pair)
    requires Reachable(p) && p.tunnel.Alive? && p.tunnel.core.peer
    ensures !p.inner.detached && !p.shut && !p.tunnel.shut && p.inner.peer
  {
    ReachableInv(p);
  }

  /** The tunnel's stage: a step moves it forward only. */
  function Stage(t: Tunnel): nat {
    if t.Unborn? then 0 else if t.Alive? then 1 else 2
  }

  predicate SameTunnel(p: Pair, p': Pair) {
    && Stage(p'.tunnel) == Stage(p.tunnel) && p'.deletions == p.deletions
    && p'.inner.role == p.inner.role
  }

  lemma CheckSame(p: Pair)
    ensures SameTunnel(p, CheckInner(p))
  {
  }

  lemma CheckInnerSame(p: Pair)
    ensures SameTunnel(p, CheckInner(p)) && SameTunnel(p, FreeInner(p))
  {
    CheckSame(p);
    CheckSame(p.(inner := p.inner.(newState := Freed)));
  }

  lemma ConnectSame(p: Pair, ch: Choice)
    requires !p.inner.role.NoRole?
    ensures SameTunnel(p, DoConnect(p, ch))
  {
    CheckInnerSame(p);
    var p1 := CheckInner(p);
    CheckInnerSame(p1);
    ConnectOnSame(p1, ch);
  }

  lemma ConnectOnSame(p: Pair, ch: Choice)
    ensures var p2 := ConnectInner(p, ch.ok, ch.quic);
            var p3 := if ch.timer then p2 else p2.(inner := p2.inner.(newState := Freed));
            && SameTunnel(p, CheckInner(p3.(inner := p3.inner.(state := Handshake))))
            && SameTunnel(p, CheckInner(p2))
  {
    var p2 := ConnectInner(p, ch.ok, ch.quic);
    var p3 := if ch.timer then p2 else p2.(inner := p2.inner.(newState := Freed));
    CheckInnerSame(p2);
    CheckInnerSame(p3.(inner := p3.inner.(state := Handshake)));
  }

  lemma InnerTaskSame(p: Pair, t: InnerTask, ch: Choice)
    requires !p.inner.role.NoRole? && t != TunnelClosed
    ensures SameTunnel(p, DoInnerTask(p, t, ch))
  {
    CheckInnerSame(p);
    CheckInnerSame(CheckInner(p));
    match t
    case Connect => ConnectSame(p, ch);
    case UdpClosed =>
      var p1 := p.(inner := p.inner.(udp := false));
      CheckInnerSame(p1);
      CheckInnerSame(CheckInner(p1));
    case TunnelReady(ok) => ConnectOnSame(CheckInner(p), ch);
    case _ =>
  }

  predicate Deletes(p: Pair, a: Step)
    requires Enabled(p, a)
  {
    a.InnerRuns? && p.queue[0] == TunnelClosed
  }

  lemma InnerStepSame(p: Pair, a: Step)
    requires Enabled(p, a) && !p.inner.role.NoRole? && !Deletes(p, a)
    requires a.InnerRuns? || a.InnerTimesOut? || a.InnerQuicCloses?
    ensures SameTunnel(p, Next(p, a))
  {
    match a
    case InnerRuns(ch) => InnerTaskSame(p.(queue := p.queue[1..]), p.queue[0], ch);
    case InnerTimesOut => CheckInnerSame(p);
    case InnerQuicCloses =>
      var p1 := p.(inner := p.inner.(quic := false));
      CheckInnerSame(p1);
      CheckInnerSame(CheckInner(p1));
  }

  lemma TunnelTaskSame(p: Pair, t: TunnelTask, ch: Choice)
    requires p.tunnel.Alive?
    ensures SameTunnel(p, DoTunnelTask(p, t, ch))
  {
  }

  lemma OtherStepSame(p: Pair, a: Step)
    requires Enabled(p, a)
    requires !a.InnerRuns? && !a.InnerTimesOut? && !a.InnerQuicCloses?
    ensures SameTunnel(p, Next(p, a))
  {
    match a
    case TunnelRuns(ch) =>
      TunnelTaskSame(p.(tunnel := p.tunnel.(queue := p.tunnel.queue[1..])), p.tunnel.queue[0], ch);
    case _ =>
  }

  /** The step calls into the tunnel through `masque_tunnel_`, or deletes it. */
  predicate UsesTunnel(p: Pair, a: Step) {
    p.inner.peer && (a.InnerRuns? || a.InnerSends? || a.InnerTimesOut? || a.InnerQuicCloses?)
  }

  /** The inner connection never uses a deleted tunnel; the tunnel is deleted at most once, by the
      task that its own ended queue left behind, and nothing takes its place afterwards. */
  lemma TunnelDeletedOnce(p: Pair, a: Step)
    requires Reachable(p) && Enabled(p, a)
    ensures UsesTunnel(p, a) ==> p.tunnel.Alive?
    ensures Next(p, a).deletions <= 1
    ensures !p.tunnel.Unborn? && Next(p, a).deletions != p.deletions ==>
              p.tunnel.Alive? && p.tunnel.shut && Next(p, a).tunnel.Deleted?
    ensures p.tunnel.Deleted? ==> Next(p, a).tunnel.Deleted? && Next(p, a).deletions == p.deletions
  {
    ReachableInv(p);
    StepInv(p, a);
    if p.tunnel.Unborn? {
    } else if Deletes(p, a) {
      TunnelClosedInv(p);
      CheckInnerSame(p.(queue := p.queue[1..], tunnel := Deleted, deletions := p.deletions + 1,
                        inner := Gone(p.inner)));
    } else if a.InnerRuns? || a.InnerTimesOut? || a.InnerQuicCloses? {
      InnerStepSame(p, a);
    } else {
      OtherStepSame(p, a);
    }
  }
}
