/** One QUIC connection of a MASQUE pair: the part of `SMPConnection` that decides when it may go. */
module MasqueConnection {
  const Freed: nat := 0
  const ClosingSock: nat := 1
  const ClosingQuic: nat := 2
  const Init: nat := 3
  const Handshake: nat := 4
  const Connecting: nat := 5
  const Connected: nat := 6
  const Max: nat := 9

  datatype Role = NoRole | InnerRole | TunnelRole

  /** `quic` and `udp` tell whether the QUIC connection and the socket are there, `peer` whether the
      pointer to the other connection is set (`masque_tunnel_` of an inner one, `masque_inner_` of
      a tunnel), `tunnelClosing` whether the tunnel was told to close; `detached` is set when the
      event queue was told to shut down. */
  datatype Core = Core(state: nat, newState: nat, keep: bool, quic: bool, udp: bool, role: Role,
                       peer: bool, tunnelClosing: bool, detached: bool)

  function Created(role: Role): Core {
    Core(Init, Max, true, false, true, role, role.TunnelRole?, false, false)
  }

  datatype Checked = Checked(core: Core, stop: bool, closeTunnel: bool)

  predicate Working(c: Core) {
    Freed < c.state <= c.newState
  }

  /** The connection has nothing left that keeps it: no QUIC connection, no socket, no tunnel. */
  predicate Releasable(c: Core) {
    !c.quic && !c.udp && !(c.role.InnerRole? && c.peer)
  }

  /** `_CloseCheck`: go as far towards the end as the parts that are still there allow. */
  function CloseCheck(c: Core): Checked {
    if Working(c) then Checked(c, false, false)
    else
      var c1 := if c.state > Init then c.(keep := false, state := ClosingQuic) else c;
      if c1.state == ClosingQuic && c1.quic then Checked(c1, true, false)
      else
        var c2 := if c1.state == ClosingQuic then c1.(state := ClosingSock) else c1;
        if c2.state != ClosingSock || c2.udp then Checked(c2, true, false)
        else if c2.role.InnerRole? && c2.peer then
          Checked(c2.(tunnelClosing := true), true, !c2.tunnelClosing)
        else Checked(c2.(state := Freed, detached := true), true, false)
  }

  /** Closing is never taken back, goes through its states in order, and starts by refusing work. */
  predicate CoreOk(c: Core) {
    && c.state <= Connected
    && (c.newState == Freed || (c.newState == Max && c.state >= Init))
    && (c.state < Init ==> !c.keep)
    && (c.state <= ClosingSock ==> !c.quic)
    && (c.detached ==> c.state == Freed)
  }

  /** A connection is let go only when nothing keeps it any more, and a working one is left alone. */
  lemma CloseCheckSafe(c: Core)
    requires CoreOk(c)
    ensures var r := CloseCheck(c);
            && CoreOk(r.core)
            && (r.core.detached && !c.detached ==> Releasable(r.core))
            && (Working(c) <==> !r.stop) && (Working(c) ==> r.core == c)
            && r.core == c.(state := r.core.state, keep := r.core.keep, detached := r.core.detached,
                            tunnelClosing := r.core.tunnelClosing)
            && (c.detached ==> r.core == c)
            && (r.closeTunnel ==> c.peer && !c.tunnelClosing && r.core.tunnelClosing)
  {
  }

  /** A connection that is closing and has left its first state is let go as soon as nothing keeps
      it, and its tunnel is told to close as soon as nothing else does. */
  lemma CloseCheckGoesOn(c: Core)
    requires CoreOk(c) && !Working(c) && c.state != Freed && c.state != Init
    ensures CloseCheck(c).core.detached <==> Releasable(c)
    ensures CloseCheck(c).closeTunnel <==> !c.quic && !c.udp && c.role.InnerRole? && c.peer && !c.tunnelClosing
    ensures !CloseCheck(c).core.keep
  {
  }

  /** Checking twice does no more than checking once. */
  lemma CloseCheckTwice(c: Core)
    ensures CloseCheck(CloseCheck(c).core).core == CloseCheck(c).core
    ensures !CloseCheck(CloseCheck(c).core).closeTunnel
  {
  }

  /** The fields themselves. */
  class SMPConnection {
    var state: nat
    var newState: nat
    var keepWorking: bool
    var quic: bool
    var udp: bool
    var role: Role
    var peer: bool
    var tunnelClosing: bool
    var detached: bool

    ghost function Snap(): Core
      reads this
    {
      Core(state, newState, keepWorking, quic, udp, role, peer, tunnelClosing, detached)
    }

    constructor (role: Role)
      ensures Snap() == Created(role)
    {
      state, newState, keepWorking, quic, udp := Init, Max, true, false, true;
      this.role, peer, tunnelClosing, detached := role, role.TunnelRole?, false, false;
    }

    method CheckClose() returns (stop: bool, closeTunnel: bool)
      modifies this
      ensures Checked(Snap(), stop, closeTunnel) == CloseCheck(old(Snap()))
    {
      closeTunnel := false;
      if state <= newState && state > Freed {
        return false, false;
      }
      if state > Init {
        keepWorking := false;
        state := ClosingQuic;
      }
      if state == ClosingQuic {
        if quic {
          return true, false;
        }
        state := ClosingSock;
      }
      if state == ClosingSock {
        if udp {
          return true, false;
        }
        if role.InnerRole? && peer {
          if !tunnelClosing {
            tunnelClosing := true;
            closeTunnel := true;
          }
          return true, closeTunnel;
        }
        detached := true;
        state := Freed;
      }
      return true, false;
    }

    /** The state part of `MasqueOnTunnelClosed`; the tunnel itself is deleted by the caller. */
    method TunnelGone() returns (deleteTunnel: bool)
      modifies this
      ensures deleteTunnel == old(peer)
      ensures Snap() == CloseCheck(Gone(old(Snap()))).core
    {
      deleteTunnel := peer;
      peer := false;
      tunnelClosing := false;
      if state == Init {
        newState := Freed;
      } else if state > Init {
        newState := Freed;
      }
      var stop, close := CheckClose();
    }
  }

  function Gone(c: Core): Core {
    c.(peer := false, tunnelClosing := false, newState := if c.state >= Init then Freed else c.newState)
  }
}
