/**
 Which calls of the Port Role Transitions machine return in a bridge that keeps its invariant (mstp.c:4134-4590).
 */
module RoleCalls {
  import opened Types
  import opened PortInvariant
  import opened BridgeRun
  import PT = PortTransmit
  import RT = RoleTransitions
  import RM = RoleMachine

  /** On the CIST every call returns: no CIST node is ever selected as Master. */
  lemma CistIsTame(b: Bridge, p: nat)
    requires BridgeOk(b) && p < |b.ports|
    ensures RM.InRange(b, p, 0) && RT.Tame(RM.EnvOf(b, p, 0), RM.NodeOf(b.ports[p], 0))
  {
    ShapeOfOk(b);
    assert NodeOk(b.ports[p], 0);
  }

  /** A call of the bridge's pass returns, with no guard left, exactly if the node is not of the diverging family. */
  lemma CallReturnsExactly(b: Bridge, p: nat, t: nat)
    requires BridgeOk(b) && p < |b.ports| && t < |b.trees|
    ensures RM.InRange(b, p, t)
    ensures RM.Next(RM.Run(b, p, t, RM.DEPTH), p, t).None? <==>
      !RT.MasterDiverges(RM.EnvOf(b, p, t), RM.NodeOf(b.ports[p], t))
  {
    ShapeOfOk(b);
    assert NodeOk(b.ports[p], t);
    hide RM.EnvOf, RT.Next, RT.MasterDiverges, NodeOk, RT.Safe, RM.Run;
    var e, n := RM.EnvOf(b, p, t), RM.NodeOf(b.ports[p], t);
    if RT.MasterDiverges(e, n) {
      DivergingCall(b, p, t, RM.DEPTH);
    } else {
      RM.RunSettles(b, p, t);
    }
  }

  /** A call on a diverging node is still going after any number of transitions. */
  lemma DivergingCall(b: Bridge, p: nat, t: nat, depth: nat)
    requires RM.InRange(b, p, t) && RT.Safe(b.ports[p].rv[t])
    requires RT.MasterDiverges(RM.EnvOf(b, p, t), RM.NodeOf(b.ports[p], t))
    ensures RM.Next(RM.Run(b, p, t, depth), p, t).Some?
  {
    hide RM.EnvOf, RT.Next, RT.MasterDiverges, RT.Safe, RM.Run;
    var e, n := RM.EnvOf(b, p, t), RM.NodeOf(b.ports[p], t);
    RM.RunIsIterate(b, p, t, depth);
    RT.NeverReturns(e, n, depth);
  }

  // ---- A bridge in which a call does not return -----------------------------------------------------

  const TIMES := Times(20, 15, 20, 0, 2)
  const CIST_ID: BridgeId := 0x8000_0000_0000_0001
  const MSTI_ID: BridgeId := 0x8001_0000_0000_0001
  const ROOT_ID: BridgeId := 0x1000_0000_0000_0009

  /** The root port towards a legacy bridge, a boundary port whose MSTI node is told to synchronise. */
  function LegacyPort(): (r: Port)
    ensures WellSized(r.rx.bpdu)
  {
    var heard := Vector(ROOT_ID, 0, ROOT_ID, 0, ROOT_ID, 0x8001);
    var cist := Vector(ROOT_ID, 20000, CIST_ID, 0, CIST_ID, 0x8001);
    var msti := Vector(MSTI_ID, 0, MSTI_ID, 0, MSTI_ID, 0x8001);
    Port(PortConfig(true, true, false, false, 20000, false, true, false, false, false, false, false),
         [PtpConfig(0x8001, 20000), PtpConfig(0x8001, 20000)],
         Rx(RxReceive, false, false, false, false, PT.BlankBpdu(), 0, 0),
         Migration(SelectingStp, 3, false, false), EdgeVars(NotEdge, false),
         Tx(TransmitIdle, 0, 2, false, false, false, []), PortFlags(false, false, false), Assurance(false, 0),
         [Info(InfoCurrent, IoReceived, OtherInfo, false, false, 6, 0, heard, TIMES, heard, TIMES),
          Info(InfoCurrent, IoMine, OtherInfo, false, false, 0, 0, msti, TIMES, msti, TIMES)],
         [Selection(true, false, RoleRoot, cist, TIMES.(messageAge := 1)),
          Selection(true, false, RoleMaster, msti, TIMES)],
         [Handshake(false, false, true, false, false, false, true, false, false, false, false),
          Handshake(false, false, true, false, false, true, false, false, false, false, false)],
         [RoleVars(RootPort, RoleRoot, true, true, 0, 15, 0), RoleVars(MasterPort, RoleMaster, true, true, 0, 0, 0)],
         [ForwardingVars(Forwarding, true, true, BrForwarding), ForwardingVars(Forwarding, true, true, BrForwarding)],
         [Topology(TcActive, 0, false, false), Topology(TcActive, 0, false, false)])
  }

  function OwnTree(mstid: U16, id: BridgeId, root: Vector, rootPortId: PortId, times: Times): Tree {
    Tree(mstid, id, Vector(id, 0, id, 0, id, 0), TIMES, root, rootPortId, times, RoleSelection)
  }

  function LegacyBridge(): Bridge {
    Bridge(BridgeConfig(PROTO_MSTP, 20, 15, 20, 2, 6, 3, ConfigId(0, [], 0, []), [0, 1]),
           [OwnTree(0, CIST_ID, Vector(ROOT_ID, 20000, CIST_ID, 0, ROOT_ID, 0x8001), 0x8001, TIMES.(messageAge := 1)),
            OwnTree(1, MSTI_ID, Vector(MSTI_ID, 0, MSTI_ID, 0, MSTI_ID, 0), 0, TIMES)],
           [LegacyPort()])
  }

  /** The diverging family is met in a bridge that keeps every invariant: the call on that node would not end. */
  lemma MasterDivergesSomewhere()
    ensures BridgeOk(LegacyBridge()) && RM.InRange(LegacyBridge(), 0, 1)
    ensures RT.MasterDiverges(RM.EnvOf(LegacyBridge(), 0, 1), RM.NodeOf(LegacyBridge().ports[0], 1))
    ensures forall depth: nat :: RM.Next(RM.Run(LegacyBridge(), 0, 1, depth), 0, 1).Some?
  {
    hide PT.BlankBpdu, RM.Run;
    var b := LegacyBridge();
    assert NodeOk(b.ports[0], 0) && NodeOk(b.ports[0], 1);
    hide NodeOk, RM.Next;
    assert PortOk(b.cfg, b.ports[0]);
    ShapeOfOk(b);
    assert RT.MasterDiverges(RM.EnvOf(b, 0, 1), RM.NodeOf(b.ports[0], 1));
    forall depth: nat ensures RM.Next(RM.Run(b, 0, 1, depth), 0, 1).Some? { DivergingCall(b, 0, 1, depth); }
  }
}
