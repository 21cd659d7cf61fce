/**
 What is true of a bridge whose dry run answers false.
 */
module SettledBridge {
  import opened Types
  import opened PortInvariant
  import opened BridgeRun
  import PI = PortInformation
  import PM = PortMachines
  import PT = PortTransmit
  import RS = RoleSelection
  import RT = RoleTransitions
  import RM = RoleMachine
  import TC = TopologyChange

  // ---- The dry-run contract -------------------------------------------------------------------------

  lemma {:induction false} InformationIsIdle(cfg: BridgeConfig, prt: Port, n: nat)
    requires PortOk(cfg, prt) && n <= |cfg.mstids| && !InformationDue(prt)
    ensures RunInformation(cfg, prt, n) == prt
  {
    hide PI.Next, NodeOk;
    if n > 0 {
      InformationIsIdle(cfg, prt, n - 1);
      assert PI.Next(prt, n - 1).None?;
    }
  }

  lemma PhaseIsIdle(k: Phase, cfg: BridgeConfig, prt: Port)
    requires PortOk(cfg, prt) && !PhaseDue(k, cfg, prt)
    ensures RunPhase(k, cfg, prt) == prt
  {
    HelloTimeIsFixed(cfg, prt);
    hide NodeOk, PM.NextReceive, PM.NextMigration, PM.NextEdge, PT.Next, PM.NextForwarding;
    match k
    case Inform => InformationIsIdle(cfg, prt, |cfg.mstids|);
    case Forward =>
      hide InformationDue;
      assert RunForwarding(prt).fw == prt.fw;
    case _ => hide InformationDue, ForwardingDue;
  }

  /** A step that is due on no port changes nothing. */
  lemma PortsAreIdle(k: Phase, b: Bridge)
    requires BridgeOk(b) && forall p :: 0 <= p < |b.ports| ==> !PhaseDue(k, b.cfg, b.ports[p])
    ensures RunPorts(k, b) == b
  {
    hide PortOk, PhaseDue, RunPhase;
    forall p | 0 <= p < |b.ports| ensures RunPhase(k, b.cfg, b.ports[p]) == b.ports[p] {
      assert !PhaseDue(k, b.cfg, b.ports[p]);
      PhaseIsIdle(k, b.cfg, b.ports[p]);
    }
    assert RunPorts(k, b).ports == b.ports;
  }

  lemma {:induction false} SelectionsAreIdle(b: Bridge, n: nat)
    requires BridgeOk(b) && Settled(b) && n <= |b.trees|
    ensures RunSelections(b, n) == b
  {
    hide PortOk, PhaseDue, RS.SelectionDue, RM.Next, TC.Next;
    if n > 0 {
      SelectionsAreIdle(b, n - 1);
    }
  }

  /** The role and topology machines of all nodes are at rest. */
  predicate NodesIdle(b: Bridge)
    requires BridgeOk(b)
  {
    forall p, t :: 0 <= p < |b.ports| && 0 <= t < |b.trees| ==> RM.Next(b, p, t).None? && TC.Next(b.ports[p], t).None?
  }

  lemma NodeIsIdle(b: Bridge, p: nat, t: nat)
    requires BridgeOk(b) && NodesIdle(b) && p < |b.ports| && t < |b.trees|
    ensures RM.InRange(b, p, t) && TC.InRange(b, p, t)
    ensures RM.Run(b, p, t, RM.DEPTH) == b && TC.Run(b, p, t) == b
  {
    ShapeOfOk(b);
    hide PortOk, RM.Next, TC.Next;
    assert RM.Next(b, p, t).None? && TC.Next(b.ports[p], t).None?;
  }

  lemma {:induction false} RolesOfAreIdle(b: Bridge, p: nat, n: nat)
    requires BridgeOk(b) && NodesIdle(b) && p < |b.ports| && n <= |b.trees|
    ensures RunRolesOf(b, p, n) == b && RunTopologyOf(b, p, n) == b
  {
    hide BridgeOk, NodesIdle, RM.Run, TC.Run;
    if n > 0 {
      RolesOfAreIdle(b, p, n - 1);
      NodeIsIdle(b, p, n - 1);
    }
  }

  lemma {:induction false} RolesAreIdle(b: Bridge, n: nat)
    requires BridgeOk(b) && NodesIdle(b) && n <= |b.ports|
    ensures RunRoles(b, n) == b && RunTopology(b, n) == b
  {
    hide BridgeOk, NodesIdle, RunRolesOf, RunTopologyOf;
    if n > 0 {
      RolesAreIdle(b, n - 1);
      RolesOfAreIdle(b, n - 1, |b.trees|);
    }
  }

  /** With nothing to forward and all nodes at rest, the machines after role selection change nothing. */
  lemma LateMachinesAreIdle(b: Bridge)
    requires BridgeOk(b) && NodesIdle(b) && forall p :: 0 <= p < |b.ports| ==> !PhaseDue(Forward, b.cfg, b.ports[p])
    ensures LateMachines(b) == b
  {
    hide BridgeOk, NodesIdle, PhaseDue;
    RolesAreIdle(b, |b.ports|);
    PortsAreIdle(Forward, b);
  }

  /** A settled bridge, part by part. */
  lemma SettledParts(b: Bridge)
    requires BridgeOk(b) && Settled(b)
    ensures forall p, k: Phase :: 0 <= p < |b.ports| ==> !PhaseDue(k, b.cfg, b.ports[p])
    ensures NodesIdle(b)
  {
    hide PhaseDue, RM.Next, TC.Next, PortOk;
  }

  /** The dry-run contract: when the dry run answers false, the actual run changes nothing at all. */
  lemma SettledIsFixedPoint(b: Bridge)
    requires BridgeOk(b) && Settled(b)
    ensures RunOnce(b) == b
  {
    SettledParts(b);
    hide PortOk, Settled, PhaseDue, NodesIdle, LateMachines;
    PortsAreIdle(Assure, b);
    PortsAreIdle(Receive, b);
    PortsAreIdle(Migrate, b);
    PortsAreIdle(DetectEdge, b);
    PortsAreIdle(Transmit, b);
    PortsAreIdle(Inform, b);
    SelectionsAreIdle(b, |b.trees|);
    LateMachinesAreIdle(b);
  }

  /** Ports on which nothing is due. */
  lemma IdlePortMachines(b: Bridge)
    requires BridgeOk(b) && forall p, k: Phase :: 0 <= p < |b.ports| ==> !PhaseDue(k, b.cfg, b.ports[p])
    ensures RunPortMachines(b) == b
  {
    hide PortOk, PhaseDue;
    PortsAreIdle(Assure, b);
    PortsAreIdle(Receive, b);
    PortsAreIdle(Migrate, b);
    PortsAreIdle(DetectEdge, b);
    PortsAreIdle(Transmit, b);
    PortsAreIdle(Inform, b);
  }

  /** A pass over one tree in which the ports leave everything to role selection, and all rest afterwards. */
  lemma SelectingPass(b: Bridge, r: Bridge)
    requires BridgeOk(b) && Shape(b) && |b.trees| == 1 && RS.SelectionDue(b, 0) && r == RS.EnterSelection(b, 0)
    requires BridgeOk(r) && NodesIdle(r) && forall p :: 0 <= p < |r.ports| ==> !PhaseDue(Forward, r.cfg, r.ports[p])
    ensures RunSelections(b, 1) == r && LateMachines(r) == r
  {
    hide PortOk, RS.EnterSelection, RS.SelectionDue, PhaseDue, NodesIdle, LateMachines;
    assert RunSelections(b, 0) == b;
    LateMachinesAreIdle(r);
  }

  /** One pass that leads to rest is all that runs. */
  lemma OnePassToRest(b: Bridge, r: Bridge, limit: nat)
    requires BridgeOk(b) && BridgeOk(r) && RunOnce(b) == r && Settled(r) && limit > 0
    ensures RunMachines(b, limit) == r
  {
    hide BridgeOk, Settled, RunOnce;
    if Settled(b) { SettledIsFixedPoint(b); }
  }

  /** Leaving `br_state_machines_run` before the limit means leaving it at a fixed point, for every larger limit too. */
  lemma {:induction false} EarlyExitIsFixedPoint(b: Bridge, limit: nat, more: nat)
    requires BridgeOk(b) && limit <= more && Settled(RunMachines(b, limit))
    ensures RunMachines(b, more) == RunMachines(b, limit) && RunOnce(RunMachines(b, limit)) == RunMachines(b, limit)
    decreases limit
  {
    hide BridgeOk, Settled, RunOnce;
    if limit == 0 || Settled(b) {
      SettledIsFixedPoint(b);
    } else {
      EarlyExitIsFixedPoint(RunOnce(b), limit - 1, more - 1);
    }
  }

  // ---- Shape of a settled bridge --------------------------------------------------------------------

  /** In a settled bridge every port learns and forwards exactly as its role machine asked; Alternate, Backup
      and Disabled ports discard. */
  lemma SettledPortStates(b: Bridge, p: nat, t: nat)
    requires BridgeOk(b) && Settled(b) && p < |b.ports| && t < |b.trees|
    ensures var prt := b.ports[p];
      && prt.fw[t].learning == prt.rv[t].learn && prt.fw[t].forwarding == prt.rv[t].forward
      && (prt.fw[t].forwarding ==> prt.fw[t].learning)
      && (RT.IsQuiet(prt.rv[t].role) ==> prt.fw[t].state == Discarding && !prt.fw[t].learning && !prt.fw[t].forwarding)
      && RT.InFamily(prt.rv[t].state, prt.rv[t].role)
  {
    assert !PhaseDue(Forward, b.cfg, b.ports[p]);
    assert PM.NextForwarding(b.ports[p].rv[t], b.ports[p].fw[t]).None?;
    assert NodeOk(b.ports[p], t);
  }

  /** What the CIST node of a port looks like at rest. */
  predicate CistAtRest(prt: Port)
    requires 1 <= |prt.info| && |prt.info| == |prt.sel| == |prt.rv|
  {
    var i, s, role := prt.info[0], prt.sel[0], prt.rv[0].role;
    && s.selected && !s.reselect && !i.rcvdMsg
    && (!i.updtInfo ==> role == s.selectedRole)
    && if !prt.cfg.portEnabled then i.infoIs == IoDisabled && s.selectedRole == RoleDisabled
       else
         && !i.updtInfo
         && match role
            case RoleDesignated => i.infoIs == IoMine && i.portPriority == s.designatedPriority
            case RoleDisabled => false
            case RoleMaster => false
            case _ => i.infoIs == IoReceived
  }

  /** A BPDU can only be left waiting behind an MSTI message that waits for its aged node to be updated. */
  predicate OnlyWaitsForAgedMsti(prt: Port) {
    prt.rx.rcvdBpdu ==>
      prt.cfg.portEnabled && exists t :: 1 <= t < |prt.info| && prt.info[t].rcvdMsg && prt.info[t].infoIs == IoAged
  }

  lemma SettledInformation(prt: Port)
    requires 1 <= |prt.info| && |prt.info| == |prt.sel| == |prt.rv| == |prt.fw| && NodeOk(prt, 0)
    requires PI.Next(prt, 0).None? && !prt.sel[0].reselect
    requires !(prt.rv[0].role != prt.sel[0].selectedRole && prt.sel[0].selected && !prt.info[0].updtInfo)
    ensures CistAtRest(prt)
  {
  }

  lemma SettledMsti(prt: Port, t: nat)
    requires 1 <= t < |prt.info| && |prt.info| == |prt.sel| == |prt.rv| == |prt.fw| && NodeOk(prt, t) && CistAtRest(prt)
    requires PI.Next(prt, t).None? && !prt.sel[t].reselect && prt.info[t].rcvdMsg
    ensures prt.cfg.portEnabled && prt.info[t].infoIs == IoAged
  {
  }

  /** Shape of a settled bridge: every CIST port is selected and has nothing pending, its role decides the origin
      of its information, and a Designated port holds its own designated vector. */
  lemma SettledShape(b: Bridge, p: nat)
    requires BridgeOk(b) && Settled(b) && p < |b.ports|
    ensures CistAtRest(b.ports[p])
    ensures OnlyWaitsForAgedMsti(b.ports[p])
  {
    var prt := b.ports[p];
    ShapeOfOk(b);
    assert RM.Next(b, p, 0).None? && !RS.SelectionDue(b, 0);
    assert !PhaseDue(Inform, b.cfg, prt) && !PhaseDue(Receive, b.cfg, prt);
    assert PM.NextReceive(b.cfg, prt).None?;
    assert forall t :: 0 <= t < |prt.info| ==> PI.Next(prt, t).None?;
    forall t | 0 <= t < |prt.info| ensures !prt.sel[t].reselect {
      assert !RS.SelectionDue(b, t) && !b.ports[p].sel[t].reselect;
    }
    assert !RT.RoleMustChange(RM.EnvOf(b, p, 0), RM.NodeOf(prt, 0));
    hide PI.Next, Settled, RM.Next;
    SettledInformation(prt);
    if prt.rx.rcvdBpdu {
      var t :| 0 <= t < |prt.info| && prt.info[t].rcvdMsg;
      assert NodeOk(prt, t);
      hide NodeOk, CistAtRest;
      if t > 0 { SettledMsti(prt, t); }
    }
  }
}
