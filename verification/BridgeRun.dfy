/**
 One bridge: a pass over all state machines, and the dry run that decides whether another pass is needed
 (mstp.c:5037-5168).
 */
module BridgeRun {
  import opened Types
  import opened PortInvariant
  import PI = PortInformation
  import PM = PortMachines
  import PT = PortTransmit
  import RS = RoleSelection
  import RM = RoleMachine
  import TC = TopologyChange

  /** What every pass, tick, BPDU and configuration change keeps true. */
  predicate BridgeOk(b: Bridge) {
    TreesShape(b.cfg, b.trees) && forall p :: 0 <= p < |b.ports| ==> PortOk(b.cfg, b.ports[p])
  }

  // ---- Machines that touch one port only ------------------------------------------------------------

  /** The steps of a pass that are made port by port. */
  datatype Phase = Assure | Receive | Migrate | DetectEdge | Transmit | Inform | Forward

  /** Has an assurance port gone without BPDUs for too long? */
  predicate AssuranceExpires(prt: Port) {
    prt.cfg.portEnabled && PT.AssurancePort(prt) && prt.ba.rcvdInfoWhile == 0 && !prt.ba.inconsistent
  }

  function RunAssurance(prt: Port): Port {
    if AssuranceExpires(prt) then prt.(ba := prt.ba.(inconsistent := true)) else prt
  }

  /** Port Information on the first `n` trees of a port. */
  function RunInformation(cfg: BridgeConfig, prt: Port, n: nat): (r: Port)
    requires PortOk(cfg, prt) && n <= |cfg.mstids|
    ensures PortOk(cfg, r)
  {
    hide PI.Run, NodeOk;
    if n == 0 then prt
    else
      var before := RunInformation(cfg, prt, n - 1);
      InformationKeepsPort(cfg, before, n - 1);
      PI.Run(cfg, before, n - 1)
  }

  /** Port State Transition on every tree of a port. */
  function RunForwarding(prt: Port): (r: Port)
    requires |prt.rv| == |prt.fw|
    ensures |r.fw| == |prt.fw| && r == prt.(fw := r.fw)
    ensures forall t :: 0 <= t < |prt.fw| ==> r.fw[t] == PM.RunForwarding(prt.cfg.deleted, prt.rv[t], prt.fw[t])
  {
    prt.(fw := seq(|prt.fw|, t requires 0 <= t < |prt.fw| => PM.RunForwarding(prt.cfg.deleted, prt.rv[t], prt.fw[t])))
  }

  function RunPhase(k: Phase, cfg: BridgeConfig, prt: Port): Port
    requires PortOk(cfg, prt)
  {
    HelloTimeIsFixed(cfg, prt);
    match k
    case Assure => RunAssurance(prt)
    case Receive => PM.RunReceive(cfg, prt)
    case Migrate => PM.RunMigration(cfg, prt)
    case DetectEdge => PM.RunEdge(prt)
    case Transmit => PT.Run(cfg, prt)
    case Inform => RunInformation(cfg, prt, |cfg.mstids|)
    case Forward => RunForwarding(prt)
  }

  lemma PhaseKeepsPort(k: Phase, cfg: BridgeConfig, prt: Port)
    requires PortOk(cfg, prt)
    ensures PortOk(cfg, RunPhase(k, cfg, prt))
  {
    HelloTimeIsFixed(cfg, prt);
    hide NodeOk, PM.RunReceive, PM.RunMigration, PM.RunEdge, PT.Run, RunInformation, RunForwarding;
    match k
    case Assure => UnrelatedChange(cfg, prt, RunAssurance(prt));
    case Receive => ReceiveKeepsPort(cfg, prt);
    case Migrate => MigrationKeepsPort(cfg, prt);
    case DetectEdge => EdgeKeepsPort(cfg, prt);
    case Transmit => TransmitKeepsPort(cfg, prt);
    case Inform =>
    case Forward => ForwardingKeepsPort(cfg, prt, RunForwarding(prt));
  }

  /** Would this step change the port? */
  predicate PhaseDue(k: Phase, cfg: BridgeConfig, prt: Port)
    requires PortOk(cfg, prt)
  {
    match k
    case Assure => AssuranceExpires(prt)
    case Receive => PM.NextReceive(cfg, prt).Some?
    case Migrate => PM.NextMigration(cfg, prt).Some?
    case DetectEdge => PM.NextEdge(prt).Some?
    case Transmit => PT.Next(cfg, prt).Some?
    case Inform => InformationDue(prt)
    case Forward => ForwardingDue(prt)
  }

  predicate InformationDue(prt: Port)
    requires |prt.info| == |prt.sel|
  {
    exists t :: 0 <= t < |prt.info| && PI.Next(prt, t).Some?
  }

  predicate ForwardingDue(prt: Port)
    requires |prt.rv| == |prt.fw|
  {
    exists t :: 0 <= t < |prt.fw| && PM.NextForwarding(prt.rv[t], prt.fw[t]).Some?
  }

  /** One step of the pass on every port. */
  function RunPorts(k: Phase, b: Bridge): (r: Bridge)
    requires BridgeOk(b)
    ensures BridgeOk(r) && r == b.(ports := r.ports) && |r.ports| == |b.ports|
    ensures forall p :: 0 <= p < |b.ports| ==> r.ports[p] == RunPhase(k, b.cfg, b.ports[p])
  {
    hide PortOk, RunPhase;
    var r := b.(ports := seq(|b.ports|, p requires 0 <= p < |b.ports| => RunPhase(k, b.cfg, b.ports[p])));
    PhaseKeepsPorts(k, b);
    r
  }

  lemma PhaseKeepsPorts(k: Phase, b: Bridge)
    requires BridgeOk(b)
    ensures forall p :: 0 <= p < |b.ports| ==> PortOk(b.cfg, RunPhase(k, b.cfg, b.ports[p]))
  {
    hide PortOk, RunPhase;
    forall p | 0 <= p < |b.ports| ensures PortOk(b.cfg, RunPhase(k, b.cfg, b.ports[p])) {
      PhaseKeepsPort(k, b.cfg, b.ports[p]);
    }
  }

  // ---- Machines of a tree ---------------------------------------------------------------------------

  lemma ShapeOfOk(b: Bridge)
    requires BridgeOk(b)
    ensures Shape(b)
  {
  }

  lemma SelectionKeepsBridge(b: Bridge, t: nat)
    requires BridgeOk(b) && t < |b.trees|
    ensures Shape(b) && BridgeOk(RS.RunSelection(b, t))
  {
    ShapeOfOk(b);
    if RS.SelectionDue(b, t) {
      var tree := RS.NewTree(b.cfg, b.trees[t], t, b.ports);
      var r := RS.EnterSelection(b, t);
      var root, sync := RS.RootIndex(b.cfg, b.trees[t], t, b.ports), RS.SyncsMaster(b.trees[t], tree, t);
      hide RS.NewTree, RS.RootIndex, RS.SyncsMaster, RS.SelectPort, NodeOk;
      forall p | 0 <= p < |b.ports| ensures PortOk(b.cfg, r.ports[p]) {
        SelectionKeepsPort(b.cfg, tree, t, b.ports[p], root == Some(p), sync);
      }
    }
  }

  /** Port Role Selection on the first `n` trees. */
  function RunSelections(b: Bridge, n: nat): (r: Bridge)
    requires BridgeOk(b) && n <= |b.trees|
    ensures BridgeOk(r) && r.cfg == b.cfg && |r.ports| == |b.ports| && |r.trees| == |b.trees|
  {
    hide BridgeOk, RS.RunSelection;
    if n == 0 then b
    else
      var before := RunSelections(b, n - 1);
      SelectionKeepsBridge(before, n - 1);
      RS.RunSelection(before, n - 1)
  }

  lemma RolesKeepBridge(b: Bridge, p: nat, t: nat)
    requires BridgeOk(b) && p < |b.ports| && t < |b.trees|
    ensures RM.InRange(b, p, t) && BridgeOk(RM.Run(b, p, t, RM.DEPTH))
  {
    ShapeOfOk(b);
    assert NodeOk(b.ports[p], t);
    hide RM.Run;
    var r := RM.Run(b, p, t, RM.DEPTH);
    RM.RunFrame(b, p, t, RM.DEPTH);
    RM.RunIsSafe(b, p, t, RM.DEPTH);
    forall q | 0 <= q < |b.ports| ensures PortOk(b.cfg, r.ports[q]) {
      assert RM.PortFrame(b.ports[q], r.ports[q], q == p, t);
      assert NodeOk(b.ports[q], t);
      RolesKeepPort(b.cfg, b.ports[q], r.ports[q], q == p, t);
    }
  }

  /** Port Role Transitions on the first `n` trees of a port. */
  function RunRolesOf(b: Bridge, p: nat, n: nat): (r: Bridge)
    requires BridgeOk(b) && p < |b.ports| && n <= |b.trees|
    ensures BridgeOk(r) && r == b.(ports := r.ports) && |r.ports| == |b.ports|
  {
    hide BridgeOk, RM.Run;
    if n == 0 then b
    else
      var before := RunRolesOf(b, p, n - 1);
      RolesKeepBridge(before, p, n - 1);
      RM.Run(before, p, n - 1, RM.DEPTH)
  }

  /** Port Role Transitions on the first `n` ports. */
  function RunRoles(b: Bridge, n: nat): (r: Bridge)
    requires BridgeOk(b) && n <= |b.ports|
    ensures BridgeOk(r) && r == b.(ports := r.ports) && |r.ports| == |b.ports|
  {
    hide BridgeOk;
    if n == 0 then b else RunRolesOf(RunRoles(b, n - 1), n - 1, |b.trees|)
  }

  lemma TopologyKeepsBridge(b: Bridge, p: nat, t: nat)
    requires BridgeOk(b) && p < |b.ports| && t < |b.trees|
    ensures TC.InRange(b, p, t) && BridgeOk(TC.Run(b, p, t))
  {
    ShapeOfOk(b);
    hide TC.Run, TC.PortFrame, NodeOk;
    TC.RunFrame(b, p, t);
    var r := TC.Run(b, p, t);
    forall q | 0 <= q < |b.ports| ensures PortOk(b.cfg, r.ports[q]) {
      assert TC.PortFrame(b.ports[q], r.ports[q], q == p, t);
      TopologyKeepsPort(b.cfg, b.ports[q], r.ports[q], q == p, t);
    }
  }

  /** Topology Change on the first `n` trees of a port. */
  function RunTopologyOf(b: Bridge, p: nat, n: nat): (r: Bridge)
    requires BridgeOk(b) && p < |b.ports| && n <= |b.trees|
    ensures BridgeOk(r) && r == b.(ports := r.ports) && |r.ports| == |b.ports|
  {
    hide BridgeOk, TC.Run;
    if n == 0 then b
    else
      var before := RunTopologyOf(b, p, n - 1);
      TopologyKeepsBridge(before, p, n - 1);
      TC.Run(before, p, n - 1)
  }

  /** Topology Change on the first `n` ports. */
  function RunTopology(b: Bridge, n: nat): (r: Bridge)
    requires BridgeOk(b) && n <= |b.ports|
    ensures BridgeOk(r) && r == b.(ports := r.ports) && |r.ports| == |b.ports|
  {
    hide BridgeOk;
    if n == 0 then b else RunTopologyOf(RunTopology(b, n - 1), n - 1, |b.trees|)
  }

  // ---- The pass -------------------------------------------------------------------------------------

  /** The part of `__br_state_machines_run` before role selection. */
  function RunPortMachines(b: Bridge): (r: Bridge)
    requires BridgeOk(b)
    ensures BridgeOk(r) && r == b.(ports := r.ports) && |r.ports| == |b.ports|
  {
    hide BridgeOk;
    RunPorts(Inform,
        RunPorts(Transmit, RunPorts(DetectEdge, RunPorts(Migrate, RunPorts(Receive, RunPorts(Assure, b))))))
  }

  /** The part after role selection. */
  function LateMachines(b: Bridge): (r: Bridge)
    requires BridgeOk(b)
    ensures BridgeOk(r) && r == b.(ports := r.ports) && |r.ports| == |b.ports|
  {
    hide BridgeOk;
    RunTopology(RunPorts(Forward, RunRoles(b, |b.ports|)), |b.ports|)
  }

  /** `__br_state_machines_run` with dry_run false. */
  function RunOnce(b: Bridge): (r: Bridge)
    requires BridgeOk(b)
    ensures BridgeOk(r) && r.cfg == b.cfg && |r.ports| == |b.ports| && |r.trees| == |b.trees|
  {
    hide BridgeOk;
    LateMachines(RunSelections(RunPortMachines(b), |b.trees|))
  }

  /** `__br_state_machines_run` with dry_run true answers false: no machine would do anything. */
  predicate Settled(b: Bridge)
    requires BridgeOk(b)
  {
    && (forall p, k: Phase :: 0 <= p < |b.ports| ==> !PhaseDue(k, b.cfg, b.ports[p]))
    && (forall t :: 0 <= t < |b.trees| ==> !RS.SelectionDue(b, t))
    && (forall p, t :: 0 <= p < |b.ports| && 0 <= t < |b.trees| ==>
      RM.Next(b, p, t).None? && TC.Next(b.ports[p], t).None?)
  }

  /** `br_state_machines_run`: passes until the dry run answers false, or until time runs out after `limit`. */
  function RunMachines(b: Bridge, limit: nat): (r: Bridge)
    requires BridgeOk(b)
    ensures BridgeOk(r) && r.cfg == b.cfg && |r.ports| == |b.ports| && |r.trees| == |b.trees|
    decreases limit
  {
    hide BridgeOk, RunOnce, Settled;
    if limit == 0 || Settled(b) then b else RunMachines(RunOnce(b), limit - 1)
  }
}
