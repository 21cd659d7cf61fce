/**
 Disabled ports.  When a port is disabled, Port Information forgets what it received but not a pending
 `updtInfo` (mstp.c:3343-3361), and role selection leaves it alone (mstp.c:2735-2740).  The role machine waits
 for `updtInfo` to clear, so such a port keeps its old role.  It takes a pass cut short by the time limit.
 */
module DisabledPorts {
  import opened Types
  import opened PortInvariant
  import opened BridgeRun
  import opened Events
  import opened Passes
  import PI = PortInformation
  import PM = PortMachines
  import PT = PortTransmit
  import RS = RoleSelection
  import RT = RoleTransitions
  import RM = RoleMachine
  import TC = TopologyChange
  import SB = SettledBridge

  // ---- What is pending on a disabled port -----------------------------------------------------------

  /** On every tree an update is pending if it was. */
  predicate SamePending(prt: Port, r: Port) {
    && r.cfg == prt.cfg && |r.info| == |prt.info|
    && forall u :: 0 <= u < |prt.info| ==> r.info[u].updtInfo == prt.info[u].updtInfo
  }

  /** Nothing is known on any tree. */
  predicate KnowsNothing(prt: Port) { forall u :: 0 <= u < |prt.info| ==> prt.info[u].infoIs == IoDisabled }

  /** Port Information neither raises nor clears what is pending on a disabled port. */
  lemma {:induction false} DisabledRunKeepsPending(cfg: BridgeConfig, prt: Port, t: nat)
    requires PortOk(cfg, prt) && t < |prt.info| && !prt.cfg.portEnabled
    ensures var r := PI.Run(cfg, prt, t);
      && SamePending(prt, r) && r.rv == prt.rv && r.info[t].infoIs == IoDisabled
      && forall u :: 0 <= u < |prt.info| && u != t ==> r.info[u] == prt.info[u]
    decreases PI.Measure(prt.cfg.portEnabled, prt.info[t])
  {
    hide PI.Enter, PI.Measure, RoleOk;
    assert NodeOk(prt, t);
    if PI.Next(prt, t).Some? {
      PI.TransitionDecreases(cfg, prt, t) by { hide PI.Run; }
      InformationTransition(cfg, prt, t) by { hide PI.Run; }
      DisabledRunKeepsPending(cfg, PI.Enter(cfg, prt, t, PI.Next(prt, t).value), t);
    }
  }

  lemma {:induction false} DisabledInformation(cfg: BridgeConfig, prt: Port, n: nat)
    requires PortOk(cfg, prt) && n <= |cfg.mstids| && !prt.cfg.portEnabled
    ensures var r := RunInformation(cfg, prt, n);
      SamePending(prt, r) && r.rv == prt.rv && forall u :: 0 <= u < n ==> r.info[u].infoIs == IoDisabled
  {
    hide NodeOk, PI.Run;
    if n > 0 {
      DisabledInformation(cfg, prt, n - 1);
      DisabledRunKeepsPending(cfg, RunInformation(cfg, prt, n - 1), n - 1);
    }
  }

  lemma PhaseKeepsPending(k: Phase, cfg: BridgeConfig, prt: Port)
    requires PortOk(cfg, prt) && !prt.cfg.portEnabled
    ensures var r := RunPhase(k, cfg, prt);
      SamePending(prt, r) && r.rv == prt.rv && (k.Inform? ==> KnowsNothing(r))
  {
    hide NodeOk, PM.EnterDiscard, PM.EnterReceive, PM.RunMigration, PM.RunEdge, PT.Run, RunInformation, PM.NextReceive;
    HelloTimeIsFixed(cfg, prt);
    match k
    case Inform =>
      DisabledInformation(cfg, prt, |cfg.mstids|);
      PhaseKeepsPort(k, cfg, prt);
    case _ =>
  }

  /** What the machines before role selection leave on a disabled port. */
  lemma PortMachinesKeepPending(b: Bridge, p: nat)
    requires BridgeOk(b) && p < |b.ports| && !b.ports[p].cfg.portEnabled
    ensures var prt, r := b.ports[p], RunPortMachines(b).ports[p];
      SamePending(prt, r) && r.rv == prt.rv && KnowsNothing(r)
  {
    hide NodeOk, RunPhase;
    var b1 := RunPorts(Assure, b);
    PhaseKeepsPending(Assure, b.cfg, b.ports[p]);
    var b2 := RunPorts(Receive, b1);
    PhaseKeepsPending(Receive, b.cfg, b1.ports[p]);
    var b3 := RunPorts(Migrate, b2);
    PhaseKeepsPending(Migrate, b.cfg, b2.ports[p]);
    var b4 := RunPorts(DetectEdge, b3);
    PhaseKeepsPending(DetectEdge, b.cfg, b3.ports[p]);
    var b5 := RunPorts(Transmit, b4);
    PhaseKeepsPending(Transmit, b.cfg, b4.ports[p]);
    PhaseKeepsPending(Inform, b.cfg, b5.ports[p]);
  }

  lemma PhaseKeepsConfig(k: Phase, cfg: BridgeConfig, prt: Port)
    requires PortOk(cfg, prt)
    ensures RunPhase(k, cfg, prt).cfg == prt.cfg
  {
    if prt.cfg.portEnabled { PhaseRemembers(k, cfg, prt); } else { PhaseKeepsPending(k, cfg, prt); }
  }

  lemma PassKeepsConfig(b: Bridge, p: nat)
    requires BridgeOk(b) && p < |b.ports|
    ensures RunOnce(b).ports[p].cfg == b.ports[p].cfg
  {
    hide PortOk, RunPhase, RunSelections, LateMachines;
    var b1 := RunPorts(Assure, b);
    PhaseKeepsConfig(Assure, b.cfg, b.ports[p]);
    var b2 := RunPorts(Receive, b1);
    PhaseKeepsConfig(Receive, b.cfg, b1.ports[p]);
    var b3 := RunPorts(Migrate, b2);
    PhaseKeepsConfig(Migrate, b.cfg, b2.ports[p]);
    var b4 := RunPorts(DetectEdge, b3);
    PhaseKeepsConfig(DetectEdge, b.cfg, b3.ports[p]);
    var b5 := RunPorts(Transmit, b4);
    PhaseKeepsConfig(Transmit, b.cfg, b4.ports[p]);
    PhaseKeepsConfig(Inform, b.cfg, b5.ports[p]);
    var c := RunPortMachines(b);
    SelectionsFrames(c, |b.trees|);
    assert SelectionFrame(c.ports[p], RunSelections(c, |b.trees|).ports[p]);
    LateMachinesFrame(RunSelections(c, |b.trees|));
    assert LateFrame(RunSelections(c, |b.trees|).ports[p], RunOnce(b).ports[p]);
  }

  lemma SelectionKeepsPending(tree: Tree, t: nat, prt: Port, isRoot: bool, sync: bool)
    requires t < |prt.info| == |prt.sel| == |prt.conf| == |prt.rv| && KnowsNothing(prt)
    ensures RS.SelectPort(tree, t, prt, isRoot, sync).info == prt.info
  {
    hide RS.DesignatedPriority, RS.DesignatedTimes, RS.WakesMstis, RS.SyncMaster;
  }

  lemma {:induction false} SelectionsKeepPending(b: Bridge, n: nat, p: nat)
    requires BridgeOk(b) && n <= |b.trees| && p < |b.ports| && KnowsNothing(b.ports[p])
    ensures RunSelections(b, n).ports[p].info == b.ports[p].info
  {
    hide PortOk, RS.SelectionDue, RS.SelectPort, RS.NewTree, RS.RootIndex, RS.SyncsMaster;
    if n > 0 {
      SelectionsKeepPending(b, n - 1, p);
      var c, t := RunSelections(b, n - 1), n - 1;
      ShapeOfOk(c);
      var tree := RS.NewTree(c.cfg, c.trees[t], t, c.ports);
      SelectionKeepsPending(tree, t, c.ports[p], RS.RootIndex(c.cfg, c.trees[t], t, c.ports) == Some(p),
          RS.SyncsMaster(c.trees[t], tree, t));
    }
  }

  /** A pass neither raises nor clears what is pending on a disabled port, and leaves it without information. */
  lemma PassKeepsPending(b: Bridge, p: nat)
    requires BridgeOk(b) && p < |b.ports| && !b.ports[p].cfg.portEnabled
    ensures SamePending(b.ports[p], RunOnce(b).ports[p]) && KnowsNothing(RunOnce(b).ports[p])
  {
    hide PortOk, RunPortMachines, RunSelections, LateMachines;
    var c := RunPortMachines(b);
    var d := RunSelections(c, |b.trees|);
    PortMachinesKeepPending(b, p);
    SelectionsFrames(c, |b.trees|);
    assert SelectionFrame(c.ports[p], d.ports[p]);
    SelectionsKeepPending(c, |b.trees|, p);
    LateMachinesFrame(d);
    assert LateFrame(d.ports[p], LateMachines(d).ports[p]);
  }

  // ---- The role of a disabled port ------------------------------------------------------------------

  predicate SameRole(rv: RoleVars, r: RoleVars) { r.role == rv.role && r.learn == rv.learn && r.forward == rv.forward }

  /** While updtInfo is set, the role machine only finishes what it has begun. */
  lemma InactiveStepKeepsRole(e: RT.Env, n: RT.Node)
    requires RT.Safe(n.rv) && !e.active && RT.Next(e, n).Some?
    ensures SameRole(n.rv, RT.Enter(e, n, RT.Next(e, n).value).rv)
  {
    hide RT.AllSynced, RT.SyncedDue;
  }

  lemma {:induction false} InactiveRunKeepsRole(b: Bridge, p: nat, t: nat, depth: nat)
    requires RM.InRange(b, p, t) && RT.Safe(b.ports[p].rv[t]) && !RM.EnvOf(b, p, t).active
    ensures SameRole(b.ports[p].rv[t], RM.Run(b, p, t, depth).ports[p].rv[t])
    decreases depth
  {
    hide RM.Enter, RM.EnvOf, RT.Safe, RT.Next, RT.Enter, RM.PortFrame;
    if RM.Next(b, p, t).Some? && depth != 0 {
      var s := RM.Next(b, p, t).value;
      RM.EnvIsStable(b, p, t, s);
      RT.TransitionIsSafe(RM.EnvOf(b, p, t), RM.NodeOf(b.ports[p], t));
      InactiveStepKeepsRole(RM.EnvOf(b, p, t), RM.NodeOf(b.ports[p], t));
      InactiveRunKeepsRole(RM.Enter(b, p, t, s), p, t, depth - 1);
    }
  }

  /** Seen from a node with something pending, the bridge `r` is the bridge `b` further on. */
  predicate StillPending(b: Bridge, r: Bridge, p: nat, u: nat)
    requires p < |b.ports|
  {
    && |r.ports| == |b.ports| && |r.ports[p].info| == |b.ports[p].info| == |r.ports[p].rv| == |b.ports[p].rv|
    && u < |b.ports[p].info| && r.ports[p].info[u].updtInfo && SameRole(b.ports[p].rv[u], r.ports[p].rv[u])
  }

  /** One call of the role machine of any node. */
  lemma RoleRunKeepsRole(b: Bridge, q: nat, t: nat, p: nat, u: nat)
    requires BridgeOk(b) && q < |b.ports| && t < |b.trees| && p < |b.ports| && StillPending(b, b, p, u)
    ensures RM.InRange(b, q, t) && StillPending(b, RM.Run(b, q, t, RM.DEPTH), p, u)
  {
    ShapeOfOk(b);
    assert NodeOk(b.ports[p], u);
    hide RM.Run, NodeOk;
    RM.RunFrame(b, q, t, RM.DEPTH);
    assert RM.PortFrame(b.ports[p], RM.Run(b, q, t, RM.DEPTH).ports[p], p == q, t);
    if p == q && t == u { InactiveRunKeepsRole(b, p, u, RM.DEPTH); }
  }

  lemma {:induction false} RolesOfKeepRole(b: Bridge, q: nat, n: nat, p: nat, u: nat)
    requires BridgeOk(b) && q < |b.ports| && n <= |b.trees| && p < |b.ports| && StillPending(b, b, p, u)
    ensures StillPending(b, RunRolesOf(b, q, n), p, u)
  {
    hide BridgeOk, RM.Run;
    if n > 0 {
      RolesOfKeepRole(b, q, n - 1, p, u);
      RoleRunKeepsRole(RunRolesOf(b, q, n - 1), q, n - 1, p, u);
    }
  }

  lemma {:induction false} RolesKeepRole(b: Bridge, n: nat, p: nat, u: nat)
    requires BridgeOk(b) && n <= |b.ports| && p < |b.ports| && StillPending(b, b, p, u)
    ensures StillPending(b, RunRoles(b, n), p, u)
  {
    hide BridgeOk, RunRolesOf;
    if n > 0 {
      RolesKeepRole(b, n - 1, p, u);
      RolesOfKeepRole(RunRoles(b, n - 1), n - 1, |b.trees|, p, u);
    }
  }

  lemma {:induction false} TopologyOfKeepsRole(b: Bridge, q: nat, n: nat, p: nat)
    requires BridgeOk(b) && q < |b.ports| && n <= |b.trees| && p < |b.ports|
    ensures RunTopologyOf(b, q, n).ports[p].rv == b.ports[p].rv
  {
    hide NodeOk, TC.Run;
    if n > 0 {
      var c := RunTopologyOf(b, q, n - 1);
      TopologyOfKeepsRole(b, q, n - 1, p);
      ShapeOfOk(c);
      TC.RunFrame(c, q, n - 1);
      assert TC.PortFrame(c.ports[p], TC.Run(c, q, n - 1).ports[p], p == q, n - 1);
    }
  }

  lemma {:induction false} TopologyKeepsRole(b: Bridge, n: nat, p: nat)
    requires BridgeOk(b) && n <= |b.ports| && p < |b.ports|
    ensures RunTopology(b, n).ports[p].rv == b.ports[p].rv
  {
    hide BridgeOk, RunTopologyOf;
    if n > 0 {
      TopologyKeepsRole(b, n - 1, p);
      TopologyOfKeepsRole(RunTopology(b, n - 1), n - 1, |b.trees|, p);
    }
  }

  lemma ForwardKeepsRole(b: Bridge, p: nat)
    requires BridgeOk(b) && p < |b.ports|
    ensures RunPorts(Forward, b).ports[p].rv == b.ports[p].rv
  {
    hide NodeOk;
  }

  lemma LateMachinesKeepRole(b: Bridge, p: nat, u: nat)
    requires BridgeOk(b) && p < |b.ports| && StillPending(b, b, p, u)
    ensures |LateMachines(b).ports[p].rv| == |b.ports[p].rv|
    ensures SameRole(b.ports[p].rv[u], LateMachines(b).ports[p].rv[u])
  {
    hide BridgeOk;
    var c := RunRoles(b, |b.ports|);
    RolesKeepRole(b, |b.ports|, p, u);
    ForwardKeepsRole(c, p);
    TopologyKeepsRole(RunPorts(Forward, c), |b.ports|, p);
  }

  /** A pass keeps the role of a disabled port on a tree with something pending. */
  lemma PassKeepsRole(b: Bridge, p: nat, u: nat)
    requires BridgeOk(b) && p < |b.ports| && !b.ports[p].cfg.portEnabled && StillPending(b, b, p, u)
    ensures StillPending(b, RunOnce(b), p, u)
  {
    hide PortOk, RunPortMachines, RunSelections, LateMachines;
    var c := RunPortMachines(b);
    var d := RunSelections(c, |b.trees|);
    PortMachinesKeepPending(b, p);
    SelectionsFrames(c, |b.trees|);
    assert SelectionFrame(c.ports[p], d.ports[p]);
    SelectionsKeepPending(c, |b.trees|, p);
    LateMachinesKeepRole(d, p, u);
    PassKeepsPending(b, p);
  }

  lemma {:induction false} MachinesKeepPending(b: Bridge, limit: nat, p: nat, u: nat)
    requires BridgeOk(b) && p < |b.ports| && !b.ports[p].cfg.portEnabled
    ensures SamePending(b.ports[p], RunMachines(b, limit).ports[p])
    ensures StillPending(b, b, p, u) ==> StillPending(b, RunMachines(b, limit), p, u)
    decreases limit
  {
    hide BridgeOk, RunOnce, Settled;
    if limit > 0 && !Settled(b) {
      PassKeepsPending(b, p);
      if StillPending(b, b, p, u) { PassKeepsRole(b, p, u); }
      MachinesKeepPending(RunOnce(b), limit - 1, p, u);
    }
  }

  /** On every tree a settled disabled port forwards exactly if it has something pending and is asked to. */
  lemma SettledDisabledPort(b: Bridge, p: nat, t: nat)
    requires BridgeOk(b) && Settled(b) && p < |b.ports| && t < |b.trees| && !b.ports[p].cfg.portEnabled
    ensures !b.ports[p].info[t].updtInfo ==> b.ports[p].rv[t].role == RoleDisabled && !b.ports[p].fw[t].learning
    ensures b.ports[p].fw[t].forwarding <==> b.ports[p].info[t].updtInfo && b.ports[p].rv[t].forward
  {
    SettledNode(b, p, t);
    hide Settled, PortOk;
    SB.SettledPortStates(b, p, t);
  }

  /** A node of a settled bridge has its selected role unless an update is pending, and then its port is disabled. */
  lemma SettledNode(b: Bridge, p: nat, t: nat)
    requires BridgeOk(b) && Settled(b) && p < |b.ports| && t < |b.trees|
    ensures var prt := b.ports[p];
      && (!prt.info[t].updtInfo ==> prt.rv[t].role == prt.sel[t].selectedRole)
      && (prt.cfg.portEnabled ==> !prt.info[t].updtInfo)
      && (!prt.cfg.portEnabled ==> prt.sel[t].selectedRole == RoleDisabled)
  {
    var prt := b.ports[p];
    ShapeOfOk(b);
    assert !RS.SelectionDue(b, t) && RM.Next(b, p, t).None? && !PhaseDue(Inform, b.cfg, prt);
    assert !prt.sel[t].reselect && NodeOk(prt, t) && PI.Next(prt, t).None?;
    hide Settled, PhaseDue;
  }

  /** When a disabled port forwards.  Once the machines have settled, it does so on a tree exactly if, before they ran,
      an update was pending there and it was asked to. */
  lemma DisabledPortForwards(b: Bridge, limit: nat, p: nat, t: nat)
    requires BridgeOk(b) && Settled(RunMachines(b, limit)) && p < |b.ports| && t < |b.trees|
    requires !b.ports[p].cfg.portEnabled
    ensures var prt, r := b.ports[p], RunMachines(b, limit).ports[p];
      r.fw[t].forwarding <==> prt.info[t].updtInfo && prt.rv[t].forward
  {
    ShapeOfPort(b, p);
    ShapeOfPort(RunMachines(b, limit), p);
    hide PortOk, Settled, RunMachines;
    MachinesKeepPending(b, limit, p, t);
    SettledDisabledPort(RunMachines(b, limit), p, t);
  }

  // ---- Patient histories ----------------------------------------------------------------------------

  /** Nothing is pending on any tree of a port. */
  predicate Idle(info: seq<Info>) { forall u :: 0 <= u < |info| ==> !info[u].updtInfo }

  /** Nothing is pending on a disabled port. */
  predicate Quiet(prt: Port) { !prt.cfg.portEnabled ==> Idle(prt.info) }

  predicate AllQuiet(b: Bridge)
    requires BridgeOk(b)
  {
    forall p :: 0 <= p < |b.ports| ==> Quiet(b.ports[p])
  }

  lemma {:induction false} MachinesStayQuiet(b: Bridge, limit: nat)
    requires BridgeOk(b) && AllQuiet(b)
    ensures AllQuiet(RunMachines(b, limit))
    decreases limit
  {
    hide NodeOk, RunOnce, Settled;
    if limit > 0 && !Settled(b) {
      forall p | 0 <= p < |b.ports| ensures Quiet(RunOnce(b).ports[p]) {
        assert Quiet(b.ports[p]);
        PassKeepsConfig(b, p);
        if !b.ports[p].cfg.portEnabled { PassKeepsPending(b, p); }
      }
      MachinesStayQuiet(RunOnce(b), limit - 1);
    }
  }

  /** A link that goes down does so while nothing is pending on its port. */
  predicate Patient(b: Bridge, e: Event)
    requires BridgeOk(b)
  {
    e.LinkDown? && e.port < |b.ports| && b.ports[e.port].cfg.portEnabled ==> Idle(b.ports[e.port].info)
  }

  lemma EventsStayQuiet(b: Bridge, e: Event)
    requires BridgeOk(b) && AllQuiet(b) && Acceptable(b, e) && Patient(b, e)
    ensures AllQuiet(Apply(b, e))
  {
    hide NodeOk, ReceiveBpdu, Reselect, Readdress;
    var r := Apply(b, e);
    forall p | 0 <= p < |b.ports| ensures Quiet(r.ports[p]) {
      assert Quiet(b.ports[p]);
      EventStaysQuiet(b, e, p);
    }
  }

  lemma EventStaysQuiet(b: Bridge, e: Event, p: nat)
    requires BridgeOk(b) && Acceptable(b, e) && Patient(b, e) && p < |b.ports| && Quiet(b.ports[p])
    ensures Quiet(Apply(b, e).ports[p])
  {
    hide NodeOk, Validate, Reselect, Readdress, PT.AssurancePort, BeginPort, RetimedPort, ResetPort, TickPort;
    hide Idle, SamePending;
    match e
    case OneSecond =>
      TickKeepsPending(b.ports[p]);
      QuietAsBefore(b.ports[p], TickPort(b.ports[p]));
    case SetVersion(v) =>
      BeginKeepsPending(b.cfg.(version := v), b.ports[p]);
      QuietAsBefore(b.ports[p], BeginPort(b.cfg.(version := v), b.ports[p]));
    case SetRegion(id) =>
      BeginKeepsPending(b.cfg.(configId := id), b.ports[p]);
      QuietAsBefore(b.ports[p], BeginPort(b.cfg.(configId := id), b.ports[p]));
    case SetAddress(_) =>
      BeginKeepsPending(b.cfg, b.ports[p]);
      QuietAsBefore(b.ports[p], BeginPort(b.cfg, b.ports[p]));
    case Reenable =>
      ResetIsQuiet(b.cfg, b.ports[p]);
      BeginKeepsPending(b.cfg, ResetPort(b.ports[p]));
      QuietAsBefore(ResetPort(b.ports[p]), BeginPort(b.cfg, ResetPort(b.ports[p])));
    case SetTimes(age, delay, hops) =>
      RetimedKeepsPending(WithTimes(b.cfg, age, delay, hops), b.ports[p]);
      QuietAsBefore(b.ports[p], RetimedPort(WithTimes(b.cfg, age, delay, hops), b.ports[p]));
    case SetBridgeId(_, _) => SettingStaysQuiet(b, e, p);
    case SetNode(_, _, _) => SettingStaysQuiet(b, e, p);
    case SetOptions(_, _) => SettingStaysQuiet(b, e, p);
    case _ => hide Tick, Restart, Reset, Retime, SetIdentifier, SetNodeConfig, SetPortOptions;
  }

  lemma SettingStaysQuiet(b: Bridge, e: Event, p: nat)
    requires BridgeOk(b) && Acceptable(b, e) && p < |b.ports| && Quiet(b.ports[p])
    requires e.SetBridgeId? || e.SetNode? || e.SetOptions?
    ensures Quiet(Apply(b, e).ports[p])
  {
    hide NodeOk, Reselect, Idle, SamePending;
    match e
    case SetBridgeId(t, _) => ReselectKeepsPending(b.ports[p], t);
    case SetNode(q, t, conf) => ReselectKeepsPending(b.ports[q].(conf := b.ports[q].conf[t := conf]), t);
    case SetOptions(q, _) => ReselectKeepsPending(b.ports[q], 0);
  }

  lemma QuietAsBefore(prt: Port, r: Port)
    requires SamePending(prt, r) && Quiet(prt)
    ensures Quiet(r)
  {
  }

  lemma TickKeepsPending(prt: Port)
    ensures SamePending(prt, TickPort(prt))
  {
  }

  lemma BeginKeepsPending(cfg: BridgeConfig, prt: Port)
    requires PortShape(cfg, prt)
    ensures SamePending(prt, BeginPort(cfg, prt))
  {
  }

  lemma RetimedKeepsPending(cfg: BridgeConfig, prt: Port)
    ensures SamePending(prt, RetimedPort(cfg, prt))
  {
  }

  lemma ResetIsQuiet(cfg: BridgeConfig, prt: Port)
    requires PortShape(cfg, prt)
    ensures var r := ResetPort(prt); PortShape(cfg, r) && Idle(r.info) && r.cfg == prt.cfg
  {
  }

  lemma ReselectKeepsPending(prt: Port, t: nat)
    requires t < |prt.sel|
    ensures Reselect(prt, t).info == prt.info && Reselect(prt, t).cfg == prt.cfg
  {
  }

  predicate PatientHistory(b: Bridge, history: seq<Step>)
    requires BridgeOk(b)
    decreases |history|
  {
    history != [] ==> Patient(b, history[0].event) && PatientHistory(Advance(b, history[0]), history[1..])
  }

  /** In a settled bridge nothing is pending on an enabled port, so any link may go down. */
  lemma SettledIsPatient(b: Bridge, e: Event)
    requires BridgeOk(b) && Settled(b)
    ensures Patient(b, e)
  {
    hide Settled, NodeOk;
    if e.LinkDown? && e.port < |b.ports| && b.ports[e.port].cfg.portEnabled {
      forall u | 0 <= u < |b.ports[e.port].info|
        ensures !b.ports[e.port].info[u].updtInfo { SettledNode(b, e.port, u); }
    }
  }

  /** Over every patient history, with or without passes cut short, nothing is ever pending on a disabled port. */
  lemma {:induction false} HistoriesStayQuiet(b: Bridge, history: seq<Step>)
    requires BridgeOk(b) && AllQuiet(b) && PatientHistory(b, history)
    ensures AllQuiet(After(b, history))
    decreases |history|
  {
    hide BridgeOk, AllQuiet, Apply, Runs, RunMachines, Patient;
    if history != [] {
      var s := history[0];
      if Acceptable(b, s.event) {
        EventsStayQuiet(b, s.event);
        MachinesStayQuiet(Apply(b, s.event), s.limit);
      }
      HistoriesStayQuiet(Advance(b, s), history[1..]);
    }
  }

  /** Every settled state that a patient history leads to, on every tree, disabled ports included. */
  lemma QuietHistoryShape(b: Bridge, history: seq<Step>, p: nat, t: nat)
    requires BridgeOk(b) && AllQuiet(b) && PatientHistory(b, history) && Settled(After(b, history))
    requires p < |b.ports| && t < |b.trees|
    ensures var prt := After(b, history).ports[p];
      && !prt.info[t].updtInfo && prt.rv[t].role == prt.sel[t].selectedRole
      && (!prt.cfg.portEnabled ==> prt.rv[t].role == RoleDisabled && !prt.fw[t].forwarding && !prt.fw[t].learning)
  {
    hide Settled, PatientHistory, After, PortOk;
    HistoriesStayQuiet(b, history);
    var r := After(b, history);
    ShapeOfPort(r, p);
    SettledNode(r, p, t);
    if !r.ports[p].cfg.portEnabled { SettledDisabledPort(r, p, t); }
    assert Quiet(r.ports[p]);
  }

  // ---- An impatient history -------------------------------------------------------------------------

  const TIMES := Times(20, 15, 20, 0, 2)
  const CONFIG := BridgeConfig(PROTO_RSTP, 20, 15, 20, 2, 6, 3, ConfigId(0, [], 0, []), [0])
  const OLD_ID: BridgeId := 0x8000_0000_0000_0001
  const NEW_ID: BridgeId := 0x7000_0000_0000_0001

  function OwnTree(id: BridgeId): Tree {
    Tree(0, id, Vector(id, 0, id, 0, id, 0), TIMES, Vector(id, 0, id, 0, id, 0), 0, TIMES, RoleSelection)
  }

  /** The only port of the bridge, Designated and forwarding, with what the history changes as parameters. */
  function LonePort(enabled: bool, rx: Rx, mig: Migration, tx: Tx, info: Info, sel: Selection, agree: bool): (r: Port)
    ensures r.rx == rx && r.cfg.portEnabled == enabled
  {
    Port(PortConfig(enabled, true, false, false, 20000, false, true, false, false, false, false, false),
         [PtpConfig(0x8001, 20000)], rx, mig, EdgeVars(NotEdge, false), tx,
         PortFlags(false, false, false), Assurance(false, 0), [info], [sel],
         [Handshake(false, false, agree, false, false, false, true, false, false, false, false)],
         [RoleVars(DesignatedPort, RoleDesignated, true, true, 0, 0, 0)],
         [ForwardingVars(Forwarding, true, true, BrForwarding)],
         [Topology(TcActive, 0, false, false)])
  }

  function LoneVector(id: BridgeId): Vector { Vector(id, 0, id, 0, id, 0x8001) }

  function LoneRx(state: ReceiveState, edgeDelay: nat): Rx {
    Rx(state, false, false, false, false, PT.BlankBpdu(), 0, edgeDelay)
  }

  function LoneInfo(state: InfoState, infoIs: InfoIs, updtInfo: bool): Info {
    Info(state, infoIs, OtherInfo, false, updtInfo, 0, 0, LoneVector(OLD_ID), TIMES, LoneVector(OLD_ID), TIMES)
  }

  function Lone(id: BridgeId, prt: Port): Bridge { Bridge(CONFIG, [OwnTree(id)], [prt]) }

  /** At rest. */
  function RestingLone(): Bridge {
    Lone(OLD_ID, LonePort(true, LoneRx(RxReceive, 3), Migration(Sensing, 0, false, true),
                          Tx(TransmitIdle, 0, 2, false, false, false, []), LoneInfo(InfoCurrent, IoMine, false),
                          Selection(true, false, RoleDesignated, LoneVector(OLD_ID), TIMES), true))
  }

  /** A second after the new identifier, with time for one pass: the new vector waits for Port Information. */
  function PendingLone(): Bridge {
    Lone(NEW_ID, LonePort(true, LoneRx(RxReceive, 2), Migration(Sensing, 0, false, true),
                          Tx(TransmitIdle, 0, 1, false, false, false, []), LoneInfo(InfoCurrent, IoMine, true),
                          Selection(true, false, RoleDesignated, LoneVector(NEW_ID), TIMES), true))
  }

  /** At rest after the link went down. */
  function StuckLone(): Bridge {
    Lone(NEW_ID, LonePort(false, LoneRx(RxDiscard, 3), Migration(CheckingRstp, 3, false, true),
                          Tx(TransmitInit, 0, 1, true, true, false, []), LoneInfo(InfoDisabled, IoDisabled, true),
                          Selection(true, false, RoleDisabled, LoneVector(NEW_ID), TIMES), false))
  }

  lemma LoneIsOk(id: BridgeId, prt: Port)
    requires PortShape(CONFIG, prt) && NodeOk(prt, 0) && prt.tx.txCount == 0 && prt.rx.numMstis == 0
    requires prt.ba.rcvdInfoWhile == 0
    ensures BridgeOk(Lone(id, prt)) && Shape(Lone(id, prt))
  {
    assert PortOk(CONFIG, prt) by { hide NodeOk; }
    hide PortOk;
  }

  /** The role and topology machines leave the port alone. */
  lemma LoneNodesAreIdle(b: Bridge)
    requires BridgeOk(b) && (b == RestingLone() || b == PendingLone() || b == StuckLone())
    ensures SB.NodesIdle(b)
  {
    hide PortOk, PT.BlankBpdu, RT.NextMaster, RT.NextRoot, RT.NextAlternate, RT.NextDisabled;
    ShapeOfOk(b);
    assert TC.Next(b.ports[0], 0).None? by { hide RM.Next; }
    hide TC.Next;
    var e, n := RM.EnvOf(b, 0, 0), RM.NodeOf(b.ports[0], 0);
    hide RM.EnvOf, RM.NodeOf;
    if b == StuckLone() { assert RT.Next(e, n).None?; } else { assert RT.Next(e, n).None?; }
  }

  lemma RestingLoneIsSettled()
    ensures BridgeOk(RestingLone()) && Settled(RestingLone()) && AllQuiet(RestingLone())
  {
    hide PT.BlankBpdu;
    var b := RestingLone();
    LoneIsOk(OLD_ID, b.ports[0]);
    LoneNodesAreIdle(b);
    hide RM.Next, TC.Next;
    forall k: Phase ensures !PhaseDue(k, CONFIG, b.ports[0]) { hide NodeOk; }
    hide PhaseDue, PortOk;
    assert !RS.SelectionDue(b, 0);
  }

  lemma StuckLoneIsSettled()
    ensures BridgeOk(StuckLone()) && Settled(StuckLone())
  {
    hide PT.BlankBpdu;
    var b := StuckLone();
    LoneIsOk(NEW_ID, b.ports[0]);
    LoneNodesAreIdle(b);
    hide RM.Next, TC.Next;
    forall k: Phase ensures !PhaseDue(k, CONFIG, b.ports[0]) { hide NodeOk; }
    hide PhaseDue, PortOk;
    assert !RS.SelectionDue(b, 0);
  }

  /** The new identifier asks for role selection, and nothing runs yet. */
  function RenamedLone(): Bridge {
    var b := RestingLone();
    b.(trees := [WithBridgeId(OwnTree(OLD_ID), NEW_ID)], ports := [Reselect(b.ports[0], 0)])
  }

  lemma Rename()
    ensures BridgeOk(RestingLone()) && Advance(RestingLone(), Step(SetBridgeId(0, NEW_ID), 1)) == RenamedLone()
  {
    RestingLoneIsSettled();
    hide PT.BlankBpdu, PortOk, Settled, RunMachines, Reselect;
    var b := RestingLone();
    var r := Apply(b, SetBridgeId(0, NEW_ID));
    assert r.ports == [Reselect(b.ports[0], 0)];
  }

  /** No machine of a port has anything to do while its role is not selected. */
  lemma RenamedPortIsIdle()
    ensures BridgeOk(RenamedLone())
    ensures forall k: Phase :: !PhaseDue(k, CONFIG, Tick(RenamedLone()).ports[0])
  {
    Rename();
    hide PT.BlankBpdu, NodeOk, RunMachines;
    forall k: Phase ensures !PhaseDue(k, CONFIG, Tick(RenamedLone()).ports[0]) { }
  }

  /** The pass that is cut short selects the role and leaves the new vector for Port Information to take over. */
  lemma CutPass()
    ensures BridgeOk(RenamedLone()) && Advance(RenamedLone(), Step(OneSecond, 1)) == PendingLone()
  {
    hide PhaseDue, PT.BlankBpdu, PortOk, RS.EnterSelection, RS.SelectionDue, SB.NodesIdle, LateMachines, Tick;
    hide RunPortMachines;
    hide RenamedLone, PendingLone;
    RenamedPortIsIdle();
    var b := Tick(RenamedLone());
    SelectLone();
    PendingLoneIsIdle();
    LoneNodesAreIdle(PendingLone());
    SB.IdlePortMachines(b);
    SB.SelectingPass(b, PendingLone());
    assert RunMachines(b, 1) == RunMachines(RunOnce(b), 0);
  }

  lemma SelectLone()
    ensures BridgeOk(RenamedLone()) && Shape(Tick(RenamedLone()))
    ensures RS.EnterSelection(Tick(RenamedLone()), 0) == PendingLone()
    ensures RS.SelectionDue(Tick(RenamedLone()), 0) && |RenamedLone().trees| == 1 && |RenamedLone().ports| == 1
    ensures Tick(RenamedLone()).cfg == CONFIG && PendingLone().cfg == CONFIG && |PendingLone().ports| == 1
  {
    RenamedPortIsIdle();
    hide PT.BlankBpdu, PortOk, PhaseDue;
    var b := Tick(RenamedLone());
    ShapeOfOk(b);
    assert b.ports[0].sel[0].reselect;
    assert RS.Choose(CONFIG, b.trees[0], 0, b.ports, 1) == RS.Best(b.trees[0].bridgePriority, 0, None);
    assert RS.NewTree(CONFIG, b.trees[0], 0, b.ports) == OwnTree(NEW_ID);
    assert RS.SelectPort(OwnTree(NEW_ID), 0, b.ports[0], false, false) == PendingLone().ports[0];
    assert RS.EnterSelection(b, 0).ports == PendingLone().ports;
  }

  lemma PendingLoneIsIdle()
    ensures BridgeOk(PendingLone()) && !PhaseDue(Forward, CONFIG, PendingLone().ports[0])
  {
    hide PT.BlankBpdu;
    LoneIsOk(NEW_ID, PendingLone().ports[0]);
  }

  /** The link goes down: the steps on the port. */
  function DownPort(rx: Rx, mig: Migration, tx: Tx, info: Info): Port {
    LonePort(false, rx, mig, tx, info, Selection(true, false, RoleDesignated, LoneVector(NEW_ID), TIMES), true)
  }

  /** The port that is left to role selection. */
  function ForgottenPort(): Port {
    LonePort(false, LoneRx(RxDiscard, 3), Migration(CheckingRstp, 3, false, true),
        Tx(TransmitInit, 0, 1, true, true, false, []),
        LoneInfo(InfoDisabled, IoDisabled, true),
        Selection(false, true, RoleDesignated, LoneVector(NEW_ID), TIMES), false)
  }

  /** The port as Port Information finds it. */
  function ForgettingPort(): Port {
    DownPort(LoneRx(RxDiscard, 3), Migration(CheckingRstp, 3, false, true),
             Tx(TransmitInit, 0, 1, true, true, false, []), LoneInfo(InfoCurrent, IoMine, true))
  }

  lemma DownSteps()
    ensures var p0 := PortDown(PendingLone().ports[0]);
      var rx, mig := LoneRx(RxDiscard, 3), Migration(CheckingRstp, 3, false, true);
      var i := LoneInfo(InfoCurrent, IoMine, true);
      var p1 := DownPort(rx, p0.mig, p0.tx, i);
      var p2 := DownPort(rx, mig, p0.tx, i);
      var p3 := ForgettingPort();
      && PortOk(CONFIG, p0) && PortOk(CONFIG, p1) && PortOk(CONFIG, p2) && PortOk(CONFIG, p3)
      && RunPhase(Assure, CONFIG, p0) == p0 && RunPhase(Receive, CONFIG, p0) == p1
      && RunPhase(Migrate, CONFIG, p1) == p2 && RunPhase(DetectEdge, CONFIG, p2) == p2
      && RunPhase(Transmit, CONFIG, p2) == p3
  {
    hide PT.BlankBpdu;
  }

  lemma DownInforms()
    ensures PortOk(CONFIG, ForgettingPort()) && RunPhase(Inform, CONFIG, ForgettingPort()) == ForgottenPort()
    ensures PortOk(CONFIG, ForgottenPort())
  {
    hide PT.BlankBpdu;
  }

  lemma SelectForgotten()
    ensures var b := Lone(NEW_ID, ForgottenPort());
      && BridgeOk(b) && Shape(b) && RS.SelectionDue(b, 0) && RS.EnterSelection(b, 0) == StuckLone()
  {
    hide PT.BlankBpdu, PhaseDue;
    DownInforms();
    var b := Lone(NEW_ID, ForgottenPort());
    assert PortOk(CONFIG, ForgottenPort());
    hide PortOk;
    assert b.ports[0].sel[0].reselect;
    assert RS.Choose(CONFIG, b.trees[0], 0, b.ports, 1) == RS.Best(b.trees[0].bridgePriority, 0, None);
    assert RS.NewTree(CONFIG, b.trees[0], 0, b.ports) == OwnTree(NEW_ID);
    assert RS.SelectPort(OwnTree(NEW_ID), 0, b.ports[0], false, false) == StuckLone().ports[0];
    assert RS.EnterSelection(b, 0).ports == StuckLone().ports;
  }

  /** What is left when the link has gone down. */
  lemma DownPortMachines()
    ensures var b := Lone(NEW_ID, PortDown(PendingLone().ports[0]));
      BridgeOk(b) && RunPortMachines(b) == Lone(NEW_ID, ForgottenPort())
  {
    DownSteps();
    DownInforms();
    hide PortOk, PT.BlankBpdu, RunPhase, DownPort, ForgettingPort, ForgottenPort;
    var b := Lone(NEW_ID, PortDown(PendingLone().ports[0]));
    var rx, mig := LoneRx(RxDiscard, 3), Migration(CheckingRstp, 3, false, true);
    var i, old' := LoneInfo(InfoCurrent, IoMine, true), b.ports[0];
    assert RunPorts(Assure, b).ports == b.ports;
    assert RunPorts(Receive, b).ports == [DownPort(rx, old'.mig, old'.tx, i)];
    var b2 := RunPorts(Receive, b);
    assert RunPorts(Migrate, b2).ports == [DownPort(rx, mig, old'.tx, i)];
    var b3 := RunPorts(Migrate, b2);
    assert RunPorts(DetectEdge, b3).ports == b3.ports;
    assert RunPorts(Transmit, b3).ports == [ForgettingPort()];
    assert RunPorts(Inform, RunPorts(Transmit, b3)).ports == [ForgottenPort()];
  }

  lemma UnplugLone()
    ensures BridgeOk(PendingLone())
    ensures Apply(PendingLone(), LinkDown(0)) == Lone(NEW_ID, PortDown(PendingLone().ports[0]))
    ensures Acceptable(PendingLone(), LinkDown(0)) && Runs(PendingLone(), LinkDown(0))
  {
    PendingLoneIsIdle();
    hide PT.BlankBpdu, PhaseDue, PortOk;
  }

  /** Once more a pass, and the bridge is at rest for good. */
  lemma LinkFails(limit: PassLimit)
    ensures BridgeOk(PendingLone()) && Advance(PendingLone(), Step(LinkDown(0), limit)) == StuckLone()
  {
    hide PhaseDue, PT.BlankBpdu, PortOk, RS.EnterSelection, RS.SelectionDue, SB.NodesIdle, LateMachines;
    hide RunPortMachines;
    hide Settled, PendingLone, StuckLone, ForgottenPort, Apply, Runs;
    UnplugLone();
    DownPortMachines();
    SelectForgotten();
    StuckLoneIsSettled();
    LoneNodesAreIdle(StuckLone());
    SB.SettledParts(StuckLone());
    var c := Lone(NEW_ID, ForgottenPort());
    SB.SelectingPass(c, StuckLone());
    SB.OnePassToRest(Apply(PendingLone(), LinkDown(0)), StuckLone(), limit);
  }

  /** A disabled port that forwards is reached: from rest, a new bridge identifier, a second with time for a single
      pass, and a link that goes down before the next, with all the time there is. */
  lemma DisabledPortForwardsSomewhere(limit: PassLimit)
    ensures BridgeOk(RestingLone()) && Settled(RestingLone()) && AllQuiet(RestingLone())
    ensures var history := [Step(SetBridgeId(0, NEW_ID), 1), Step(OneSecond, 1), Step(LinkDown(0), limit)];
      var r := After(RestingLone(), history);
      Settled(r) && !r.ports[0].cfg.portEnabled && r.ports[0].rv[0].role == RoleDesignated &&
        r.ports[0].fw[0].forwarding
  {
    RestingLoneIsSettled();
    Rename();
    CutPass();
    LinkFails(limit);
    StuckLoneIsSettled();
    hide BridgeOk, Settled, AllQuiet, Advance, RestingLone, RenamedLone, PendingLone;
    var s, t, u := Step(SetBridgeId(0, NEW_ID), 1), Step(OneSecond, 1), Step(LinkDown(0), limit);
    assert [s, t, u][1..] == [t, u] && [t, u][1..] == [u];
    assert After(RestingLone(), [s, t, u]) == After(RenamedLone(), [t, u]) == After(PendingLone(), [u]) == StuckLone();
  }
}
