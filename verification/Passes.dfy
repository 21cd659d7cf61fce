/**
 What the steps of a pass leave alone, and the bound on transmissions over whole runs.
 */
module Passes {
  import opened Types
  import opened PortInvariant
  import opened BridgeRun
  import opened Events
  import PI = PortInformation
  import PM = PortMachines
  import PT = PortTransmit
  import RS = RoleSelection
  import RM = RoleMachine
  import TC = TopologyChange

  /** Everything but topology flags, handshake flags, roles and port states is kept. */
  predicate LateFrame(prt: Port, r: Port) {
    && r.cfg == prt.cfg && r.conf == prt.conf && r.mig == prt.mig && r.edge == prt.edge && r.ba == prt.ba
    && r.info == prt.info && r.sel == prt.sel && r.flags.infoInternal == prt.flags.infoInternal
    && r.rx == prt.rx.(edgeDelayWhile := r.rx.edgeDelayWhile)
    && r.tx == prt.tx.(newInfo := r.tx.newInfo, newInfoMsti := r.tx.newInfoMsti, tcAck := r.tx.tcAck)
  }

  predicate LateFrames(b: Bridge, r: Bridge) {
    |r.ports| == |b.ports| && forall p :: 0 <= p < |b.ports| ==> LateFrame(b.ports[p], r.ports[p])
  }

  lemma LateFramesCompose(b: Bridge, c: Bridge, d: Bridge)
    requires LateFrames(b, c) && LateFrames(c, d)
    ensures LateFrames(b, d)
  {
    forall p | 0 <= p < |b.ports| ensures LateFrame(b.ports[p], d.ports[p]) {
      assert LateFrame(b.ports[p], c.ports[p]) && LateFrame(c.ports[p], d.ports[p]);
    }
  }

  lemma RoleRunFrames(b: Bridge, p: nat, t: nat)
    requires BridgeOk(b) && p < |b.ports| && t < |b.trees|
    ensures RM.InRange(b, p, t) && LateFrames(b, RM.Run(b, p, t, RM.DEPTH))
  {
    ShapeOfOk(b);
    hide RM.Run, PortOk, RM.PortFrame, LateFrame;
    RM.RunFrame(b, p, t, RM.DEPTH);
    var r := RM.Run(b, p, t, RM.DEPTH);
    forall q | 0 <= q < |b.ports| ensures LateFrame(b.ports[q], r.ports[q]) {
      assert RM.PortFrame(b.ports[q], r.ports[q], q == p, t);
      RoleFrameIsLate(b.ports[q], r.ports[q], q == p, t);
    }
  }

  lemma RoleFrameIsLate(prt: Port, r: Port, own: bool, t: nat)
    requires t < |prt.hs| && RM.PortFrame(prt, r, own, t)
    ensures LateFrame(prt, r)
  {
  }

  lemma TopologyRunFrames(b: Bridge, p: nat, t: nat)
    requires BridgeOk(b) && p < |b.ports| && t < |b.trees|
    ensures TC.InRange(b, p, t) && LateFrames(b, TC.Run(b, p, t))
  {
    ShapeOfOk(b);
    hide TC.Run, PortOk, TC.PortFrame, LateFrame;
    TC.RunFrame(b, p, t);
    var r := TC.Run(b, p, t);
    forall q | 0 <= q < |b.ports| ensures LateFrame(b.ports[q], r.ports[q]) {
      assert TC.PortFrame(b.ports[q], r.ports[q], q == p, t);
      TopologyFrameIsLate(b.ports[q], r.ports[q], q == p, t);
    }
  }

  lemma TopologyFrameIsLate(prt: Port, r: Port, own: bool, t: nat)
    requires t < |prt.tc| && t < |prt.hs| && TC.PortFrame(prt, r, own, t)
    ensures LateFrame(prt, r)
  {
  }

  lemma {:induction false} RolesOfFrames(b: Bridge, p: nat, n: nat)
    requires BridgeOk(b) && p < |b.ports| && n <= |b.trees|
    ensures LateFrames(b, RunRolesOf(b, p, n))
  {
    hide BridgeOk, LateFrames, RM.Run;
    if n == 0 {
      SameFrames(b);
    } else {
      RolesOfFrames(b, p, n - 1);
      var c := RunRolesOf(b, p, n - 1);
      RoleRunFrames(c, p, n - 1);
      LateFramesCompose(b, c, RM.Run(c, p, n - 1, RM.DEPTH));
    }
  }

  lemma SameFrames(b: Bridge)
    ensures LateFrames(b, b)
  {
  }

  lemma {:induction false} RolesFrames(b: Bridge, n: nat)
    requires BridgeOk(b) && n <= |b.ports|
    ensures LateFrames(b, RunRoles(b, n))
  {
    hide BridgeOk, LateFrames, RunRolesOf;
    if n == 0 {
      SameFrames(b);
    } else {
      RolesFrames(b, n - 1);
      var c := RunRoles(b, n - 1);
      RolesOfFrames(c, n - 1, |c.trees|);
      LateFramesCompose(b, c, RunRolesOf(c, n - 1, |c.trees|));
    }
  }

  lemma {:induction false} TopologyOfFrames(b: Bridge, p: nat, n: nat)
    requires BridgeOk(b) && p < |b.ports| && n <= |b.trees|
    ensures LateFrames(b, RunTopologyOf(b, p, n))
  {
    hide BridgeOk, LateFrames, TC.Run;
    if n == 0 {
      SameFrames(b);
    } else {
      TopologyOfFrames(b, p, n - 1);
      var c := RunTopologyOf(b, p, n - 1);
      TopologyRunFrames(c, p, n - 1);
      LateFramesCompose(b, c, TC.Run(c, p, n - 1));
    }
  }

  lemma {:induction false} TopologyFrames(b: Bridge, n: nat)
    requires BridgeOk(b) && n <= |b.ports|
    ensures LateFrames(b, RunTopology(b, n))
  {
    hide BridgeOk, LateFrames, RunTopologyOf;
    if n == 0 {
      SameFrames(b);
    } else {
      TopologyFrames(b, n - 1);
      var c := RunTopology(b, n - 1);
      TopologyOfFrames(c, n - 1, |c.trees|);
      LateFramesCompose(b, c, RunTopologyOf(c, n - 1, |c.trees|));
    }
  }

  lemma ForwardFrames(b: Bridge)
    requires BridgeOk(b)
    ensures LateFrames(b, RunPorts(Forward, b))
  {
    hide PortOk;
  }

  /** The machines after role selection change no information, no selection and nothing that was sent. */
  lemma LateMachinesFrame(b: Bridge)
    requires BridgeOk(b)
    ensures LateFrames(b, LateMachines(b))
  {
    hide BridgeOk, LateFrames;
    var c := RunRoles(b, |b.ports|);
    var d := RunPorts(Forward, c);
    RolesFrames(b, |b.ports|);
    ForwardFrames(c);
    TopologyFrames(d, |d.ports|);
    LateFramesCompose(b, c, d);
    LateFramesCompose(b, d, RunTopology(d, |d.ports|));
  }

  // ---- Role selection -------------------------------------------------------------------------------

  /** Role selection only writes selections, updtInfo and handshake flags. */
  predicate SelectionFrame(prt: Port, r: Port) {
    |r.info| == |prt.info| && r == prt.(sel := r.sel, info := r.info, hs := r.hs)
    && forall t :: 0 <= t < |prt.info| ==> r.info[t] == prt.info[t].(updtInfo := r.info[t].updtInfo)
  }

  predicate SelectionFrames(b: Bridge, r: Bridge) {
    |r.ports| == |b.ports| && forall p :: 0 <= p < |b.ports| ==> SelectionFrame(b.ports[p], r.ports[p])
  }

  lemma SelectionFramesCompose(b: Bridge, c: Bridge, d: Bridge)
    requires SelectionFrames(b, c) && SelectionFrames(c, d)
    ensures SelectionFrames(b, d)
  {
    forall p | 0 <= p < |b.ports| ensures SelectionFrame(b.ports[p], d.ports[p]) {
      assert SelectionFrame(b.ports[p], c.ports[p]) && SelectionFrame(c.ports[p], d.ports[p]);
    }
  }

  lemma SelectedPortFrame(tree: Tree, t: nat, prt: Port, isRoot: bool, sync: bool)
    requires t < |prt.info| == |prt.sel| == |prt.conf| == |prt.rv|
    ensures SelectionFrame(prt, RS.SelectPort(tree, t, prt, isRoot, sync))
  {
    hide RS.DesignatedPriority, RS.DesignatedTimes, RS.ChooseRole, RS.WakesMstis, RS.SyncMaster;
  }

  lemma SelectionRunFrames(b: Bridge, t: nat)
    requires Shape(b) && t < |b.trees|
    ensures SelectionFrames(b, RS.RunSelection(b, t))
  {
    hide RS.SelectionDue, SelectionFrame, RS.SelectPort, RS.NewTree, RS.RootIndex, RS.SyncsMaster;
    var r := RS.EnterSelection(b, t);
    forall p | 0 <= p < |b.ports|
      ensures SelectionFrame(b.ports[p], r.ports[p]) && SelectionFrame(b.ports[p], b.ports[p])
    {
      var tree := RS.NewTree(b.cfg, b.trees[t], t, b.ports);
      SelectedPortFrame(tree, t, b.ports[p], RS.RootIndex(b.cfg, b.trees[t], t, b.ports) == Some(p),
          RS.SyncsMaster(b.trees[t], tree, t));
      assert SelectionFrame(b.ports[p], b.ports[p]) by { SameSelectionFrame(b.ports[p]); }
    }
  }

  lemma SameSelectionFrame(prt: Port)
    ensures SelectionFrame(prt, prt)
  {
  }

  lemma {:induction false} SelectionsFrames(b: Bridge, n: nat)
    requires BridgeOk(b) && n <= |b.trees|
    ensures SelectionFrames(b, RunSelections(b, n))
  {
    hide BridgeOk, SelectionFrame, RS.RunSelection;
    if n == 0 {
      forall p | 0 <= p < |b.ports| ensures SelectionFrame(b.ports[p], b.ports[p]) { SameSelectionFrame(b.ports[p]); }
    } else {
      SelectionsFrames(b, n - 1);
      var c := RunSelections(b, n - 1);
      ShapeOfOk(c);
      SelectionRunFrames(c, n - 1);
      SelectionFramesCompose(b, c, RS.RunSelection(c, n - 1));
    }
  }

  // ---- Transmissions --------------------------------------------------------------------------------

  /** BPDUs handed over, less those the hold counter still remembers. */
  function Forgotten(tx: Tx): int { |tx.sent| - tx.txCount }

  /** The configuration stays, and no more is forgotten than before. */
  predicate Remembers(prt: Port, r: Port) { r.cfg == prt.cfg && Forgotten(r.tx) <= Forgotten(prt.tx) }

  /** Every BPDU that the Port Transmit machine hands over is counted. */
  lemma {:induction false} TransmitRemembers(cfg: BridgeConfig, prt: Port)
    requires PortShape(cfg, prt) && |cfg.mstids| <= MAX_STANDARD_MSTIS && prt.info[0].portTimes.helloTime > 0
    requires prt.cfg.portEnabled
    ensures Remembers(prt, PT.Run(cfg, prt))
    decreases PT.Measure(cfg, prt)
  {
    hide PT.Measure, PT.AllTransmitReady, PT.AssurancePort, PT.MstiMasterPort, PT.ConfigBpdu, PT.RstBpdu, PT.MstBpdu;
    hide PT.TcnBpdu;
    if PT.Next(cfg, prt).Some? {
      PT.TransitionDecreases(cfg, prt);
      TransmitRemembers(cfg, PT.Enter(cfg, prt, PT.Next(cfg, prt).value));
    }
  }

  lemma {:induction false} InformationRunKeepsTx(cfg: BridgeConfig, prt: Port, t: nat)
    requires PortShape(cfg, prt) && t < |prt.info|
    ensures Remembers(prt, PI.Run(cfg, prt, t))
    decreases PI.Measure(prt.cfg.portEnabled, prt.info[t])
  {
    hide PI.Enter, PI.Next, PI.Measure, PI.InfoAfter, PI.SelAfter;
    if PI.Next(prt, t).Some? {
      PI.TransitionDecreases(cfg, prt, t) by { hide PI.Run; }
      InformationRunKeepsTx(cfg, PI.Enter(cfg, prt, t, PI.Next(prt, t).value), t);
    }
  }

  lemma {:induction false} InformationKeepsTx(cfg: BridgeConfig, prt: Port, n: nat)
    requires PortOk(cfg, prt) && n <= |cfg.mstids|
    ensures Remembers(prt, RunInformation(cfg, prt, n))
  {
    hide NodeOk, PI.Run;
    if n > 0 {
      InformationKeepsTx(cfg, prt, n - 1);
      InformationRunKeepsTx(cfg, RunInformation(cfg, prt, n - 1), n - 1);
    }
  }

  lemma PhaseRemembers(k: Phase, cfg: BridgeConfig, prt: Port)
    requires PortOk(cfg, prt) && prt.cfg.portEnabled
    ensures Remembers(prt, RunPhase(k, cfg, prt))
  {
    hide NodeOk, PM.EnterDiscard, PM.EnterReceive, PM.RunMigration, PM.RunEdge, PT.Run, RunInformation, PM.NextReceive;
    HelloTimeIsFixed(cfg, prt);
    match k
    case Transmit => TransmitRemembers(cfg, prt);
    case Inform => InformationKeepsTx(cfg, prt, |cfg.mstids|);
    case _ =>
  }

  lemma PortMachinesRemember(b: Bridge, p: nat)
    requires BridgeOk(b) && p < |b.ports| && b.ports[p].cfg.portEnabled
    ensures Remembers(b.ports[p], RunPortMachines(b).ports[p])
  {
    hide PortOk, RunPhase;
    var b1 := RunPorts(Assure, b);
    PhaseRemembers(Assure, b.cfg, b.ports[p]);
    var b2 := RunPorts(Receive, b1);
    PhaseRemembers(Receive, b.cfg, b1.ports[p]);
    var b3 := RunPorts(Migrate, b2);
    PhaseRemembers(Migrate, b.cfg, b2.ports[p]);
    var b4 := RunPorts(DetectEdge, b3);
    PhaseRemembers(DetectEdge, b.cfg, b3.ports[p]);
    var b5 := RunPorts(Transmit, b4);
    PhaseRemembers(Transmit, b.cfg, b4.ports[p]);
    PhaseRemembers(Inform, b.cfg, b5.ports[p]);
  }

  lemma PassRemembers(b: Bridge, p: nat)
    requires BridgeOk(b) && p < |b.ports| && b.ports[p].cfg.portEnabled
    ensures Remembers(b.ports[p], RunOnce(b).ports[p])
  {
    hide BridgeOk, RunPortMachines, RunSelections, LateMachines;
    var c := RunPortMachines(b);
    var d := RunSelections(c, |b.trees|);
    PortMachinesRemember(b, p);
    SelectionsFrames(c, |b.trees|);
    assert SelectionFrame(c.ports[p], d.ports[p]);
    LateMachinesFrame(d);
    assert LateFrame(d.ports[p], LateMachines(d).ports[p]);
  }

  lemma {:induction false} MachinesRemember(b: Bridge, limit: nat, p: nat)
    requires BridgeOk(b) && p < |b.ports| && b.ports[p].cfg.portEnabled
    ensures Remembers(b.ports[p], RunMachines(b, limit).ports[p])
    decreases limit
  {
    hide BridgeOk, RunOnce, Settled;
    if limit > 0 && !Settled(b) {
      PassRemembers(b, p);
      MachinesRemember(RunOnce(b), limit - 1, p);
    }
  }

  /** The event neither takes the port down nor makes it forget its hold count. */
  predicate Undisturbing(e: Event, p: nat) {
    e != LinkDown(p) && !e.SetHoldCount? && !e.SetVersion? && !e.SetRegion? && !e.SetAddress? && !e.Reenable?
  }

  function Ticks(history: seq<Step>): nat {
    if history == [] then 0 else (if history[0].event.OneSecond? then 1 else 0) + Ticks(history[1..])
  }

  lemma EventRemembers(b: Bridge, e: Event, p: nat)
    requires BridgeOk(b) && Acceptable(b, e) && p < |b.ports| && b.ports[p].cfg.portEnabled && Undisturbing(e, p)
    ensures var prt, r := b.ports[p], Apply(b, e).ports[p];
      r.cfg.portEnabled && Forgotten(r.tx) <= Forgotten(prt.tx) + (if e.OneSecond? then 1 else 0)
    ensures Apply(b, e).cfg.holdCount == b.cfg.holdCount
  {
    hide NodeOk, Validate, RetimedPort, Reselect;
    match e
    case SetTimes(age, delay, hops) => RetimedSends(WithTimes(b.cfg, age, delay, hops), b.ports[p]);
    case SetNode(q, t, conf) => ReselectSends(b.ports[q].(conf := b.ports[q].conf[t := conf]), t);
    case SetOptions(q, o) => ReselectSends(b.ports[q], 0);
    case SetBridgeId(t, id) => ReselectSends(b.ports[p], t);
    case _ =>
  }

  lemma RetimedSends(cfg: BridgeConfig, prt: Port)
    ensures RetimedPort(cfg, prt).tx == prt.tx && RetimedPort(cfg, prt).cfg == prt.cfg
  {
  }

  lemma ReselectSends(prt: Port, t: nat)
    requires t < |prt.sel|
    ensures Reselect(prt, t).tx == prt.tx && Reselect(prt, t).cfg == prt.cfg
  {
  }

  /** Over any history in which a port stays up and neither the hold count changes nor the machines begin again, the
      port sends at most Transmit_Hold_Count BPDUs and one more for every second. */
  lemma {:induction false} TransmissionIsBounded(b: Bridge, history: seq<Step>, p: nat)
    requires BridgeOk(b) && p < |b.ports| && b.ports[p].cfg.portEnabled
    requires forall i :: 0 <= i < |history| ==> Undisturbing(history[i].event, p)
    ensures var r := After(b, history);
      && r.cfg.holdCount == b.cfg.holdCount
      && Forgotten(r.ports[p].tx) <= Forgotten(b.ports[p].tx) + Ticks(history)
      && |r.ports[p].tx.sent| + b.ports[p].tx.txCount <= |b.ports[p].tx.sent| + b.cfg.holdCount + Ticks(history)
    decreases |history|
  {
    hide PortOk, Apply, RunMachines, Undisturbing, Runs;
    if history != [] {
      var s := history[0];
      if Acceptable(b, s.event) {
        EventRemembers(b, s.event, p);
        MachinesRemember(Apply(b, s.event), s.limit, p);
      }
      TransmissionIsBounded(Advance(b, s), history[1..], p);
    }
    HoldCountLimits(After(b, history), p);
  }

  lemma HoldCountLimits(b: Bridge, p: nat)
    requires BridgeOk(b) && p < |b.ports|
    ensures b.ports[p].tx.txCount <= b.cfg.holdCount
  {
  }
}
