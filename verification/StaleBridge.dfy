/**
 Stale information in one bridge: a pass keeps it old, and in a settled bridge what has run out of time is gone.
 */
module StaleBridge {
  import opened Types
  import opened Priority
  import opened PortInvariant
  import opened BridgeRun
  import opened Passes
  import opened StaleInformation
  import RS = RoleSelection

  predicate PortsOld(l: Level, b: Bridge, marks: seq<nat>)
    requires BridgeOk(b)
  {
    |marks| == |b.ports|
    && forall p :: 0 <= p < |b.ports| ==>
      PortOld(l, b.cfg, b.ports[p]) && FramesOld(l, b.cfg, b.ports[p].tx.sent, marks[p])
  }

  /** What the CIST says about the root, and the bridge's own vector. */
  predicate TreeOld(l: Level, tree: Tree) {
    Old(l, tree.rootPriority.rootId, tree.rootTimes.messageAge, tree.rootTimes.maxAge, l.level + 1)
    && tree.bridgePriority.rootId != l.root
  }

  /** A selected port's designated vector is that of the tree. */
  predicate Agrees(tree: Tree, prt: Port)
    requires 1 <= |prt.sel|
  {
    prt.sel[0].selected ==>
      && prt.sel[0].designatedPriority.rootId == tree.rootPriority.rootId
      && prt.sel[0].designatedTimes.messageAge == tree.rootTimes.messageAge
      && prt.sel[0].designatedTimes.maxAge == tree.rootTimes.maxAge
  }

  predicate AllAgree(b: Bridge)
    requires BridgeOk(b)
  {
    forall p :: 0 <= p < |b.ports| ==> Agrees(b.trees[0], b.ports[p])
  }

  predicate Pending(b: Bridge)
    requires BridgeOk(b)
  {
    b.trees[0].state == InitTree || exists p :: 0 <= p < |b.ports| && b.ports[p].sel[0].reselect
  }

  predicate HasBacking(b: Bridge, root: BridgeId)
    requires BridgeOk(b)
  {
    exists p :: 0 <= p < |b.ports| && Backing(b.ports[p], root, b.trees[0].rootTimes.messageAge)
  }

  /** The root the tree names is backed by a root port, unless role selection is due. */
  predicate Backed(l: Level, b: Bridge)
    requires BridgeOk(b)
  {
    Pending(b) || (b.trees[0].rootPriority.rootId == l.root ==> HasBacking(b, l.root))
  }

  /** All of it. */
  predicate BridgeOld(l: Level, b: Bridge, marks: seq<nat>)
    requires BridgeOk(b)
  {
    PortsOld(l, b, marks) && TreeOld(l, b.trees[0]) && AllAgree(b) && Backed(l, b)
  }

  // ---- Port machines --------------------------------------------------------------------------------

  predicate AllKeepBacking(b: Bridge, r: Bridge, root: BridgeId, age: int)
    requires BridgeOk(b) && BridgeOk(r) && r.cfg == b.cfg
  {
    |r.ports| == |b.ports| && forall p :: 0 <= p < |b.ports| ==> KeepsBacking(b.ports[p], r.ports[p], root, age)
  }

  lemma BackingKept(l: Level, b: Bridge, r: Bridge)
    requires BridgeOk(b) && BridgeOk(r) && r == b.(ports := r.ports)
    requires AllAgree(b) && Backed(l, b) && AllKeepBacking(b, r, l.root, b.trees[0].rootTimes.messageAge)
    ensures AllAgree(r) && Backed(l, r)
  {
    hide NodeOk, Backing;
    forall p | 0 <= p < |r.ports| ensures Agrees(r.trees[0], r.ports[p]) {
      assert Agrees(b.trees[0], b.ports[p]) &&
        KeepsBacking(b.ports[p], r.ports[p], l.root, b.trees[0].rootTimes.messageAge);
    }
    if b.trees[0].state != InitTree {
      if p :| 0 <= p < |b.ports| && b.ports[p].sel[0].reselect {
        assert KeepsBacking(b.ports[p], r.ports[p], l.root, b.trees[0].rootTimes.messageAge);
        assert r.ports[p].sel[0].reselect;
      } else if b.trees[0].rootPriority.rootId == l.root {
        var p :| 0 <= p < |b.ports| && Backing(b.ports[p], l.root, b.trees[0].rootTimes.messageAge);
        assert KeepsBacking(b.ports[p], r.ports[p], l.root, b.trees[0].rootTimes.messageAge);
        assert r.ports[p].sel[0].reselect || Backing(r.ports[p], l.root, r.trees[0].rootTimes.messageAge);
      }
    }
  }

  /** One step of the pass on every port. */
  lemma PortsStepIsOld(k: Phase, l: Level, b: Bridge, marks: seq<nat>)
    requires BridgeOk(b) && BridgeOld(l, b, marks)
    ensures BridgeOld(l, RunPorts(k, b), marks)
  {
    hide PortOk, RunPhase, PortOld, FramesOld, Agrees, KeepsBacking, TreeOld, Backing;
    var r := RunPorts(k, b);
    PortsStepPorts(k, l, b, marks);
    BackingKept(l, b, r);
  }

  lemma PortsStepPorts(k: Phase, l: Level, b: Bridge, marks: seq<nat>)
    requires BridgeOk(b) && PortsOld(l, b, marks)
    ensures PortsOld(l, RunPorts(k, b), marks)
    ensures AllKeepBacking(b, RunPorts(k, b), l.root, b.trees[0].rootTimes.messageAge)
  {
    hide RunPhase, PortOld, FramesOld, KeepsBacking, NodeOk;
    var r := RunPorts(k, b);
    forall p | 0 <= p < |b.ports|
      ensures PortOld(l, b.cfg, r.ports[p]) && FramesOld(l, b.cfg, r.ports[p].tx.sent, marks[p])
      ensures KeepsBacking(b.ports[p], r.ports[p], l.root, b.trees[0].rootTimes.messageAge)
    {
      PhaseIsOld(k, l, b.cfg, b.ports[p], marks[p]);
      PhaseKeepsBacking(k, b.cfg, b.ports[p], l.root, b.trees[0].rootTimes.messageAge);
    }
  }

  predicate AllInformed(b: Bridge)
    requires BridgeOk(b)
  {
    forall p :: 0 <= p < |b.ports| ==> Informed(b.ports[p])
  }

  lemma PortMachinesAreOld(l: Level, b: Bridge, marks: seq<nat>)
    requires BridgeOk(b) && BridgeOld(l, b, marks)
    ensures BridgeOld(l, RunPortMachines(b), marks) && AllInformed(RunPortMachines(b))
  {
    hide BridgeOk, BridgeOld;
    var b1 := RunPorts(Assure, b);
    PortsStepIsOld(Assure, l, b, marks);
    var b2 := RunPorts(Receive, b1);
    PortsStepIsOld(Receive, l, b1, marks);
    var b3 := RunPorts(Migrate, b2);
    PortsStepIsOld(Migrate, l, b2, marks);
    var b4 := RunPorts(DetectEdge, b3);
    PortsStepIsOld(DetectEdge, l, b3, marks);
    var b5 := RunPorts(Transmit, b4);
    PortsStepIsOld(Transmit, l, b4, marks);
    PortsStepIsOld(Inform, l, b5, marks);
    StepInforms(l, b5, marks);
  }

  lemma StepInforms(l: Level, b: Bridge, marks: seq<nat>)
    requires BridgeOk(b) && BridgeOld(l, b, marks)
    ensures AllInformed(RunPorts(Inform, b))
  {
    hide NodeOk, RunInformation, PortOld, FramesOld, TreeOld, AllAgree, Backed, Informed;
    var r := RunPorts(Inform, b);
    forall p | 0 <= p < |b.ports| ensures Informed(r.ports[p]) {
      assert PortOld(l, b.cfg, b.ports[p]);
      InformationInforms(l, b.cfg, b.ports[p], |b.cfg.mstids|);
    }
  }

  // ---- Role selection -------------------------------------------------------------------------------

  /** The root chosen from old information is as old as that information, and one second more. */
  lemma NewTreeIsOld(l: Level, b: Bridge, marks: seq<nat>)
    requires BridgeOk(b) && Shape(b) && PortsOld(l, b, marks) && AllInformed(b) && TreeOld(l, b.trees[0])
    ensures var tree, root := RS.NewTree(b.cfg, b.trees[0], 0, b.ports), RS.RootIndex(b.cfg, b.trees[0], 0, b.ports);
      && TreeOld(l, tree)
      && (tree.rootPriority.rootId == l.root ==>
           root.Some? && root.value < |b.ports| && b.ports[root.value].info[0].infoIs == IoReceived
           && b.ports[root.value].info[0].portPriority.rootId == l.root
           && b.ports[root.value].info[0].portTimes.messageAge + 1 == tree.rootTimes.messageAge)
  {
    hide NodeOk, FramesOld, FrameOld, RS.Choose;
    RS.ChosenIsAttained(b.cfg, b.trees[0], 0, b.ports, |b.ports|);
    var root := RS.RootIndex(b.cfg, b.trees[0], 0, b.ports);
    if root.Some? {
      assert PortOld(l, b.cfg, b.ports[root.value]) && Informed(b.ports[root.value]);
    }
  }

  /** Role selection of the CIST on one port. */
  lemma SelectedPortIsOld(l: Level, cfg: BridgeConfig, tree: Tree, prt: Port, isRoot: bool, sync: bool)
    requires PortOk(cfg, prt) && PortOld(l, cfg, prt) && Informed(prt) && TreeOld(l, tree)
    ensures var r := RS.SelectPort(tree, 0, prt, isRoot, sync);
      && PortShape(cfg, r) && PortOld(l, cfg, r) && Informed(r) && Agrees(tree, r) && r.tx == prt.tx &&
        !r.sel[0].reselect
      && (isRoot && prt.info[0].infoIs == IoReceived ==> r.sel[0].selectedRole == RoleRoot)
      && r.info[0] == prt.info[0].(updtInfo := r.info[0].updtInfo)
  {
    hide NodeOk, RS.WakesMstis, RS.SyncMaster, FrameOld, SamePriorityAndTimers, BetterOrSame;
  }

  lemma CistSelectionPorts(l: Level, b: Bridge, marks: seq<nat>)
    requires BridgeOk(b) && Shape(b) && BridgeOld(l, b, marks) && AllInformed(b) && BridgeOk(RS.EnterSelection(b, 0))
    ensures var r := RS.EnterSelection(b, 0);
      PortsOld(l, r, marks) && TreeOld(l, r.trees[0]) && AllAgree(r) && AllInformed(r)
  {
    hide PortOk, PortOld, FramesOld, TreeOld, Backed, Agrees, Informed, RS.NewTree, RS.RootIndex, RS.SelectPort;
    hide RS.SyncsMaster;
    var r := RS.EnterSelection(b, 0);
    var tree, root := RS.NewTree(b.cfg, b.trees[0], 0, b.ports), RS.RootIndex(b.cfg, b.trees[0], 0, b.ports);
    var sync := RS.SyncsMaster(b.trees[0], tree, 0);
    NewTreeIsOld(l, b, marks);
    assert r.trees[0] == tree;
    forall p | 0 <= p < |b.ports|
      ensures PortOld(l, b.cfg, r.ports[p]) && FramesOld(l, b.cfg, r.ports[p].tx.sent, marks[p])
      ensures Agrees(tree, r.ports[p]) && Informed(r.ports[p])
    {
      assert PortOld(l, b.cfg, b.ports[p]) && Informed(b.ports[p]);
      SelectedPortIsOld(l, b.cfg, tree, b.ports[p], root == Some(p), sync);
    }
  }

  lemma CistSelectionBacked(l: Level, b: Bridge, marks: seq<nat>)
    requires BridgeOk(b) && Shape(b) && BridgeOld(l, b, marks) && AllInformed(b) && BridgeOk(RS.EnterSelection(b, 0))
    ensures Backed(l, RS.EnterSelection(b, 0))
  {
    hide PortOk, PortOld, FramesOld, TreeOld, Agrees, Informed, Pending, RS.NewTree, RS.RootIndex, RS.SelectPort;
    hide RS.SyncsMaster;
    var r := RS.EnterSelection(b, 0);
    var tree, root := RS.NewTree(b.cfg, b.trees[0], 0, b.ports), RS.RootIndex(b.cfg, b.trees[0], 0, b.ports);
    NewTreeIsOld(l, b, marks);
    assert r.trees[0] == tree;
    if tree.rootPriority.rootId == l.root {
      var p, sync := root.value, RS.SyncsMaster(b.trees[0], tree, 0);
      assert PortOld(l, b.cfg, b.ports[p]) && Informed(b.ports[p]) && TreeOld(l, tree);
      SelectedPortIsOld(l, b.cfg, tree, b.ports[p], true, sync);
      assert r.ports[p] == RS.SelectPort(tree, 0, b.ports[p], true, sync);
      assert Backing(r.ports[p], l.root, r.trees[0].rootTimes.messageAge);
    }
  }

  lemma CistSelectionIsOld(l: Level, b: Bridge, marks: seq<nat>)
    requires BridgeOk(b) && Shape(b) && BridgeOld(l, b, marks) && AllInformed(b) && BridgeOk(RS.EnterSelection(b, 0))
    ensures BridgeOld(l, RS.EnterSelection(b, 0), marks) && AllInformed(RS.EnterSelection(b, 0))
  {
    hide BridgeOk, PortsOld, TreeOld, AllAgree, AllInformed, Backed, RS.EnterSelection;
    CistSelectionPorts(l, b, marks);
    CistSelectionBacked(l, b, marks);
  }

  /** Role selection of an MSTI leaves the CIST alone. */
  predicate SameCist(b: Bridge, r: Bridge)
    requires BridgeOk(b) && BridgeOk(r)
  {
    && r.cfg == b.cfg && |r.ports| == |b.ports| && r.trees[0] == b.trees[0]
    && forall p :: 0 <= p < |b.ports| ==> SameCistPort(b.ports[p], r.ports[p])
  }

  predicate SameCistPort(prt: Port, r: Port)
    requires 1 <= |prt.info| && 1 <= |prt.sel|
  {
    && |r.info| == |prt.info| && |r.sel| == |prt.sel| && r.info[0] == prt.info[0] && r.sel[0] == prt.sel[0]
    && r.rx == prt.rx.(edgeDelayWhile := r.rx.edgeDelayWhile) && r.tx.sent == prt.tx.sent
    && (forall t :: 0 <= t < |r.info| ==> r.info[t].rcvdMsg == prt.info[t].rcvdMsg)
  }

  lemma SameCistPortIsOld(l: Level, cfg: BridgeConfig, prt: Port, r: Port)
    requires PortShape(cfg, prt) && PortShape(cfg, r) && PortOld(l, cfg, prt) && SameCistPort(prt, r)
    ensures PortOld(l, cfg, r)
  {
    hide InfoOld, FrameOld;
  }

  lemma SameCistIsOld(l: Level, b: Bridge, r: Bridge, marks: seq<nat>)
    requires BridgeOk(b) && BridgeOk(r) && SameCist(b, r) && BridgeOld(l, b, marks)
    ensures BridgeOld(l, r, marks) && (AllInformed(b) ==> AllInformed(r))
  {
    hide NodeOk, PortOld, FramesOld, TreeOld, Backing;
    forall p | 0 <= p < |b.ports|
      ensures PortOld(l, b.cfg, r.ports[p]) && FramesOld(l, b.cfg, r.ports[p].tx.sent, marks[p])
      ensures Agrees(r.trees[0], r.ports[p])
    {
      assert SameCistPort(b.ports[p], r.ports[p]) && PortOld(l, b.cfg, b.ports[p]) && Agrees(b.trees[0], b.ports[p]);
      SameCistPortIsOld(l, b.cfg, b.ports[p], r.ports[p]);
    }
    SameCistIsBacked(l, b, r);
    if AllInformed(b) {
      forall p | 0 <= p < |b.ports| ensures Informed(r.ports[p]) {
        assert SameCistPort(b.ports[p], r.ports[p]) && Informed(b.ports[p]);
      }
    }
  }

  lemma SameCistIsBacked(l: Level, b: Bridge, r: Bridge)
    requires BridgeOk(b) && BridgeOk(r) && SameCist(b, r) && Backed(l, b)
    ensures Backed(l, r)
  {
    hide NodeOk;
    if b.trees[0].state != InitTree {
      if p :| 0 <= p < |b.ports| && b.ports[p].sel[0].reselect {
        assert SameCistPort(b.ports[p], r.ports[p]);
        assert r.ports[p].sel[0].reselect;
      } else if b.trees[0].rootPriority.rootId == l.root {
        var p :| 0 <= p < |b.ports| && Backing(b.ports[p], l.root, b.trees[0].rootTimes.messageAge);
        assert SameCistPort(b.ports[p], r.ports[p]);
        assert Backing(r.ports[p], l.root, r.trees[0].rootTimes.messageAge);
      }
    }
  }

  lemma MstiSelectionKeepsCist(b: Bridge, t: nat)
    requires BridgeOk(b) && Shape(b) && 1 <= t < |b.trees| && BridgeOk(RS.EnterSelection(b, t))
    ensures SameCist(b, RS.EnterSelection(b, t))
  {
    hide NodeOk, RS.NewTree, RS.RootIndex, RS.SelectPort, RS.SyncsMaster;
    var r := RS.EnterSelection(b, t);
    forall p | 0 <= p < |b.ports| ensures SameCistPort(b.ports[p], r.ports[p]) {
      var tree := RS.NewTree(b.cfg, b.trees[t], t, b.ports);
      MstiSelectionKeepsPort(tree, t, b.ports[p], RS.RootIndex(b.cfg, b.trees[t], t, b.ports) == Some(p),
          RS.SyncsMaster(b.trees[t], tree, t));
    }
  }

  lemma MstiSelectionKeepsPort(tree: Tree, t: nat, prt: Port, isRoot: bool, sync: bool)
    requires 1 <= t < |prt.info| && |prt.info| == |prt.sel| == |prt.conf| == |prt.rv|
    ensures SameCistPort(prt, RS.SelectPort(tree, t, prt, isRoot, sync))
  {
    hide RS.DesignatedPriority, RS.DesignatedTimes, RS.ChooseRole, RS.SyncMaster;
  }

  lemma {:induction false} SelectionsAreOld(l: Level, b: Bridge, marks: seq<nat>, n: nat)
    requires BridgeOk(b) && n <= |b.trees| && BridgeOld(l, b, marks) && AllInformed(b)
    ensures BridgeOld(l, RunSelections(b, n), marks) && AllInformed(RunSelections(b, n))
  {
    hide BridgeOk, BridgeOld, AllInformed, RS.EnterSelection, RS.SelectionDue;
    if n > 0 {
      SelectionsAreOld(l, b, marks, n - 1);
      var c := RunSelections(b, n - 1);
      SelectionKeepsBridge(c, n - 1);
      if RS.SelectionDue(c, n - 1) {
        if n == 1 {
          CistSelectionIsOld(l, c, marks);
        } else {
          MstiSelectionKeepsCist(c, n - 1);
          SameCistIsOld(l, c, RS.EnterSelection(c, n - 1), marks);
        }
      }
    }
  }

  lemma LateIsSameCist(b: Bridge, r: Bridge)
    requires BridgeOk(b) && BridgeOk(r) && LateFrames(b, r) && r == b.(ports := r.ports)
    ensures SameCist(b, r)
  {
    hide NodeOk;
    forall p | 0 <= p < |b.ports| ensures SameCistPort(b.ports[p], r.ports[p]) {
      assert LateFrame(b.ports[p], r.ports[p]);
    }
  }

  /** A whole pass keeps information about the root old. */
  lemma PassIsOld(l: Level, b: Bridge, marks: seq<nat>)
    requires BridgeOk(b) && BridgeOld(l, b, marks)
    ensures BridgeOld(l, RunOnce(b), marks)
  {
    hide BridgeOk, BridgeOld, RunPortMachines, RunSelections, LateMachines, AllInformed, SameCist, LateFrames;
    var c := RunPortMachines(b);
    var d := RunSelections(c, |b.trees|);
    PortMachinesAreOld(l, b, marks);
    SelectionsAreOld(l, c, marks, |b.trees|);
    LateMachinesFrame(d);
    LateIsSameCist(d, LateMachines(d));
    SameCistIsOld(l, d, LateMachines(d), marks);
  }

  lemma {:induction false} MachinesAreOld(l: Level, b: Bridge, marks: seq<nat>, limit: nat)
    requires BridgeOk(b) && BridgeOld(l, b, marks)
    ensures BridgeOld(l, RunMachines(b, limit), marks)
    decreases limit
  {
    hide BridgeOk, BridgeOld, RunOnce, Settled;
    if limit > 0 && !Settled(b) {
      PassIsOld(l, b, marks);
      MachinesAreOld(l, RunOnce(b), marks, limit - 1);
    }
  }
}
