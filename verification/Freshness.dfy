/**
 When role selection is up to date.  After every pass that settles, selecting roles again would change nothing that
 matters: each change of what role selection reads asks for role selection.  The exceptions are a path cost and a
 restriction changed on an enabled port (mstp.c:448-454 and 1145-1151), which the engine notices only when the
 next hello arrives, the identifier and times of a bridge without ports, and inside a region a BPDU that makes a port
 internal or external without telling it anything, and a port that begins or ceases to send STP BPDUs while another
 bridge is the regional root (mstp.c:2712-2713 and 3045-3062).
 */
module Freshness {
  import opened Types
  import opened Priority
  import opened PortInvariant
  import opened BridgeRun
  import opened Events
  import opened Passes
  import opened DisabledPorts
  import opened StaleInformation
  import opened StaleBridge
  import PI = PortInformation
  import PM = PortMachines
  import PT = PortTransmit
  import RS = RoleSelection
  import SB = SettledBridge
  import NR = NetworkAtRest

  // ---- The choice of a root -------------------------------------------------------------------------

  /** `ports'` has the same candidates as `ports`, except that some other than `root` are no longer candidates. */
  predicate FewerCandidates(cfg: BridgeConfig, tree: Tree, t: nat, ports: seq<Port>, ports': seq<Port>,
                            root: Option<nat>)
    requires PortsShape(cfg, ports) && t < |cfg.mstids| && PortsShape(cfg, ports')
  {
    |ports| == |ports'|
    && forall p :: 0 <= p < |ports| ==>
      && (RS.Candidate(tree, t, ports'[p]) ==>
            && RS.Candidate(tree, t, ports[p]) && RS.RootPath(tree, t, ports'[p]) == RS.RootPath(tree, t, ports[p])
            && ports'[p].conf[t].portId == ports[p].conf[t].portId)
      && (root == Some(p) ==> (RS.Candidate(tree, t, ports[p]) ==> RS.Candidate(tree, t, ports'[p])))
  }

  /** Dropping candidates that were not chosen does not change the choice. */
  lemma UnchosenDoNotMatter(cfg: BridgeConfig, tree: Tree, t: nat, ports: seq<Port>, ports': seq<Port>)
    requires PortsShape(cfg, ports) && t < |cfg.mstids| && PortsShape(cfg, ports')
    requires FewerCandidates(cfg, tree, t, ports, ports', RS.RootIndex(cfg, tree, t, ports))
    ensures RS.Choose(cfg, tree, t, ports', |ports'|) == RS.Choose(cfg, tree, t, ports, |ports|)
  {
    hide BetterOrSame, RS.RootPath, RS.Candidate;
    var best := RS.Choose(cfg, tree, t, ports, |ports|);
    RS.ChosenExactly(cfg, tree, t, ports, best);
    RS.ChosenExactly(cfg, tree, t, ports', best);
  }

  lemma ChosenRootIsAttained(cfg: BridgeConfig, tree: Tree, t: nat, ports: seq<Port>)
    requires PortsShape(cfg, ports) && t < |cfg.mstids|
    ensures var best := RS.Choose(cfg, tree, t, ports, |ports|);
      match best.root
      case None => best.priority == tree.bridgePriority && best.portId == 0
      case Some(p) =>
        RS.Candidate(tree, t, ports[p]) && best.priority == RS.RootPath(tree, t, ports[p]) &&
          best.portId == ports[p].conf[t].portId
  {
    RS.ChosenIsAttained(cfg, tree, t, ports, |ports|);
  }

  // ---- Role selection is up to date -----------------------------------------------------------------

  /** What role selection of the CIST would leave on the port, it is there, but for the identifier of a port without
      information. */
  predicate PortUpToDate(tree: Tree, prt: Port, isRoot: bool)
    requires 1 <= |prt.info| && |prt.info| == |prt.sel| == |prt.conf| == |prt.rv|
  {
    var des, times := RS.DesignatedPriority(tree, 0, prt), RS.DesignatedTimes(tree, 0, prt);
    && prt.sel[0].designatedPriority.(desPort := des.desPort) == des && prt.sel[0].designatedTimes == times
    && (prt.info[0].infoIs != IoDisabled ==> prt.sel[0].designatedPriority == des)
    && (prt.sel[0].selectedRole, prt.info[0].updtInfo) == RS.ChooseRole(tree, 0, prt, des, times, isRoot)
  }

  predicate UpToDate(b: Bridge)
    requires Shape(b)
  {
    var root := RS.RootIndex(b.cfg, b.trees[0], 0, b.ports);
    && b.trees[0] == RS.NewTree(b.cfg, b.trees[0], 0, b.ports)
    && (forall p :: 0 <= p < |b.ports| ==> PortUpToDate(b.trees[0], b.ports[p], root == Some(p)))
  }

  /** Right after role selection it is up to date. */
  lemma SelectionIsUpToDate(b: Bridge)
    requires Shape(b)
    ensures UpToDate(RS.EnterSelection(b, 0))
  {
    hide RS.EnterSelection, UpToDate;
    RS.SelectionIsIdempotent(b, 0);
    FixedPointIsUpToDate(RS.EnterSelection(b, 0));
  }

  lemma FixedPointIsUpToDate(r: Bridge)
    requires Shape(r) && RS.EnterSelection(r, 0) == r
    ensures UpToDate(r)
  {
    hide RS.SelectPort, RS.NewTree, RS.RootIndex, RS.SyncsMaster, PortUpToDate;
    var tree := RS.NewTree(r.cfg, r.trees[0], 0, r.ports);
    var root, sync := RS.RootIndex(r.cfg, r.trees[0], 0, r.ports), RS.SyncsMaster(r.trees[0], tree, 0);
    assert RS.EnterSelection(r, 0).trees[0] == tree;
    forall p | 0 <= p < |r.ports| ensures PortUpToDate(tree, r.ports[p], root == Some(p)) {
      assert RS.EnterSelection(r, 0).ports[p] == RS.SelectPort(tree, 0, r.ports[p], root == Some(p), sync);
      SelectedIsUpToDate(tree, r.ports[p], root == Some(p), sync);
    }
  }

  lemma SelectedIsUpToDate(tree: Tree, prt: Port, isRoot: bool, sync: bool)
    requires 1 <= |prt.info| && |prt.info| == |prt.sel| == |prt.conf| == |prt.rv|
    requires RS.SelectPort(tree, 0, prt, isRoot, sync) == prt
    ensures PortUpToDate(tree, prt, isRoot)
  {
    hide RS.ChooseRole, RS.DesignatedPriority, RS.DesignatedTimes, RS.SyncMaster, RS.WakesMstis;
    var r := RS.SelectPort(tree, 0, prt, isRoot, sync);
    assert r.sel[0] == prt.sel[0] && r.info[0] == prt.info[0];
  }

  // ---- Changes that leave it so ---------------------------------------------------------------------

  /** The information variables role selection reads are the same. */
  predicate SameInformation(i: Info, j: Info) {
    j.infoIs == i.infoIs && j.portPriority == i.portPriority && j.portTimes == i.portTimes && j.updtInfo == i.updtInfo
  }

  /** Port Information has made the designated vector the port's own. */
  predicate Updated(s: Selection, j: Info) {
    && s.selectedRole == RoleDesignated && j.infoIs == IoMine && !j.updtInfo
    && j.portPriority == s.designatedPriority && j.portTimes == s.designatedTimes
  }

  /** The cost that is added to what the port has received. */
  function PathCost(prt: Port): U32
    requires 1 <= |prt.conf|
  {
    if prt.rx.rcvdInternal then prt.conf[0].intPathCost else prt.cfg.extPathCost
  }

  /** What role selection reads of a port with received information, besides the information. */
  predicate SamePath(prt: Port, r: Port)
    requires 1 <= |prt.conf| && 1 <= |r.conf|
  {
    && r.rx.rcvdInternal == prt.rx.rcvdInternal && PathCost(r) == PathCost(prt)
    && r.cfg.restrictedRole == prt.cfg.restrictedRole
  }

  /** What role selection reads is the same, or was updated on a designated port; whether the port sends STP BPDUs does
      not matter while the bridge is its own regional root. */
  predicate Moved(home: bool, prt: Port, r: Port)
    requires 1 <= |prt.info| && 1 <= |prt.sel| && 1 <= |r.info| && 1 <= |r.sel| && 1 <= |prt.conf| && 1 <= |r.conf|
  {
    && r.sel[0] == prt.sel[0] && (SameInformation(prt.info[0], r.info[0]) || Updated(prt.sel[0], r.info[0]))
    && (r.info[0].infoIs == IoReceived ==> SamePath(prt, r))
    && (r.info[0].infoIs != IoDisabled ==> r.conf[0].portId == prt.conf[0].portId)
    && (home || r.mig.sendRSTP == prt.mig.sendRSTP)
  }

  /** Nothing from outside the machine has changed. */
  predicate SameOutside(prt: Port, r: Port) {
    r.cfg == prt.cfg && r.conf == prt.conf && r.rx == prt.rx && r.mig == prt.mig
  }

  /** The bridge is the regional root it has chosen. */
  predicate AtHome(b: Bridge)
    requires |b.trees| > 0
  {
    b.trees[0].rootPriority.rRootId == b.trees[0].bridgeId
  }

  /** A bridge that has heard other regions only is its own regional root. */
  lemma OutsideIsHome(b: Bridge)
    requires Shape(b) && UpToDate(b) && Outside(b)
    ensures AtHome(b)
  {
    hide PortUpToDate, RS.Choose, RS.RootTimes, PM.FromSameRegion;
    ChosenRootIsAttained(b.cfg, b.trees[0], 0, b.ports);
    var root := RS.RootIndex(b.cfg, b.trees[0], 0, b.ports);
    if root.Some? { assert External(b.cfg, b.ports[root.value]); }
  }

  /** On one port. */
  lemma MovedPortIsUpToDate(tree: Tree, prt: Port, r: Port, isRoot: bool)
    requires 1 <= |prt.info| && |prt.info| == |prt.sel| == |prt.conf| == |prt.rv|
    requires |r.info| == |r.sel| == |r.conf| == |r.rv| == |prt.info|
    requires PortUpToDate(tree, prt, isRoot) && Moved(tree.rootPriority.rRootId == tree.bridgeId, prt, r)
    requires isRoot ==> prt.info[0].infoIs == IoReceived
    ensures PortUpToDate(tree, r, isRoot)
    ensures isRoot ==> SameInformation(prt.info[0], r.info[0])
  {
    hide BetterOrSame;
    var des := RS.DesignatedPriority(tree, 0, prt);
    assert RS.DesignatedPriority(tree, 0, r) == des.(desPort := r.conf[0].portId);
    assert RS.DesignatedTimes(tree, 0, r) == RS.DesignatedTimes(tree, 0, prt);
  }

  predicate AllMoved(b: Bridge, r: Bridge)
    requires Shape(b) && Shape(r)
  {
    |r.ports| == |b.ports| && forall p :: 0 <= p < |b.ports| ==> Moved(AtHome(b), b.ports[p], r.ports[p])
  }

  /** The candidates are the same, except for designated ports that took their own vector. */
  lemma MovedCandidates(b: Bridge, r: Bridge)
    requires Shape(b) && Shape(r) && r.cfg == b.cfg && r.trees[0] == b.trees[0] && AllMoved(b, r) && UpToDate(b)
    ensures FewerCandidates(b.cfg, b.trees[0], 0, b.ports, r.ports, RS.RootIndex(b.cfg, b.trees[0], 0, b.ports))
  {
    hide RS.Choose, RS.NewTree, RS.RootIndex, BetterOrSame;
    var tree, root := b.trees[0], RS.RootIndex(b.cfg, b.trees[0], 0, b.ports);
    forall p | 0 <= p < |b.ports|
      ensures RS.Candidate(tree, 0, r.ports[p]) ==>
        && RS.Candidate(tree, 0, b.ports[p]) && RS.RootPath(tree, 0, r.ports[p]) == RS.RootPath(tree, 0, b.ports[p])
        && r.ports[p].conf[0].portId == b.ports[p].conf[0].portId
      ensures root == Some(p) ==> (RS.Candidate(tree, 0, b.ports[p]) ==> RS.Candidate(tree, 0, r.ports[p]))
    {
      assert Moved(AtHome(b), b.ports[p], r.ports[p]) && PortUpToDate(tree, b.ports[p], root == Some(p));
    }
  }

  lemma MovedTree(b: Bridge, r: Bridge)
    requires Shape(b) && Shape(r) && r.cfg == b.cfg && r.trees[0] == b.trees[0] && AllMoved(b, r) && UpToDate(b)
    ensures RS.RootIndex(r.cfg, r.trees[0], 0, r.ports) == RS.RootIndex(b.cfg, b.trees[0], 0, b.ports)
    ensures RS.NewTree(r.cfg, r.trees[0], 0, r.ports) == r.trees[0]
    ensures match RS.RootIndex(b.cfg, b.trees[0], 0, b.ports)
      case None => true
      case Some(p) => b.ports[p].info[0].infoIs == IoReceived
  {
    hide RS.Choose, BetterOrSame, PortUpToDate;
    var root := RS.RootIndex(b.cfg, b.trees[0], 0, b.ports);
    MovedCandidates(b, r);
    ChosenRootIsAttained(b.cfg, b.trees[0], 0, b.ports);
    UnchosenDoNotMatter(b.cfg, b.trees[0], 0, b.ports, r.ports);
    if root.Some? {
      var p := root.value;
      assert Moved(AtHome(b), b.ports[p], r.ports[p]) && PortUpToDate(b.trees[0], b.ports[p], true);
      MovedPortIsUpToDate(b.trees[0], b.ports[p], r.ports[p], true);
    }
  }

  /** Role selection stays up to date. */
  lemma MovedIsUpToDate(b: Bridge, r: Bridge)
    requires Shape(b) && Shape(r) && r.cfg == b.cfg && r.trees[0] == b.trees[0] && AllMoved(b, r) && UpToDate(b)
    ensures UpToDate(r)
  {
    hide RS.NewTree, RS.RootIndex, PortUpToDate, Moved;
    MovedTree(b, r);
    var root := RS.RootIndex(b.cfg, b.trees[0], 0, b.ports);
    forall p | 0 <= p < |r.ports| ensures PortUpToDate(r.trees[0], r.ports[p], root == Some(p)) {
      assert Moved(AtHome(b), b.ports[p], r.ports[p]) && PortUpToDate(b.trees[0], b.ports[p], root == Some(p));
      MovedPortIsUpToDate(b.trees[0], b.ports[p], r.ports[p], root == Some(p));
    }
  }

  // ---- In a settled bridge --------------------------------------------------------------------------

  lemma DesignatedNamesPort(tree: Tree, prt: Port)
    requires 1 <= |prt.conf|
    ensures RS.DesignatedPriority(tree, 0, prt).desPort == prt.conf[0].portId
  {
  }

  lemma SettledSelection(tree: Tree, prt: Port, isRoot: bool)
    requires 1 <= |prt.info| && |prt.info| == |prt.sel| == |prt.conf| == |prt.rv|
    requires PortUpToDate(tree, prt, isRoot) && SB.CistAtRest(prt)
    ensures RS.SelectPort(tree, 0, prt, isRoot, false) == RS.Renewed(prt)
  {
    hide RS.ChooseRole, RS.DesignatedPriority, RS.DesignatedTimes, RS.SyncMaster;
    var r := RS.SelectPort(tree, 0, prt, isRoot, false);
    assert !RS.WakesMstis(0, prt, prt.sel[0].selectedRole);
    assert prt.cfg.portEnabled ==> prt.info[0].infoIs != IoDisabled;
    DesignatedNamesPort(tree, prt);
    assert r.sel == RS.Renewed(prt).sel && r.info == prt.info;
  }

  /** In a settled bridge that is up to date, selecting roles again would change nothing that matters. */
  lemma UpToDateIsFixedPoint(b: Bridge)
    requires BridgeOk(b) && Shape(b) && Settled(b) && UpToDate(b)
    ensures RS.Current(b)
  {
    hide Settled, NodeOk, RS.NewTree, RS.RootIndex, RS.SelectPort, RS.Renewed, PortUpToDate, SB.CistAtRest, RS.Current;
    var root := RS.RootIndex(b.cfg, b.trees[0], 0, b.ports);
    RS.CurrentByPorts(b);
    forall p | 0 <= p < |b.ports|
      ensures RS.SelectPort(b.trees[0], 0, b.ports[p], root == Some(p), false) == RS.Renewed(b.ports[p])
    {
      SB.SettledShape(b, p);
      SettledSelection(b.trees[0], b.ports[p], root == Some(p));
    }
  }

  // ---- Through a pass -------------------------------------------------------------------------------

  /** On what terms a step is taken: BPDUs come from other regions only, the bridge is its own regional root, and what
      role selection reads must not change unasked. */
  datatype Terms = Terms(outer: bool, home: bool, sure: bool)

  /** Port Information is about to forget what was received, and then asks for role selection. */
  predicate Doomed(prt: Port)
    requires 1 <= |prt.info|
  {
    !prt.cfg.portEnabled && prt.info[0].infoIs != IoDisabled
  }

  /** A step on a port either asks for role selection or leaves it up to date. */
  predicate Asks(w: Terms, cfg: BridgeConfig, prt: Port, r: Port)
    requires PortShape(cfg, prt) && PortShape(cfg, r)
  {
    && (w.outer && External(cfg, prt) ==> External(cfg, r))
    && (prt.sel[0].reselect ==> r.sel[0].reselect) && (Doomed(prt) ==> Doomed(r) || r.sel[0].reselect)
    && (w.sure ==> r.sel[0].reselect || Doomed(r) || Moved(w.home, prt, r))
  }

  lemma AsksCompose(w: Terms, cfg: BridgeConfig, prt: Port, c: Port, d: Port)
    requires PortShape(cfg, prt) && PortShape(cfg, c) && PortShape(cfg, d) && Asks(w, cfg, prt, c) && Asks(w, cfg, c, d)
    requires SameOutside(prt, c) && SameOutside(c, d)
    ensures Asks(w, cfg, prt, d)
  {
  }

  /** No transition of Port Information raises rcvdMsg. */
  lemma MessageIsNotRaised(cfg: BridgeConfig, prt: Port, t: nat, s: InfoState)
    requires PortShape(cfg, prt) && t < |prt.info|
    ensures PI.InfoAfter(cfg, prt, t, s).rcvdMsg ==> prt.info[t].rcvdMsg
  {
    hide PI.MessageIsDesignated, PI.Classify, PI.RcvdInfoWhile, PI.CistMessagePriority, PI.CistMessageTimes;
    hide PI.MstiMessagePriority;
  }

  lemma CistStepMoves(cfg: BridgeConfig, prt: Port)
    requires PortOk(cfg, prt) && PI.Next(prt, 0).Some?
    ensures var s := PI.Next(prt, 0).value; var i, j := prt.info[0], PI.InfoAfter(cfg, prt, 0, s);
      s.InfoDisabled? || s.InfoAged? || s.InfoSuperior? || SameInformation(i, j) || Updated(prt.sel[0], j)
  {
    assert NodeOk(prt, 0);
    hide PI.RecordMessage, PI.MessageIsDesignated, PI.Classify, PI.RcvdInfoWhile, RoleOk;
  }

  lemma InformationStepAsks(w: Terms, cfg: BridgeConfig, prt: Port, t: nat)
    requires PortOk(cfg, prt) && t < |prt.info| && PI.Next(prt, t).Some?
    ensures Asks(w, cfg, prt, PI.Enter(cfg, prt, t, PI.Next(prt, t).value))
  {
    hide PI.Enter, PI.Next, PI.InfoAfter, PI.FlagsOnly, NodeOk;
    var s := PI.Next(prt, t).value;
    var r := PI.Enter(cfg, prt, t, s);
    MessageIsNotRaised(cfg, prt, t, s);
    assert forall i :: 0 <= i < |prt.info| && i != t ==> r.info[i] == prt.info[i];
    if t == 0 { CistStepMoves(cfg, prt); }
  }

  lemma {:induction false} InformationRunAsks(w: Terms, cfg: BridgeConfig, prt: Port, t: nat)
    requires PortOk(cfg, prt) && t < |prt.info|
    ensures Asks(w, cfg, prt, PI.Run(cfg, prt, t)) && SameOutside(prt, PI.Run(cfg, prt, t))
    decreases PI.Measure(prt.cfg.portEnabled, prt.info[t])
  {
    hide PI.Enter, PI.Next, PI.Measure, NodeOk, PM.FromSameRegion;
    if PI.Next(prt, t).Some? {
      var c := PI.Enter(cfg, prt, t, PI.Next(prt, t).value);
      InformationTransition(cfg, prt, t);
      PI.TransitionDecreases(cfg, prt, t);
      InformationStepAsks(w, cfg, prt, t);
      InformationRunAsks(w, cfg, c, t);
      AsksCompose(w, cfg, prt, c, PI.Run(cfg, c, t));
    }
  }

  lemma {:induction false} InformationAsks(w: Terms, cfg: BridgeConfig, prt: Port, n: nat)
    requires PortOk(cfg, prt) && n <= |cfg.mstids|
    ensures Asks(w, cfg, prt, RunInformation(cfg, prt, n)) && SameOutside(prt, RunInformation(cfg, prt, n))
  {
    hide NodeOk, PI.Run, PM.FromSameRegion;
    if n > 0 {
      InformationAsks(w, cfg, prt, n - 1);
      var c := RunInformation(cfg, prt, n - 1);
      InformationRunAsks(w, cfg, c, n - 1);
      AsksCompose(w, cfg, prt, c, PI.Run(cfg, c, n - 1));
    }
  }

  /** The steps that change what role selection reads without asking for it: a BPDU may make a port with information
      internal or external, and the port may begin or cease to send STP BPDUs. */
  predicate CarefulPort(k: Phase, home: bool, cfg: BridgeConfig, prt: Port)
    requires PortOk(cfg, prt)
  {
    match k
    case Receive =>
      prt.info[0].infoIs == IoReceived ==> PM.RunReceive(cfg, prt).rx.rcvdInternal == prt.rx.rcvdInternal
    case Migrate => home || PM.RunMigration(cfg, prt).mig.sendRSTP == prt.mig.sendRSTP
    case _ => true
  }

  lemma PhaseAsks(k: Phase, w: Terms, cfg: BridgeConfig, prt: Port)
    requires PortOk(cfg, prt) && (w.sure ==> CarefulPort(k, w.home, cfg, prt))
    ensures PortShape(cfg, RunPhase(k, cfg, prt)) && Asks(w, cfg, prt, RunPhase(k, cfg, prt))
  {
    HelloTimeIsFixed(cfg, prt);
    PhaseKeepsPort(k, cfg, prt);
    hide NodeOk, PM.RunReceive, PM.RunMigration, PM.RunEdge, PT.Run, RunInformation, Asks;
    match k
    case Inform => InformationAsks(w, cfg, prt, |cfg.mstids|);
    case Receive => ReceiveAsks(w, cfg, prt);
    case Migrate => UnreadAsks(w, cfg, prt, PM.RunMigration(cfg, prt));
    case _ => UnreadAsks(w, cfg, prt, RunPhase(k, cfg, prt));
  }

  /** A step that leaves what the port has received alone. */
  lemma UnreadAsks(w: Terms, cfg: BridgeConfig, prt: Port, r: Port)
    requires PortShape(cfg, prt) && PortShape(cfg, r) && r.info == prt.info && r.sel == prt.sel && r.cfg == prt.cfg
    requires r.conf == prt.conf && r.rx == prt.rx.(rcvdRSTP := r.rx.rcvdRSTP, rcvdSTP := r.rx.rcvdSTP)
    requires w.sure ==> w.home || r.mig.sendRSTP == prt.mig.sendRSTP
    ensures Asks(w, cfg, prt, r)
  {
  }

  lemma ReceiveAsks(w: Terms, cfg: BridgeConfig, prt: Port)
    requires PortOk(cfg, prt) && (w.sure ==> CarefulPort(Receive, w.home, cfg, prt))
    ensures PortShape(cfg, PM.RunReceive(cfg, prt)) && Asks(w, cfg, prt, PM.RunReceive(cfg, prt))
  {
    hide NodeOk, PM.EnterDiscard, PM.EnterReceive, PM.NextReceive;
    if External(cfg, prt) { ReceiveIsExternal(cfg, prt); }
  }

  /** Every port has heard other regions only, and the bridge's own vector names it as regional root. */
  predicate Outside(b: Bridge) {
    |b.trees| > 0 && b.trees[0].bridgePriority.rRootId == b.trees[0].bridgeId
    && forall p :: 0 <= p < |b.ports| ==> External(b.cfg, b.ports[p])
  }

  /** Role selection is about to run, or will be asked for. */
  predicate Unsure(b: Bridge)
    requires BridgeOk(b) && Shape(b)
  {
    Pending(b) || exists p :: 0 <= p < |b.ports| && Doomed(b.ports[p])
  }

  /** Role selection is up to date or about to run. */
  predicate Fresh(b: Bridge)
    requires BridgeOk(b) && Shape(b)
  {
    Unsure(b) || UpToDate(b)
  }

  lemma PortsAsk(w: Terms, b: Bridge, r: Bridge)
    requires BridgeOk(b) && Shape(b) && BridgeOk(r) && Shape(r) && Fresh(b)
    requires r.cfg == b.cfg && r.trees[0] == b.trees[0] && |r.ports| == |b.ports|
    requires (w.home ==> AtHome(b)) && (w.sure || Unsure(b))
    requires forall p :: 0 <= p < |b.ports| ==> Asks(w, b.cfg, b.ports[p], r.ports[p])
    ensures Fresh(r) && (w.outer && Outside(b) ==> Outside(r))
  {
    hide NodeOk, UpToDate, Moved, External;
    if Unsure(b) {
      if !Pending(b) {
        var p :| 0 <= p < |b.ports| && Doomed(b.ports[p]);
        assert Asks(w, b.cfg, b.ports[p], r.ports[p]);
      }
    } else if !Unsure(r) {
      forall p | 0 <= p < |b.ports| ensures Moved(AtHome(b), b.ports[p], r.ports[p]) {
        assert Asks(w, b.cfg, b.ports[p], r.ports[p]) && !r.ports[p].sel[0].reselect && !Doomed(r.ports[p]);
        StricterTerms(w.home, AtHome(b), b.ports[p], r.ports[p]);
      }
      MovedIsUpToDate(b, r);
    }
  }

  lemma StricterTerms(home: bool, home': bool, prt: Port, r: Port)
    requires 1 <= |prt.info| && 1 <= |prt.sel| && 1 <= |r.info| && 1 <= |r.sel| && 1 <= |prt.conf| && 1 <= |r.conf|
    requires Moved(home, prt, r) && (home ==> home')
    ensures Moved(home', prt, r)
  {
  }

  /** The step changes nothing that role selection reads on any port, unless role selection is to run anyway. */
  predicate CarefulStep(k: Phase, b: Bridge)
    requires BridgeOk(b) && Shape(b)
  {
    Unsure(b) || forall p :: 0 <= p < |b.ports| ==> CarefulPort(k, AtHome(b), b.cfg, b.ports[p])
  }

  lemma PortsStepIsFresh(k: Phase, b: Bridge)
    requires BridgeOk(b) && Shape(b) && Fresh(b) && CarefulStep(k, b)
    ensures Shape(RunPorts(k, b)) && Fresh(RunPorts(k, b)) && (Outside(b) ==> Outside(RunPorts(k, b)))
  {
    hide NodeOk, RunPhase, UpToDate, Asks, Unsure, CarefulPort, External;
    var r, w := RunPorts(k, b), Terms(true, AtHome(b), !Unsure(b));
    ShapeOfOk(r);
    forall p | 0 <= p < |b.ports| ensures Asks(w, b.cfg, b.ports[p], r.ports[p]) {
      PhaseAsks(k, w, b.cfg, b.ports[p]);
    }
    PortsAsk(w, b, r);
  }

  /** No step of the pass changes unasked what role selection reads. */
  predicate CarefulPass(b: Bridge)
    requires BridgeOk(b)
  {
    var c := RunPorts(Assure, b);
    var d := RunPorts(Receive, c);
    Shape(c) && Shape(d) && CarefulStep(Receive, c) && CarefulStep(Migrate, d)
  }

  lemma PortMachinesAreFresh(b: Bridge)
    requires BridgeOk(b) && Shape(b) && Fresh(b) && CarefulPass(b)
    ensures Shape(RunPortMachines(b)) && Fresh(RunPortMachines(b)) && (Outside(b) ==> Outside(RunPortMachines(b)))
  {
    hide PortOk, Fresh, Shape, Unsure, Outside;
    PortsStepIsFresh(Assure, b);
    var b1 := RunPorts(Assure, b);
    PortsStepIsFresh(Receive, b1);
    var b2 := RunPorts(Receive, b1);
    PortsStepIsFresh(Migrate, b2);
    var b3 := RunPorts(Migrate, b2);
    PortsStepIsFresh(DetectEdge, b3);
    var b4 := RunPorts(DetectEdge, b3);
    PortsStepIsFresh(Transmit, b4);
    PortsStepIsFresh(Inform, RunPorts(Transmit, b4));
  }

  /** In a bridge that hears other regions only every pass is careful. */
  lemma OutsideIsCareful(b: Bridge)
    requires BridgeOk(b) && Shape(b) && Fresh(b) && Outside(b)
    ensures CarefulPass(b)
  {
    hide NodeOk, UpToDate, RunPhase, Unsure, External, CarefulPort;
    PortsStepIsFresh(Assure, b) by { OutsideStepIsCareful(Assure, b); }
    var c := RunPorts(Assure, b);
    OutsideStepIsCareful(Receive, c);
    PortsStepIsFresh(Receive, c);
    OutsideStepIsCareful(Migrate, RunPorts(Receive, c));
  }

  lemma OutsideStepIsCareful(k: Phase, b: Bridge)
    requires BridgeOk(b) && Shape(b) && Fresh(b) && Outside(b)
    ensures CarefulStep(k, b)
  {
    hide NodeOk, UpToDate, External, PM.RunReceive, PM.RunMigration;
    if !Unsure(b) {
      OutsideIsHome(b);
      forall p | 0 <= p < |b.ports| ensures CarefulPort(k, AtHome(b), b.cfg, b.ports[p]) {
        assert External(b.cfg, b.ports[p]);
        ReceiveIsExternal(b.cfg, b.ports[p]);
        ExternalIsNotInternal(b.cfg, b.ports[p]);
        ExternalIsNotInternal(b.cfg, PM.RunReceive(b.cfg, b.ports[p]));
      }
    }
  }

  lemma ExternalIsNotInternal(cfg: BridgeConfig, prt: Port)
    requires External(cfg, prt)
    ensures !prt.rx.rcvdInternal
  {
  }

  lemma MstiSelectionAsks(w: Terms, cfg: BridgeConfig, tree: Tree, t: nat, prt: Port, isRoot: bool, sync: bool)
    requires PortShape(cfg, prt) && 1 <= t < |prt.info|
    ensures PortShape(cfg, RS.SelectPort(tree, t, prt, isRoot, sync))
    ensures Asks(w, cfg, prt, RS.SelectPort(tree, t, prt, isRoot, sync))
  {
    hide RS.DesignatedPriority, RS.DesignatedTimes, RS.ChooseRole, RS.SyncMaster;
  }

  lemma CistSelectionIsFresh(b: Bridge)
    requires BridgeOk(b) && Shape(b) && BridgeOk(RS.EnterSelection(b, 0))
    ensures Fresh(RS.EnterSelection(b, 0)) && (Outside(b) ==> Outside(RS.EnterSelection(b, 0)))
  {
    hide NodeOk, UpToDate, External, RS.SelectPort, RS.NewTree, RS.RootIndex, RS.SyncsMaster;
    var r := RS.EnterSelection(b, 0);
    SelectionIsUpToDate(b);
    forall p | 0 <= p < |r.ports| && External(b.cfg, b.ports[p]) ensures External(r.cfg, r.ports[p]) {
      var tree := RS.NewTree(b.cfg, b.trees[0], 0, b.ports);
      SelectedPortFrame(tree, 0, b.ports[p], RS.RootIndex(b.cfg, b.trees[0], 0, b.ports) == Some(p),
          RS.SyncsMaster(b.trees[0], tree, 0));
      SelectionFrameIsExternal(b.cfg, b.ports[p], r.ports[p]);
    }
  }

  lemma SelectionFrameIsExternal(cfg: BridgeConfig, prt: Port, r: Port)
    requires External(cfg, prt) && SelectionFrame(prt, r)
    ensures External(cfg, r)
  {
  }

  lemma MstiSelectionIsFresh(b: Bridge, t: nat)
    requires BridgeOk(b) && Shape(b) && 1 <= t < |b.trees| && Fresh(b) && BridgeOk(RS.EnterSelection(b, t))
    ensures Fresh(RS.EnterSelection(b, t)) && (Outside(b) ==> Outside(RS.EnterSelection(b, t)))
  {
    hide NodeOk, UpToDate, RS.SelectPort, RS.NewTree, RS.RootIndex, RS.SyncsMaster, Asks, Unsure, External;
    var r, w := RS.EnterSelection(b, t), Terms(true, false, true);
    forall p | 0 <= p < |b.ports| ensures Asks(w, b.cfg, b.ports[p], r.ports[p]) {
      var tree := RS.NewTree(b.cfg, b.trees[t], t, b.ports);
      MstiSelectionAsks(w, b.cfg, tree, t, b.ports[p], RS.RootIndex(b.cfg, b.trees[t], t, b.ports) == Some(p),
          RS.SyncsMaster(b.trees[t], tree, t));
    }
    PortsAsk(w, b, r);
  }

  lemma {:induction false} SelectionsAreFresh(b: Bridge, n: nat)
    requires BridgeOk(b) && Shape(b) && n <= |b.trees| && Fresh(b)
    ensures Shape(RunSelections(b, n)) && Fresh(RunSelections(b, n)) && (Outside(b) ==> Outside(RunSelections(b, n)))
  {
    hide BridgeOk, Fresh, Outside, RS.EnterSelection, RS.SelectionDue;
    ShapeOfOk(RunSelections(b, n));
    if n > 0 {
      SelectionsAreFresh(b, n - 1);
      var c := RunSelections(b, n - 1);
      SelectionKeepsBridge(c, n - 1);
      if RS.SelectionDue(c, n - 1) {
        if n == 1 { CistSelectionIsFresh(c); } else { MstiSelectionIsFresh(c, n - 1); }
      }
    }
  }

  lemma LateIsFresh(b: Bridge)
    requires BridgeOk(b) && Shape(b) && Fresh(b)
    ensures Shape(LateMachines(b)) && Fresh(LateMachines(b)) && (Outside(b) ==> Outside(LateMachines(b)))
  {
    hide NodeOk, UpToDate, LateMachines, Unsure, External;
    var r, w := LateMachines(b), Terms(true, false, true);
    ShapeOfOk(r);
    LateMachinesFrame(b);
    forall p | 0 <= p < |b.ports| ensures Asks(w, b.cfg, b.ports[p], r.ports[p]) {
      assert LateFrame(b.ports[p], r.ports[p]);
      LateAsks(w, b.cfg, b.ports[p], r.ports[p]);
    }
    PortsAsk(w, b, r);
  }

  lemma LateAsks(w: Terms, cfg: BridgeConfig, prt: Port, r: Port)
    requires PortShape(cfg, prt) && PortShape(cfg, r) && LateFrame(prt, r)
    ensures Asks(w, cfg, prt, r)
  {
  }

  /** A careful pass leaves role selection up to date or asks for it. */
  lemma PassIsFresh(b: Bridge)
    requires BridgeOk(b) && Shape(b) && Fresh(b) && CarefulPass(b)
    ensures Shape(RunOnce(b)) && Fresh(RunOnce(b)) && (Outside(b) ==> Outside(RunOnce(b)))
  {
    hide BridgeOk, Fresh, Shape, Outside, CarefulPass, RunPortMachines, RunSelections, LateMachines;
    PortMachinesAreFresh(b);
    SelectionsAreFresh(RunPortMachines(b), |b.trees|);
    LateIsFresh(RunSelections(RunPortMachines(b), |b.trees|));
  }

  /** Every pass is careful. */
  predicate CarefulRun(b: Bridge, limit: nat)
    requires BridgeOk(b)
    decreases limit
  {
    limit > 0 && !Settled(b) ==> CarefulPass(b) && CarefulRun(RunOnce(b), limit - 1)
  }

  lemma {:induction false} MachinesAreFresh(b: Bridge, limit: nat)
    requires BridgeOk(b) && Shape(b) && Fresh(b) && CarefulRun(b, limit)
    ensures Shape(RunMachines(b, limit)) && Fresh(RunMachines(b, limit))
    decreases limit
  {
    hide BridgeOk, Fresh, Shape, Outside, CarefulPass, RunOnce, Settled;
    if limit > 0 && !Settled(b) {
      PassIsFresh(b);
      MachinesAreFresh(RunOnce(b), limit - 1);
    }
  }

  /** In a bridge that hears other regions only, that is so. */
  lemma {:induction false} OutsideRunIsCareful(b: Bridge, limit: nat)
    requires BridgeOk(b) && Shape(b) && Fresh(b) && Outside(b)
    ensures CarefulRun(b, limit) && Outside(RunMachines(b, limit))
    decreases limit
  {
    hide BridgeOk, Fresh, Shape, Outside, CarefulPass, RunOnce, Settled;
    if limit > 0 && !Settled(b) {
      OutsideIsCareful(b);
      PassIsFresh(b);
      OutsideRunIsCareful(RunOnce(b), limit - 1);
    }
  }

  // ---- Events ---------------------------------------------------------------------------------------

  /** Events that do not change the path cost or the restriction of a port with received information behind the back of
      role selection, nor anything of a bridge without ports. */
  predicate Careful(b: Bridge, e: Event)
    requires BridgeOk(b) && Acceptable(b, e)
  {
    match e
    case LinkUp(p, cost, costs, _) =>
      b.ports[p].info[0].infoIs == IoReceived ==>
        PathCost(b.ports[p]) == if b.ports[p].rx.rcvdInternal then costs[0] else cost
    case SetOptions(p, o) =>
      || o.restrictedRole == b.ports[p].cfg.restrictedRole || o.extPathCost != b.ports[p].cfg.extPathCost
      || b.ports[p].info[0].infoIs != IoReceived
    case SetBridgeId(t, id) => t == 0 ==> |b.ports| > 0 || id == b.trees[0].bridgeId
    case SetTimes(age, delay, hops) => |b.ports| > 0 || WithTimes(b.cfg, age, delay, hops) == b.cfg
    case _ => true
  }

  /** The terms on which events happen; a BPDU may come from the own region. */
  function EventTerms(outer: bool): Terms { Terms(outer, false, true) }

  lemma ReplacedPortIsFresh(outer: bool, b: Bridge, p: nat, prt: Port)
    requires BridgeOk(b) && Shape(b) && Fresh(b) && p < |b.ports| && PortOk(b.cfg, prt)
    requires Asks(EventTerms(outer), b.cfg, b.ports[p], prt)
    ensures var r := WithPort(b, p, prt); Shape(r) && Fresh(r) && (outer && Outside(b) ==> Outside(r))
  {
    hide NodeOk, UpToDate, Unsure, External;
    var r := WithPort(b, p, prt);
    ShapeOfOk(r);
    assert forall q :: 0 <= q < |b.ports| ==> Asks(EventTerms(outer), b.cfg, b.ports[q], r.ports[q]);
    PortsAsk(EventTerms(outer), b, r);
  }

  /** A setting changed on one port. */
  lemma SettingIsFresh(b: Bridge, p: nat, r: Port)
    requires BridgeOk(b) && Shape(b) && Fresh(b) && p < |b.ports| && PortOk(b.cfg, r) && !Doomed(b.ports[p])
    requires r.rx == b.ports[p].rx && r.info == b.ports[p].info && r.mig.sendRSTP == b.ports[p].mig.sendRSTP
    requires r.sel == b.ports[p].sel || r.sel == Reselect(b.ports[p], 0).sel
    requires
      || r.sel[0].reselect
      || ((r.info[0].infoIs == IoReceived ==> SamePath(b.ports[p], r))
          && (r.info[0].infoIs != IoDisabled ==> r.conf[0].portId == b.ports[p].conf[0].portId))
    ensures Shape(WithPort(b, p, r)) && Fresh(WithPort(b, p, r)) && (Outside(b) ==> Outside(WithPort(b, p, r)))
  {
    hide NodeOk, Fresh, Outside;
    ReplacedPortIsFresh(true, b, p, r);
  }

  lemma TickedPortAsks(cfg: BridgeConfig, prt: Port)
    requires PortShape(cfg, prt)
    ensures PortShape(cfg, TickPort(prt)) && Asks(EventTerms(true), cfg, prt, TickPort(prt))
  {
  }

  lemma TickIsFresh(b: Bridge)
    requires BridgeOk(b) && Shape(b) && Fresh(b)
    ensures Shape(Tick(b)) && Fresh(Tick(b)) && (Outside(b) ==> Outside(Tick(b)))
  {
    hide NodeOk, UpToDate, Asks, Unsure, External, TickPort;
    var r := Tick(b);
    ShapeOfOk(r);
    forall p | 0 <= p < |b.ports| ensures Asks(EventTerms(true), b.cfg, b.ports[p], r.ports[p]) {
      TickedPortAsks(b.cfg, b.ports[p]);
    }
    PortsAsk(EventTerms(true), b, r);
  }

  /** A BPDU that arrives tells role selection nothing yet. */
  lemma HeardIsFresh(b: Bridge, p: nat, m: Bpdu, size: nat)
    requires BridgeOk(b) && Shape(b) && Fresh(b) && Acceptable(b, BpduArrives(p, m, size))
    ensures var r := Apply(b, BpduArrives(p, m, size));
      Shape(r) && Fresh(r) && (FromOther(b.cfg, BpduArrives(p, m, size)) && Outside(b) ==> Outside(r))
  {
    hide NodeOk, Fresh, Outside, AnnouncedMstis;
    if ReceiveBpdu(b.ports[p], m, size).Some? {
      ReceiveIsOk(b.cfg, b.ports[p], m, size);
      ReplacedPortIsFresh(FromOther(b.cfg, BpduArrives(p, m, size)), b, p, ReceiveBpdu(b.ports[p], m, size).value);
    }
  }

  /** The event is no BPDU of the bridge's own region. */
  predicate FromOther(cfg: BridgeConfig, e: Event) {
    e.BpduArrives? ==> e.bpdu.version < PROTO_MSTP || e.bpdu.configId != cfg.configId
  }

  /** No port has heard the own region, and the bridge's own vector names it as regional root. */
  predicate NeverInternal(b: Bridge)
    requires |b.trees| > 0
  {
    && b.trees[0].bridgePriority.rRootId == b.trees[0].bridgeId
    && forall p :: 0 <= p < |b.ports| ==> !b.ports[p].rx.rcvdInternal
  }

  /** From BEGIN on, role selection is asked for, and nothing is known on any port. */
  lemma BeginIsFresh(b: Bridge)
    requires Shape(b) && forall p :: 0 <= p < |b.ports| ==> Blank(b.cfg, b.ports[p])
    ensures Shape(Begin(b)) && Fresh(Begin(b)) && Grounded(Begin(b))
    ensures NeverInternal(b) ==> Outside(Begin(b))
  {
    hide NodeOk, UpToDate;
    ShapeOfOk(Begin(b));
  }

  lemma ReselectIsFresh(b: Bridge, t: nat, id: BridgeId)
    requires BridgeOk(b) && Shape(b) && Fresh(b) && t < |b.trees| && (t == 0 ==> |b.ports| > 0)
    requires id != b.trees[t].bridgeId
    ensures var r := Apply(b, SetBridgeId(t, id)); Shape(r) && Fresh(r) && (Outside(b) ==> Outside(r))
  {
    hide NodeOk, UpToDate;
    var r := Apply(b, SetBridgeId(t, id));
    ShapeOfOk(r);
    forall p | 0 <= p < |b.ports|
      ensures t != 0 ==> Asks(EventTerms(true), b.cfg, b.ports[p], r.ports[p])
      ensures External(b.cfg, b.ports[p]) ==> External(b.cfg, r.ports[p])
    {
      assert r.ports[p] == Reselect(b.ports[p], t);
    }
    if t == 0 {
      assert r.ports[0].sel[0].reselect;
    } else {
      PortsAsk(EventTerms(true), b, r);
    }
  }

  /** A new hold count does not matter to role selection. */
  lemma {:induction false} ChooseIgnoresConfig(cfg: BridgeConfig, cfg': BridgeConfig, tree: Tree, ports: seq<Port>,
                                               n: nat)
    requires PortsShape(cfg, ports) && PortsShape(cfg', ports) && 0 < |cfg.mstids| && 0 < |cfg'.mstids| && n <= |ports|
    ensures RS.Choose(cfg', tree, 0, ports, n) == RS.Choose(cfg, tree, 0, ports, n)
  {
    hide BetterOrSame, RS.RootPath, RS.Candidate;
    if n > 0 { ChooseIgnoresConfig(cfg, cfg', tree, ports, n - 1); }
  }

  lemma HoldCountIsFresh(b: Bridge, n: nat)
    requires BridgeOk(b) && Shape(b) && Fresh(b)
    ensures var r := WithHoldCount(b, n); Shape(r) && Fresh(r) && (Outside(b) ==> Outside(r))
  {
    hide NodeOk, PortUpToDate, RS.Choose, Asks, Doomed;
    var r := WithHoldCount(b, n);
    ShapeOfOk(r);
    var c := b.(ports := r.ports);
    forall p | 0 <= p < |b.ports|
      ensures PortOk(b.cfg, c.ports[p]) && Asks(EventTerms(true), b.cfg, b.ports[p], c.ports[p])
      ensures External(b.cfg, c.ports[p]) ==> External(r.cfg, c.ports[p])
    {
      ResetPortAsks(b.cfg, r.cfg, b.ports[p], c.ports[p]);
    }
    PortsAsk(EventTerms(true), b, c);
    ChooseIgnoresConfig(b.cfg, r.cfg, b.trees[0], r.ports, |r.ports|);
  }

  lemma ResetPortAsks(cfg: BridgeConfig, cfg': BridgeConfig, prt: Port, r: Port)
    requires PortOk(cfg, prt) && r == prt.(tx := prt.tx.(txCount := 0)) && cfg' == cfg.(holdCount := cfg'.holdCount)
    ensures PortOk(cfg, r) && Asks(EventTerms(true), cfg, prt, r) && (External(cfg, r) ==> External(cfg', r))
  {
    SameNodes(prt, r);
    hide NodeOk;
  }

  /** After the machines have run, nothing is known on a disabled port. */
  predicate Grounded(b: Bridge)
    requires BridgeOk(b)
  {
    forall p :: 0 <= p < |b.ports| && !b.ports[p].cfg.portEnabled ==> b.ports[p].info[0].infoIs == IoDisabled
  }

  /** What is configured on an enabled port asks for role selection; a disabled port has no information. */
  lemma NodeAsks(cfg: BridgeConfig, prt: Port, t: nat, conf: PtpConfig)
    requires PortOk(cfg, prt) && t < |prt.sel| && (!prt.cfg.portEnabled ==> prt.info[0].infoIs == IoDisabled)
    ensures PortOk(cfg, SetNodeConfig(prt, t, conf)) && Asks(EventTerms(true), cfg, prt, SetNodeConfig(prt, t, conf))
  {
    NodeConfigIsOk(cfg, prt, t, conf);
    hide NodeOk, PM.FromSameRegion;
    var r := SetNodeConfig(prt, t, conf);
    assert PM.FromSameRegion(cfg, r) == PM.FromSameRegion(cfg, prt) by { SameRegionAsBefore(cfg, prt, r); }
    assert SameInformation(prt.info[0], r.info[0]);
  }

  lemma SameRegionAsBefore(cfg: BridgeConfig, prt: Port, r: Port)
    requires r.rx == prt.rx
    ensures PM.FromSameRegion(cfg, r) == PM.FromSameRegion(cfg, prt)
  {
  }

  /** Events on one port. */
  lemma PortEventIsFresh(b: Bridge, e: Event)
    requires BridgeOk(b) && Shape(b) && Fresh(b) && Grounded(b) && Acceptable(b, e) && Careful(b, e)
    requires e.LinkUp? || e.LinkDown? || e.SetNode? || e.SetOptions? || e.MigrationCheck?
    ensures Shape(Apply(b, e)) && Fresh(Apply(b, e)) && (Outside(b) ==> Outside(Apply(b, e)))
  {
    hide NodeOk, Fresh, Outside;
    match e
    case LinkUp(p, ext, costs, p2p) =>
      UpIsOk(b.cfg, b.ports[p], ext, costs, p2p);
      SettingIsFresh(b, p, PortUp(b.ports[p], ext, costs, p2p));
    case LinkDown(p) =>
      DownIsOk(b.cfg, b.ports[p]);
      SettingIsFresh(b, p, PortDown(b.ports[p]));
    case SetNode(p, t, conf) =>
      hide Asks, SetNodeConfig;
      NodeAsks(b.cfg, b.ports[p], t, conf);
      ReplacedPortIsFresh(true, b, p, SetNodeConfig(b.ports[p], t, conf));
    case SetOptions(p, o) =>
      OptionsAreOk(b.cfg, b.ports[p], o);
      SettingIsFresh(b, p, SetPortOptions(b.ports[p], o));
    case MigrationCheck(p) =>
      CheckIsOk(b.cfg, b.ports[p]);
      SettingIsFresh(b, p, Check(b.ports[p]));
  }

  /** New times make every port select its role again. */
  lemma TimesAreFresh(b: Bridge, age: U8, delay: U8, hops: U8)
    requires BridgeOk(b) && Shape(b) && Fresh(b) && |b.ports| > 0
    ensures var r := Retime(b, age, delay, hops); Shape(r) && Fresh(r) && (Outside(b) ==> Outside(r))
  {
    hide NodeOk, UpToDate, RetimedPort;
    var r := Retime(b, age, delay, hops);
    ShapeOfOk(r);
    forall p | 0 <= p < |r.ports|
      ensures (External(b.cfg, b.ports[p]) ==> External(r.cfg, r.ports[p])) && r.ports[p].sel[0].reselect
    {
      RetimedIsExternal(b.cfg, r.cfg, b.ports[p]);
    }
    assert r.ports[0].sel[0].reselect && Pending(r);
  }

  lemma RetimedIsExternal(cfg: BridgeConfig, cfg': BridgeConfig, prt: Port)
    requires PortShape(cfg, prt) && cfg'.configId == cfg.configId && cfg'.version == cfg.version
    ensures var r := RetimedPort(cfg', prt); r.sel[0].reselect && (External(cfg, prt) ==> External(cfg', r))
  {
  }

  /** Beginning again asks for role selection. */
  lemma RestartIsFresh(b: Bridge)
    requires BridgeOk(b)
    ensures Shape(Restart(b)) && Fresh(Restart(b))
    ensures NeverInternal(b) ==> Outside(Restart(b))
  {
    hide PortOk, Blank, Fresh, Outside, Begin;
    ShapeOfOk(b);
    AllBlank(b);
    BeginIsFresh(b);
  }

  lemma ResetIsFresh(b: Bridge)
    requires BridgeOk(b) && Shape(b)
    ensures Shape(Reset(b)) && Fresh(Reset(b)) && (Outside(b) ==> Outside(Reset(b)))
  {
    hide PortOk, Blank, Fresh, Begin, ResetPort;
    AllResetBlank(b);
    var r := b.(ports := seq(|b.ports|, p requires 0 <= p < |b.ports| => ResetPort(b.ports[p])));
    forall p | 0 <= p < |b.ports| ensures !ResetPort(b.ports[p]).rx.rcvdInternal { ResetIsOutside(b.ports[p]); }
    BeginIsFresh(r);
  }

  lemma ResetIsOutside(prt: Port)
    ensures !ResetPort(prt).rx.rcvdInternal
  {
  }

  lemma EventIsFresh(b: Bridge, e: Event)
    requires BridgeOk(b) && Shape(b) && Fresh(b) && Grounded(b) && Acceptable(b, e) && Careful(b, e)
    ensures Shape(Apply(b, e)) && Fresh(Apply(b, e)) && (FromOther(b.cfg, e) && Outside(b) ==> Outside(Apply(b, e)))
  {
    hide PortOk, Fresh, Grounded, Tick, ReselectTree, Restart, Reset, WithHoldCount, WithPort, Retime;
    hide PM.FromSameRegion;
    if Outside(b) {
      forall p | 0 <= p < |b.ports| ensures !b.ports[p].rx.rcvdInternal {
        assert External(b.cfg, b.ports[p]);
      }
    }
    hide Outside;
    match e
    case OneSecond => TickIsFresh(b);
    case BpduArrives(p, m, size) => HeardIsFresh(b, p, m, size);
    case SetHoldCount(n) => if n != b.cfg.holdCount { HoldCountIsFresh(b, n); }
    case SetVersion(v) =>
      if v != b.cfg.version {
        VersionIsFree(b, v, b.cfg.configId);
        RestartIsFresh(b.(cfg := b.cfg.(version := v)));
      }
    case SetRegion(id) =>
      if id != b.cfg.configId {
        VersionIsFree(b, b.cfg.version, id);
        RestartIsFresh(b.(cfg := b.cfg.(configId := id)));
      }
    case SetTimes(age, delay, hops) => if |b.ports| > 0 { TimesAreFresh(b, age, delay, hops); }
    case SetBridgeId(t, id) => if id != b.trees[t].bridgeId { ReselectIsFresh(b, t, id); }
    case SetAddress(mac) => if Readdress(b, mac) != b { RestartIsFresh(Readdress(b, mac)); }
    case Reenable => ResetIsFresh(b);
    case _ => PortEventIsFresh(b, e);
  }

  /** Is every event of the history careful, and every pass? */
  predicate CarefulHistory(b: Bridge, history: seq<Step>)
    requires BridgeOk(b)
    decreases |history|
  {
    history != [] ==>
      && (Acceptable(b, history[0].event) ==>
           && Careful(b, history[0].event)
           && (Runs(b, history[0].event) ==> CarefulRun(Apply(b, history[0].event), history[0].limit)))
      && CarefulHistory(Advance(b, history[0]), history[1..])
  }

  /** A pass forgets what was known on a disabled port. */
  lemma PassGrounds(b: Bridge)
    requires BridgeOk(b)
    ensures Grounded(RunOnce(b))
  {
    hide NodeOk, RunOnce;
    forall p | 0 <= p < |b.ports| && !RunOnce(b).ports[p].cfg.portEnabled
      ensures RunOnce(b).ports[p].info[0].infoIs == IoDisabled
    {
      PassKeepsConfig(b, p);
      PassKeepsPending(b, p);
    }
  }

  lemma SettledIsGrounded(b: Bridge)
    requires BridgeOk(b) && Settled(b)
    ensures Grounded(b)
  {
    hide Settled, NodeOk;
    forall p | 0 <= p < |b.ports| && !b.ports[p].cfg.portEnabled ensures b.ports[p].info[0].infoIs == IoDisabled {
      SB.SettledShape(b, p);
    }
  }

  lemma {:induction false} MachinesGround(b: Bridge, limit: nat)
    requires BridgeOk(b) && (limit > 0 || Grounded(b))
    ensures Grounded(RunMachines(b, limit))
    decreases limit
  {
    hide BridgeOk, Grounded, RunOnce, Settled;
    if Settled(b) {
      SettledIsGrounded(b);
    } else if limit > 0 {
      PassGrounds(b);
      MachinesGround(RunOnce(b), limit - 1);
    }
  }

  /** An event after which the machines do not run leaves the information on disabled ports alone. */
  lemma IdleEventGrounds(b: Bridge, e: Event)
    requires BridgeOk(b) && Grounded(b) && Acceptable(b, e) && !Runs(b, e)
    ensures Grounded(Apply(b, e))
  {
    hide NodeOk, PortUp, ReceiveBpdu, Reselect, Readdress;
    match e
    case SetBridgeId(t, id) =>
      forall p | 0 <= p < |b.ports|
        ensures Reselect(b.ports[p], t).info == b.ports[p].info && Reselect(b.ports[p], t).cfg == b.ports[p].cfg
      {
        ReselectKeepsPending(b.ports[p], t);
      }
    case SetNode(q, t, conf) => ReselectKeepsPending(b.ports[q].(conf := b.ports[q].conf[t := conf]), t);
    case SetOptions(q, o) => ReselectKeepsPending(b.ports[q], 0);
    case _ =>
  }

  /** One careful step of a history. */
  lemma StepIsFresh(b: Bridge, s: Step)
    requires BridgeOk(b) && Shape(b) && Fresh(b) && Grounded(b) && (Acceptable(b, s.event) ==> Careful(b, s.event))
    requires Acceptable(b, s.event) && Runs(b, s.event) ==> CarefulRun(Apply(b, s.event), s.limit)
    ensures Shape(Advance(b, s)) && Fresh(Advance(b, s)) && Grounded(Advance(b, s))
  {
    hide BridgeOk, Shape, Fresh, Grounded, Outside, Apply, RunMachines, CarefulRun, Careful, Runs;
    if Acceptable(b, s.event) {
      EventIsFresh(b, s.event);
      if Runs(b, s.event) {
        MachinesAreFresh(Apply(b, s.event), s.limit);
        MachinesGround(Apply(b, s.event), s.limit);
      } else {
        IdleEventGrounds(b, s.event);
      }
    }
  }

  lemma {:induction false} HistoriesAreFresh(b: Bridge, history: seq<Step>)
    requires BridgeOk(b) && Shape(b) && Fresh(b) && Grounded(b) && CarefulHistory(b, history)
    ensures Shape(After(b, history)) && Fresh(After(b, history))
    decreases |history|
  {
    hide BridgeOk, Shape, Fresh, Grounded, Apply, Advance, Careful, CarefulRun, Runs;
    if history != [] {
      StepIsFresh(b, history[0]);
      HistoriesAreFresh(Advance(b, history[0]), history[1..]);
    }
  }

  /** Whatever happens, with or without passes cut short: once the bridge has settled, selecting roles again would
      change nothing but the identifier of a disabled port. */
  lemma SettledIsCurrent(b: Bridge, history: seq<Step>)
    requires BridgeOk(b) && Shape(b) && Fresh(b) && Grounded(b) && CarefulHistory(b, history)
    requires Settled(After(b, history))
    ensures Shape(After(b, history)) && RS.Current(After(b, history))
  {
    hide Settled, PortOk, UpToDate, After, CarefulHistory, RS.Current;
    var r := After(b, history);
    HistoriesAreFresh(b, history);
    SettledIsSure(r);
    UpToDateIsFixedPoint(r);
  }

  /** All BPDUs come from other regions, and every event is careful. */
  predicate OuterHistory(b: Bridge, history: seq<Step>)
    requires BridgeOk(b)
    decreases |history|
  {
    history != [] ==>
      && (Acceptable(b, history[0].event) ==> Careful(b, history[0].event) && FromOther(b.cfg, history[0].event))
      && OuterHistory(Advance(b, history[0]), history[1..])
  }

  /** A bridge that hears other regions only need not care about its passes. */
  lemma {:induction false} OuterIsCareful(b: Bridge, history: seq<Step>)
    requires BridgeOk(b) && Shape(b) && Fresh(b) && Grounded(b) && Outside(b) && OuterHistory(b, history)
    ensures CarefulHistory(b, history) && Outside(After(b, history))
    decreases |history|
  {
    hide BridgeOk, Shape, Fresh, Grounded, Outside, Apply, RunMachines, CarefulRun, Careful, Runs, FromOther;
    if history != [] {
      var s := history[0];
      if Acceptable(b, s.event) {
        EventIsFresh(b, s.event);
        if Runs(b, s.event) { OutsideRunIsCareful(Apply(b, s.event), s.limit); }
      }
      StepIsFresh(b, s);
      OuterIsCareful(Advance(b, s), history[1..]);
    }
  }

  /** Such a bridge satisfies what the network theorems ask of each bridge. */
  lemma SettledHistoryRests(b: Bridge, history: seq<Step>)
    requires BridgeOk(b) && Shape(b) && Fresh(b) && Grounded(b) && CarefulHistory(b, history)
    requires Settled(After(b, history))
    requires Shape(After(b, history)) && NR.Plain(After(b, history))
    ensures NR.Resting(After(b, history))
  {
    hide BridgeOk, Settled, After, CarefulHistory, Fresh, Grounded, NR.Plain, RS.Current;
    SettledIsCurrent(b, history);
  }

  lemma SettledIsSure(b: Bridge)
    requires BridgeOk(b) && Shape(b) && Settled(b)
    ensures !Unsure(b)
  {
    assert !RS.SelectionDue(b, 0);
    SettledIsGrounded(b);
    hide Settled, NodeOk;
  }
}
