/**
 Settings that change without role selection being asked for: a path cost (mstp.c:448-454), a restriction
 (mstp.c:1145-1151) and the identifier of a node (mstp.c:1265-1271), and whatever changes on a bridge without ports
 (mstp.c:944-971).  For each of them, exactly when the roles are still those that role selection would choose.
 */
module Unnoticed {
  import opened Types
  import opened Priority
  import opened PortInvariant
  import opened BridgeRun
  import opened Events
  import opened Freshness
  import PI = PortInformation
  import PM = PortMachines
  import PT = PortTransmit
  import RS = RoleSelection
  import RT = RoleTransitions
  import RM = RoleMachine
  import TC = TopologyChange
  import SB = SettledBridge
  import NR = NetworkAtRest

  // ---- No machine watches them ----------------------------------------------------------------------

  /** The settings of a port that only role selection reads. */
  datatype Settings = Settings(cost: U32, restricted: bool, conf: seq<PtpConfig>)

  function SettingsOf(prt: Port): Settings { Settings(prt.cfg.extPathCost, prt.cfg.restrictedRole, prt.conf) }

  function Altered(prt: Port, s: Settings): Port {
    prt.(cfg := prt.cfg.(extPathCost := s.cost, restrictedRole := s.restricted), conf := s.conf)
  }

  function Alter(b: Bridge, p: nat, s: Settings): Bridge
    requires p < |b.ports|
  {
    b.(ports := b.ports[p := Altered(b.ports[p], s)])
  }

  /** No machine of a port looks at them. */
  lemma SettingsAreNotWatched(k: Phase, cfg: BridgeConfig, prt: Port, s: Settings)
    requires PortOk(cfg, prt) && |s.conf| == |prt.conf| && !PhaseDue(k, cfg, prt)
    ensures PortOk(cfg, Altered(prt, s)) && !PhaseDue(k, cfg, Altered(prt, s))
  {
    hide NodeOk;
    var r := Altered(prt, s);
    SameNodes(prt, r);
    match k
    case Receive => assert PM.RcvdAnyMsg(r) == PM.RcvdAnyMsg(prt);
    case Transmit =>
      assert PT.AllTransmitReady(r) == PT.AllTransmitReady(prt);
      assert PT.MstiMasterPort(r) == PT.MstiMasterPort(prt);
    case Inform => assert forall t :: 0 <= t < |prt.info| ==> PI.Next(r, t) == PI.Next(prt, t);
    case _ =>
  }

  lemma SettingsAreNotWatchedByNodes(b: Bridge, p: nat, s: Settings, q: nat, t: nat)
    requires BridgeOk(b) && p < |b.ports| && q < |b.ports| && t < |b.trees| && |s.conf| == |b.ports[p].conf|
    requires RM.InRange(b, q, t) && RM.Next(b, q, t).None? && TC.Next(b.ports[q], t).None?
    ensures var r := Alter(b, p, s); RM.InRange(r, q, t) && RM.Next(r, q, t).None? && TC.Next(r.ports[q], t).None?
  {
    hide NodeOk, RT.Next, RM.EnvOf, RM.Ready;
    var r := Alter(b, p, s);
    forall i | 0 <= i < |b.ports| && i != q ensures RM.SameSummary(b.ports[i], r.ports[i], t) {
      SettingsAreNotSummarised(b.ports[i], s, t);
    }
    RM.EnvDependsOnSummaries(b, r, q, t);
  }

  lemma SettingsAreNotSummarised(prt: Port, s: Settings, t: nat)
    requires t < |prt.sel| == |prt.rv| == |prt.info| == |prt.hs|
    ensures RM.SameSummary(prt, Altered(prt, s), t) && RM.SameSummary(prt, prt, t)
  {
  }

  /** A settled bridge stays settled under new settings. */
  lemma AlteredStaysSettled(b: Bridge, p: nat, s: Settings)
    requires BridgeOk(b) && Settled(b) && p < |b.ports| && |s.conf| == |b.ports[p].conf|
    ensures var r := Alter(b, p, s); BridgeOk(r) && Shape(r) && Settled(r)
  {
    hide PortOk, PhaseDue, RM.Next, TC.Next;
    var r := Alter(b, p, s);
    forall k: Phase ensures PortOk(b.cfg, r.ports[p]) && !PhaseDue(k, b.cfg, r.ports[p]) {
      assert !PhaseDue(k, b.cfg, b.ports[p]);
      SettingsAreNotWatched(k, b.cfg, b.ports[p], s);
    }
    SettingsAreNotWatched(Assure, b.cfg, b.ports[p], s) by { assert !PhaseDue(Assure, b.cfg, b.ports[p]); }
    assert BridgeOk(r);
    ShapeOfOk(b);
    ShapeOfOk(r);
    forall t | 0 <= t < |b.trees| ensures !RS.SelectionDue(r, t) {
      assert !RS.SelectionDue(b, t);
      assert forall q :: 0 <= q < |b.ports| ==> !b.ports[q].sel[t].reselect;
    }
    forall q, t | 0 <= q < |r.ports| && 0 <= t < |r.trees|
      ensures RM.Next(r, q, t).None? && TC.Next(r.ports[q], t).None?
    {
      SettingsAreNotWatchedByNodes(b, p, s, q, t);
    }
  }

  /** In a settled bridge the machines leave everything as it is. */
  lemma NothingRuns(b: Bridge, limit: nat)
    requires BridgeOk(b) && Settled(b)
    ensures RunMachines(b, limit) == b
  {
    hide BridgeOk, Settled;
  }

  // ---- When role selection would choose the same ----------------------------------------------------

  /** A settled bridge whose roles are those role selection would choose. */
  predicate Steady(b: Bridge) {
    && BridgeOk(b) && Settled(b) && Shape(b) && RS.Current(b)
    && b.trees[0].bridgePriority == NR.OwnVector(b.trees[0].bridgeId)
    && (forall q, r :: 0 <= q < r < |b.ports| ==> b.ports[q].conf[0].portId != b.ports[r].conf[0].portId)
  }

  lemma RestingIsSteady(b: Bridge)
    requires NR.Resting(b)
    ensures Steady(b)
  {
    hide BridgeOk, Settled, RS.Current;
  }

  /** In a settled bridge, that selecting roles again would change nothing that matters means that it is up to date. */
  lemma CurrentIsUpToDate(b: Bridge)
    requires BridgeOk(b) && Shape(b) && Settled(b)
    ensures RS.Current(b) <==> UpToDate(b)
  {
    hide Settled, NodeOk, RS.Current, RS.NewTree, RS.RootIndex, RS.SelectPort, RS.Renewed, PortUpToDate, SB.CistAtRest;
    if UpToDate(b) {
      UpToDateIsFixedPoint(b);
    } else if RS.Current(b) {
      CurrentTree(b);
      RS.CurrentByPorts(b);
      var root := NR.RootPort(b);
      forall q | 0 <= q < |b.ports| ensures PortUpToDate(b.trees[0], b.ports[q], root == Some(q)) {
        SB.SettledShape(b, q);
        RenewedIsUpToDate(b.trees[0], b.ports[q], root == Some(q));
      }
    }
  }

  lemma RenewedIsUpToDate(tree: Tree, prt: Port, isRoot: bool)
    requires 1 <= |prt.info| && |prt.info| == |prt.sel| == |prt.conf| == |prt.rv| && SB.CistAtRest(prt)
    requires RS.SelectPort(tree, 0, prt, isRoot, false) == RS.Renewed(prt)
    ensures PortUpToDate(tree, prt, isRoot)
  {
    hide RS.ChooseRole, RS.DesignatedPriority, RS.DesignatedTimes, RS.SyncMaster, RS.WakesMstis;
    var r := RS.SelectPort(tree, 0, prt, isRoot, false);
    assert r.sel[0] == RS.Renewed(prt).sel[0] && r.info[0] == prt.info[0];
  }

  /** With its new settings the port would still be the root port, if it is, and still not be, if it is not. */
  predicate StillBest(b: Bridge, p: nat, prt: Port)
    requires Shape(b) && p < |b.ports| && PortShape(b.cfg, prt)
  {
    var tree := b.trees[0];
    if NR.RootPort(b) == Some(p) then
      && RS.Candidate(tree, 0, prt) && RS.RootPath(tree, 0, prt) == tree.rootPriority
      && RS.RootTimes(b.cfg, tree, 0, [prt], Some(0)) == tree.rootTimes
    else RS.Candidate(tree, 0, prt) ==>
      !BetterOrSame(RS.RootPath(tree, 0, prt), tree.rootPriority, prt.conf[0].portId, tree.rootPortId, true)
  }

  /** The tree of a current bridge is what role selection makes of it. */
  lemma CurrentTree(b: Bridge)
    requires Shape(b) && RS.Current(b)
    ensures RS.NewTree(b.cfg, b.trees[0], 0, b.ports) == b.trees[0]
    ensures var best := RS.Choose(b.cfg, b.trees[0], 0, b.ports, |b.ports|);
      && best == RS.Best(b.trees[0].rootPriority, b.trees[0].rootPortId, NR.RootPort(b))
      && RS.Wins(b.cfg, b.trees[0], 0, b.ports, best)
  {
    hide RS.Choose, RS.Wins, RS.RootTimes, RS.Renewed;
    assert RS.EnterSelection(b, 0).trees[0] == RS.NewTree(b.cfg, b.trees[0], 0, b.ports);
    RS.ChosenExactly(b.cfg, b.trees[0], 0, b.ports, RS.Choose(b.cfg, b.trees[0], 0, b.ports, |b.ports|));
  }

  /** What role selection reads is the same, but for the path to what port `p` has received, and whether the port sends
      STP BPDUs. */
  predicate SameBut(b: Bridge, r: Bridge, p: nat)
    requires Shape(b) && Shape(r)
  {
    && r.cfg == b.cfg && |r.ports| == |b.ports| && r.trees[0] == b.trees[0]
    && forall q :: 0 <= q < |b.ports| ==> SamePort(b.ports[q], r.ports[q], q == p)
  }

  predicate SamePort(prt: Port, r: Port, own: bool)
    requires 1 <= |prt.info| && 1 <= |prt.sel| && 1 <= |r.info| && 1 <= |r.sel| && 1 <= |prt.conf| && 1 <= |r.conf|
  {
    && SameInformation(prt.info[0], r.info[0]) && r.sel[0] == prt.sel[0] && r.conf[0].portId == prt.conf[0].portId
    && (own || (SamePath(prt, r) && r.mig.sendRSTP == prt.mig.sendRSTP))
  }

  /** The same root is chosen. */
  lemma StillWins(b: Bridge, r: Bridge, p: nat)
    requires Shape(b) && Shape(r) && UpToDate(b) && SameBut(b, r, p) && p < |b.ports| && StillBest(b, p, r.ports[p])
    ensures RS.NewTree(r.cfg, r.trees[0], 0, r.ports) == r.trees[0] && NR.RootPort(r) == NR.RootPort(b)
  {
    hide RS.Choose, BetterOrSame, PortUpToDate;
    var tree, best := b.trees[0], RS.Choose(b.cfg, b.trees[0], 0, b.ports, |b.ports|);
    RS.ChosenExactly(b.cfg, tree, 0, b.ports, best);
    var path, id := RS.RootPath(tree, 0, r.ports[p]), r.ports[p].conf[0].portId;
    ComparisonIsTotalPreorder(best.priority, path, path, best.portId, id, id, true);
    forall q | 0 <= q < |b.ports| && q != p
      ensures RS.Candidate(tree, 0, r.ports[q]) == RS.Candidate(tree, 0, b.ports[q])
      ensures RS.Candidate(tree, 0, b.ports[q]) ==> RS.RootPath(tree, 0, r.ports[q]) == RS.RootPath(tree, 0, b.ports[q])
      ensures r.ports[q].conf[0].portId == b.ports[q].conf[0].portId
    {
      assert SamePort(b.ports[q], r.ports[q], false);
    }
    assert SamePort(b.ports[p], r.ports[p], true);
    assert RS.Wins(r.cfg, tree, 0, r.ports, best);
    RS.ChosenExactly(r.cfg, tree, 0, r.ports, best);
  }

  /** Whether role selection is up to date on a port depends on nothing else. */
  lemma SamePortIsUpToDate(tree: Tree, prt: Port, r: Port, own: bool, isRoot: bool)
    requires 1 <= |prt.info| && |prt.info| == |prt.sel| == |prt.conf| == |prt.rv|
    requires |r.info| == |r.sel| == |r.conf| == |r.rv| == |prt.info|
    requires SamePort(prt, r, own) && PortUpToDate(tree, prt, isRoot)
    ensures PortUpToDate(tree, r, isRoot) <==>
      tree.rootPriority.rRootId == tree.bridgeId || r.mig.sendRSTP == prt.mig.sendRSTP
  {
    hide BetterOrSame;
    assert RS.DesignatedTimes(tree, 0, r) == RS.DesignatedTimes(tree, 0, prt);
    if tree.rootPriority.rRootId == tree.bridgeId || r.mig.sendRSTP == prt.mig.sendRSTP {
      assert RS.DesignatedPriority(tree, 0, r) == RS.DesignatedPriority(tree, 0, prt);
    } else {
      assert RS.DesignatedPriority(tree, 0, r).rRootId != RS.DesignatedPriority(tree, 0, prt).rRootId;
    }
  }

  /** Whatever role selection chooses, the port is the root port with the same path, or is not. */
  lemma UpToDateIsBest(b: Bridge, r: Bridge, p: nat)
    requires Steady(b) && UpToDate(b) && Shape(r) && UpToDate(r) && SameBut(b, r, p) && p < |b.ports|
    ensures StillBest(b, p, r.ports[p])
  {
    hide BridgeOk, Settled, RS.Choose, BetterOrSame, RS.Current, PortUpToDate;
    var tree := b.trees[0];
    var before, after := NR.RootPort(b), NR.RootPort(r);
    RS.ChosenExactly(b.cfg, tree, 0, b.ports, RS.Choose(b.cfg, tree, 0, b.ports, |b.ports|));
    RS.ChosenExactly(r.cfg, tree, 0, r.ports, RS.Choose(r.cfg, tree, 0, r.ports, |r.ports|));
    var path, id := RS.RootPath(tree, 0, r.ports[p]), r.ports[p].conf[0].portId;
    SameKeySameId(path, tree.rootPriority, id, tree.rootPortId);
    assert before.Some? ==> tree.rootPriority.desBridge != tree.bridgeId;
    assert before.None? ==> tree.rootPriority.desBridge == tree.bridgeId;
    assert SamePort(b.ports[p], r.ports[p], true);
    if after.Some? && after != Some(p) {
      assert SamePort(b.ports[after.value], r.ports[after.value], false);
      DifferentIds(b, p, after.value);
    }
    if before.Some? && before != Some(p) { DifferentIds(b, p, before.value); }
  }

  /** A steady bridge that settles again with nothing else changed: its roles are those role selection would choose if
      and only if port `p` is still the best or still not, and sends the same kind of BPDUs or need not care. */
  lemma CurrentExactly(b: Bridge, r: Bridge, p: nat)
    requires Steady(b) && BridgeOk(r) && Shape(r) && Settled(r) && SameBut(b, r, p) && p < |b.ports|
    ensures RS.Current(r) <==>
      StillBest(b, p, r.ports[p]) && (AtHome(b) || r.ports[p].mig.sendRSTP == b.ports[p].mig.sendRSTP)
  {
    hide BridgeOk, Settled, RS.Current, StillBest, PortUpToDate, RS.NewTree, RS.RootIndex, RS.Choose;
    CurrentIsUpToDate(b);
    CurrentIsUpToDate(r);
    var tree, root := b.trees[0], NR.RootPort(b);
    if UpToDate(r) { UpToDateIsBest(b, r, p); }
    if StillBest(b, p, r.ports[p]) {
      StillWins(b, r, p);
      forall q | 0 <= q < |b.ports|
        ensures PortUpToDate(tree, r.ports[q], root == Some(q)) <==>
          AtHome(b) || r.ports[q].mig.sendRSTP == b.ports[q].mig.sendRSTP
      {
        assert SamePort(b.ports[q], r.ports[q], q == p) && PortUpToDate(tree, b.ports[q], root == Some(q));
        SamePortIsUpToDate(tree, b.ports[q], r.ports[q], q == p, root == Some(q));
      }
      assert forall q :: 0 <= q < |b.ports| && q != p ==> SamePort(b.ports[q], r.ports[q], false);
    }
  }

  lemma SameKeySameId(v: Vector, w: Vector, i: PortId, j: PortId)
    ensures BetterOrSame(v, w, i, j, true) && BetterOrSame(w, v, j, i, true) ==> i == j
  {
    hide BetterOrSame;
    ComparisonIsTotalPreorder(v, w, v, i, j, i, true);
    assert Key(v, i, true)[|Key(v, i, true)| - 1] == i && Key(w, j, true)[|Key(w, j, true)| - 1] == j;
  }

  lemma DifferentIds(b: Bridge, p: nat, q: nat)
    requires Steady(b) && p < |b.ports| && q < |b.ports| && p != q
    ensures b.ports[p].conf[0].portId != b.ports[q].conf[0].portId
  {
    hide BridgeOk, Settled, RS.Current;
    var i, j := if p < q then p else q, if p < q then q else p;
    assert b.ports[i].conf[0].portId != b.ports[j].conf[0].portId;
  }

  /** A port of a steady bridge gets new settings, but not a new identifier.  Nothing runs, and the roles are those
      role selection would choose exactly if the port is still the best or still not. */
  lemma CurrentUnderNewSettings(b: Bridge, p: nat, s: Settings)
    requires Steady(b) && p < |b.ports|
    requires |s.conf| == |b.ports[p].conf| && s.conf[0].portId == b.ports[p].conf[0].portId
    ensures var r := Alter(b, p, s);
      BridgeOk(r) && Shape(r) && Settled(r) && (RS.Current(r) <==> StillBest(b, p, r.ports[p]))
  {
    hide BridgeOk, Settled, RS.Current, StillBest;
    AlteredStaysSettled(b, p, s);
    CurrentExactly(b, Alter(b, p, s), p);
  }

  // ---- A new path cost ------------------------------------------------------------------------------

  /** The same link comes up again, at another speed. */
  function Recosted(prt: Port, p: nat, cost: U32, costs: seq<U32>): Event {
    LinkUp(p, cost, costs, prt.cfg.operPointToPoint)
  }

  function NewCosts(prt: Port, cost: U32, costs: seq<U32>): Settings
    requires |costs| == |prt.conf|
  {
    Settings(cost, prt.cfg.restrictedRole,
             seq(|prt.conf|, t requires 0 <= t < |prt.conf| => prt.conf[t].(intPathCost := costs[t])))
  }

  lemma RecostedBridge(b: Bridge, p: nat, cost: U32, costs: seq<U32>)
    requires BridgeOk(b) && p < |b.ports| && b.ports[p].cfg.portEnabled && |costs| == |b.cfg.mstids|
    ensures var e := Recosted(b.ports[p], p, cost, costs);
      Acceptable(b, e) && |costs| == |b.ports[p].conf| && Apply(b, e) == Alter(b, p, NewCosts(b.ports[p], cost, costs))
  {
    hide NodeOk;
  }

  /** What comes of new settings when the machines have run, if they do. */
  lemma SettledAdvance(b: Bridge, s: Step)
    requires BridgeOk(b) && Acceptable(b, s.event) && Settled(Apply(b, s.event))
    ensures Advance(b, s) == Apply(b, s.event)
  {
    hide BridgeOk, Settled, Apply, Runs;
    NothingRuns(Apply(b, s.event), s.limit);
  }

  /** A new path cost on an enabled port is noticed by no machine; when the roles remain right all the same. */
  lemma CostChangeExactly(b: Bridge, p: nat, cost: U32, costs: seq<U32>, limit: PassLimit)
    requires Steady(b) && p < |b.ports| && b.ports[p].cfg.portEnabled && |costs| == |b.cfg.mstids|
    ensures var r := Advance(b, Step(Recosted(b.ports[p], p, cost, costs), limit));
      && r.trees == b.trees && Shape(r) && Settled(r) && r.ports[p].cfg.extPathCost == cost
      && (RS.Current(r) <==> StillBest(b, p, r.ports[p]))
  {
    hide BridgeOk, Settled, RS.Current, StillBest, Apply;
    RecostedBridge(b, p, cost, costs);
    CurrentUnderNewSettings(b, p, NewCosts(b.ports[p], cost, costs));
    SettledAdvance(b, Step(Recosted(b.ports[p], p, cost, costs), limit));
  }

  /** In a bridge at rest: the cost is the same, the port is no candidate, or it is not the root port and its new path
      is no better than the root's. */
  lemma RestingCostChange(b: Bridge, p: nat, cost: U32, costs: seq<U32>, limit: PassLimit)
    requires NR.Resting(b) && p < |b.ports| && b.ports[p].cfg.portEnabled && |costs| == |b.cfg.mstids|
    requires b.ports[p].info[0].portPriority.extCost + cost <= UINT32_MAX
    ensures var r := Advance(b, Step(Recosted(b.ports[p], p, cost, costs), limit));
      var tree, prt := b.trees[0], b.ports[p];
      && Shape(r) && PortShape(b.cfg, r.ports[p])
      && (RS.Current(r) <==>
            || cost == prt.cfg.extPathCost || !RS.Candidate(tree, 0, prt)
            || (NR.RootPort(b) != Some(p)
                && !BetterOrSame(RS.RootPath(tree, 0, r.ports[p]), tree.rootPriority, prt.conf[0].portId,
                    tree.rootPortId, true)))
  {
    hide BridgeOk, Settled, RS.Current, BetterOrSame, Advance, RS.Choose, RS.Wins;
    RestingIsSteady(b);
    CurrentTree(b);
    RecostedBridge(b, p, cost, costs) by { hide Apply; }
    CostChangeExactly(b, p, cost, costs, limit);
    RecostedSettles(b, p, cost, costs, limit);
    UnchangedIsStillBest(b, p);
  }

  lemma RecostedSettles(b: Bridge, p: nat, cost: U32, costs: seq<U32>, limit: PassLimit)
    requires Steady(b) && p < |b.ports| && b.ports[p].cfg.portEnabled && |costs| == |b.cfg.mstids|
    ensures |costs| == |b.ports[p].conf|
    ensures Advance(b, Step(Recosted(b.ports[p], p, cost, costs), limit)) ==
        Alter(b, p, NewCosts(b.ports[p], cost, costs))
  {
    hide BridgeOk, Settled, RS.Current, StillBest, Apply;
    RecostedBridge(b, p, cost, costs);
    CurrentUnderNewSettings(b, p, NewCosts(b.ports[p], cost, costs));
    SettledAdvance(b, Step(Recosted(b.ports[p], p, cost, costs), limit));
  }

  /** A port is as good as it was. */
  lemma UnchangedIsStillBest(b: Bridge, p: nat)
    requires Steady(b) && p < |b.ports|
    ensures StillBest(b, p, b.ports[p])
  {
    hide BridgeOk, Settled, RS.Choose, BetterOrSame, RS.Current;
    CurrentTree(b);
    var tree := b.trees[0];
    SameKeySameId(RS.RootPath(tree, 0, b.ports[p]), tree.rootPriority, b.ports[p].conf[0].portId, tree.rootPortId);
    var root := NR.RootPort(b);
    if root.Some? && root != Some(p) { DifferentIds(b, p, root.value); }
  }

  // ---- A new restriction ----------------------------------------------------------------------------

  function Restrict(prt: Port, restricted: bool): PortConfig { prt.cfg.(restrictedRole := restricted) }

  /** A restriction set or lifted on an enabled port is noticed by no machine either. */
  lemma RestrictionExactly(b: Bridge, p: nat, restricted: bool, limit: PassLimit)
    requires Steady(b) && p < |b.ports| && b.ports[p].cfg.portEnabled
    ensures var r := Advance(b, Step(SetOptions(p, Restrict(b.ports[p], restricted)), limit));
      && r.trees == b.trees && Shape(r) && Settled(r) && r.ports[p].cfg.restrictedRole == restricted
      && (RS.Current(r) <==> StillBest(b, p, r.ports[p]))
  {
    hide BridgeOk, Settled, RS.Current, StillBest, Apply;
    var s := SettingsOf(b.ports[p]).(restricted := restricted);
    RestrictedBridge(b, p, restricted);
    CurrentUnderNewSettings(b, p, s);
    SettledAdvance(b, Step(SetOptions(p, Restrict(b.ports[p], restricted)), limit));
  }

  lemma RestrictedBridge(b: Bridge, p: nat, restricted: bool)
    requires BridgeOk(b) && p < |b.ports|
    ensures |b.ports[p].conf| > 0
    ensures var e := SetOptions(p, Restrict(b.ports[p], restricted));
      Acceptable(b, e) && Apply(b, e) == Alter(b, p, SettingsOf(b.ports[p]).(restricted := restricted))
  {
    hide NodeOk, Reselect;
    assert b.ports[p].ba == b.ports[p].ba.(inconsistent := b.ports[p].ba.inconsistent);
  }

  /** In a bridge at rest: the restriction is not set, or not on the root port. */
  lemma RestingRestriction(b: Bridge, p: nat, restricted: bool, limit: PassLimit)
    requires NR.Resting(b) && p < |b.ports| && b.ports[p].cfg.portEnabled
    ensures var r := Advance(b, Step(SetOptions(p, Restrict(b.ports[p], restricted)), limit));
      Shape(r) && (RS.Current(r) <==> !restricted || NR.RootPort(b) != Some(p))
  {
    hide BridgeOk, Settled, RS.Current, BetterOrSame, Advance, RS.Choose, RS.Wins;
    RestingIsSteady(b);
    RestrictionExactly(b, p, restricted, limit);
    RestrictedSettles(b, p, restricted, limit);
    UnchangedIsStillBest(b, p);
  }

  lemma RestrictedSettles(b: Bridge, p: nat, restricted: bool, limit: PassLimit)
    requires Steady(b) && p < |b.ports| && b.ports[p].cfg.portEnabled
    ensures Advance(b, Step(SetOptions(p, Restrict(b.ports[p], restricted)), limit))
         == Alter(b, p, SettingsOf(b.ports[p]).(restricted := restricted))
  {
    hide BridgeOk, Settled, RS.Current, StillBest, Apply;
    RestrictedBridge(b, p, restricted);
    CurrentUnderNewSettings(b, p, SettingsOf(b.ports[p]).(restricted := restricted));
    SettledAdvance(b, Step(SetOptions(p, Restrict(b.ports[p], restricted)), limit));
  }

  // ---- A new identifier on a disabled port ----------------------------------------------------------

  /** Every designated vector carries the present identifier of its port. */
  predicate AllNamed(b: Bridge)
    requires Shape(b)
  {
    forall q :: 0 <= q < |b.ports| ==> b.ports[q].sel[0].designatedPriority.desPort == b.ports[q].conf[0].portId
  }

  /** Where selecting roles again would change nothing at all, it would change nothing that matters. */
  lemma FixedIsCurrent(b: Bridge)
    requires Shape(b) && RS.EnterSelection(b, 0) == b
    ensures RS.Current(b) && AllNamed(b)
  {
    hide RS.NewTree, RS.RootIndex, RS.SelectPort, RS.SyncsMaster, RS.Renewed;
    var tree := RS.NewTree(b.cfg, b.trees[0], 0, b.ports);
    forall q | 0 <= q < |b.ports|
      ensures b.ports[q].sel[0].designatedPriority.desPort == b.ports[q].conf[0].portId
      ensures RS.Renewed(b.ports[q]) == b.ports[q]
    {
      var isRoot, sync := RS.RootIndex(b.cfg, b.trees[0], 0, b.ports) == Some(q), RS.SyncsMaster(b.trees[0], tree, 0);
      assert RS.EnterSelection(b, 0).ports[q] == RS.SelectPort(tree, 0, b.ports[q], isRoot, sync);
      SelectionNamesPort(tree, b.ports[q], isRoot, sync);
      RS.RenewedExactly(b.ports[q]);
    }
    assert RS.Renew(b).ports == b.ports;
  }

  lemma SelectionNamesPort(tree: Tree, prt: Port, isRoot: bool, sync: bool)
    requires 1 <= |prt.info| && |prt.info| == |prt.sel| == |prt.conf| == |prt.rv|
    ensures RS.SelectPort(tree, 0, prt, isRoot, sync).sel[0].designatedPriority.desPort == prt.conf[0].portId
  {
    hide RS.DesignatedTimes, RS.ChooseRole, RS.SyncMaster, RS.WakesMstis;
  }

  /** A port without information takes no part in the choice of the root. */
  lemma ForgottenStaysCurrent(b: Bridge, p: nat, s: Settings)
    requires BridgeOk(b) && Settled(b) && Shape(b) && RS.Current(b)
    requires p < |b.ports| && |s.conf| == |b.ports[p].conf| && b.ports[p].info[0].infoIs == IoDisabled
    ensures var r := Alter(b, p, s); BridgeOk(r) && Shape(r) && Settled(r) && RS.Current(r)
  {
    hide BridgeOk, Settled, RS.Current, UpToDate;
    AlteredStaysSettled(b, p, s);
    CurrentIsUpToDate(b);
    CurrentIsUpToDate(Alter(b, p, s));
    MovedIsUpToDate(b, Alter(b, p, s));
  }

  /** A disabled port may get a new identifier without notice: then, and only then, selecting roles again would change
      something at all, namely the designated vectors of such ports. */
  lemma DisabledIdentifierExactly(b: Bridge, p: nat, conf: PtpConfig, limit: PassLimit)
    requires BridgeOk(b) && Settled(b) && Shape(b) && RS.EnterSelection(b, 0) == b
    requires p < |b.ports| && !b.ports[p].cfg.portEnabled
    ensures var r := Advance(b, Step(SetNode(p, 0, conf), limit));
      && Shape(r) && Settled(r) && RS.Current(r)
      && (RS.EnterSelection(r, 0) == r <==> conf.portId == b.ports[p].conf[0].portId)
  {
    hide PortOk, Settled, RS.EnterSelection, Apply, RS.Current, RS.SelectPort;
    var s := SettingsOf(b.ports[p]).(conf := b.ports[p].conf[0 := conf]);
    RenamedBridge(b, p, conf);
    AlteredStaysSettled(b, p, s);
    SettledAdvance(b, Step(SetNode(p, 0, conf), limit));
    SB.SettledShape(b, p);
    FixedIsCurrent(b);
    ForgottenStaysCurrent(b, p, s);
    RS.CurrentExactly(Alter(b, p, s));
    assert Alter(b, p, s).ports[p].conf[0] == conf;
  }

  lemma RenamedBridge(b: Bridge, p: nat, conf: PtpConfig)
    requires BridgeOk(b) && p < |b.ports| && !b.ports[p].cfg.portEnabled
    ensures Acceptable(b, SetNode(p, 0, conf)) && |b.ports[p].conf| > 0
    ensures Apply(b, SetNode(p, 0, conf)) == Alter(b, p, SettingsOf(b.ports[p]).(conf := b.ports[p].conf[0 := conf]))
  {
    hide NodeOk, Reselect;
    assert b.ports[p].conf[0 := b.ports[p].conf[0]] == b.ports[p].conf;
  }

  // ---- A bridge without ports -----------------------------------------------------------------------

  lemma PortlessIsSettled(b: Bridge, r: Bridge)
    requires BridgeOk(b) && Settled(b) && b.ports == [] && BridgeOk(r) && r.ports == []
    requires |r.trees| == |b.trees| && forall t :: 0 <= t < |b.trees| ==> r.trees[t].state == b.trees[t].state
    ensures Settled(r)
  {
    forall t | 0 <= t < |r.trees| ensures !RS.SelectionDue(r, t) {
      assert !RS.SelectionDue(b, t);
    }
  }

  lemma PortlessIsCurrent(b: Bridge)
    requires Shape(b) && b.ports == []
    ensures RS.Current(b) <==>
      b.trees[0] ==
          b.trees[0].(rootPriority := b.trees[0].bridgePriority, rootPortId := 0, rootTimes := b.trees[0].bridgeTimes,
              state := RoleSelection)
  {
    var tree := RS.NewTree(b.cfg, b.trees[0], 0, b.ports);
    var r := RS.EnterSelection(b, 0);
    assert RS.Choose(b.cfg, b.trees[0], 0, b.ports, 0) == RS.Best(b.trees[0].bridgePriority, 0, None);
    assert r.trees[0] == tree;
    assert r.trees == b.trees[0 := tree] && r.ports == RS.Renew(b).ports;
  }

  /** A new identifier for a bridge without ports: there is no port to ask for role selection. */
  lemma PortlessIdentifierExactly(b: Bridge, id: BridgeId, limit: PassLimit)
    requires Steady(b) && b.ports == []
    ensures var r := Advance(b, Step(SetBridgeId(0, id), limit));
      Shape(r) && Settled(r) && (RS.Current(r) <==> id == b.trees[0].bridgeId)
  {
    hide Settled, RS.Current, ReselectTree, RunMachines;
    var r := Advance(b, Step(SetBridgeId(0, id), limit));
    PortlessIsCurrent(b);
    if id != b.trees[0].bridgeId {
      assert r.ports == [] && r.trees == b.trees[0 := WithBridgeId(b.trees[0], id)];
      ShapeOfOk(r);
      PortlessIsSettled(b, r);
      PortlessIsCurrent(r);
    }
  }

  /** The same of new bridge times. */
  lemma PortlessTimesExactly(b: Bridge, age: U8, delay: U8, hops: U8, limit: PassLimit)
    requires Steady(b) && b.ports == [] && Acceptable(b, SetTimes(age, delay, hops))
    requires WithTimes(b.cfg, age, delay, hops) != b.cfg
    ensures var r := Advance(b, Step(SetTimes(age, delay, hops), limit));
      Shape(r) && Settled(r) && (RS.Current(r) <==> r.trees[0].bridgeTimes == b.trees[0].bridgeTimes)
  {
    hide Settled, RS.Current, RunMachines;
    var r := Retime(b, age, delay, hops);
    PortlessIsCurrent(b);
    ShapeOfOk(r);
    PortlessIsSettled(b, r);
    PortlessIsCurrent(r);
    SettledAdvance(b, Step(SetTimes(age, delay, hops), limit));
  }
}
