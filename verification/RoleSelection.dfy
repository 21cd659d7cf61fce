/**
 Port Role Selection (clauses 13.26.23 and 13.33 of IEEE 802.1Q-2005, mstp.c:2580-2858 and 3622-3676).

 `EnterSelection` is `PRSSM_to_ROLE_SELECTION`: clearReselectTree, updtRolesTree and setSelectedTree.
 */
module RoleSelection {
  import opened Types
  import opened Priority

  // ---- The root priority vector ---------------------------------------------------------------------

  /** Path costs are added without wrapping. */
  function SaturatingAdd(a: U32, b: U32): U32 {
    if a > UINT32_MAX - b then UINT32_MAX else a + b
  }

  /** May the information received on this port name the root? */
  predicate Candidate(tree: Tree, t: nat, prt: Port)
    requires t < |prt.info|
  {
    prt.info[t].infoIs == IoReceived && !prt.cfg.restrictedRole && prt.info[t].portPriority.desBridge != tree.bridgeId
  }

  /** The root path priority vector of a port. */
  function RootPath(tree: Tree, t: nat, prt: Port): Vector
    requires t < |prt.info| == |prt.conf|
  {
    var v := prt.info[t].portPriority;
    if prt.rx.rcvdInternal then v.(intCost := SaturatingAdd(v.intCost, prt.conf[t].intPathCost))
    else if t == 0 then
      v.(extCost := SaturatingAdd(v.extCost, prt.cfg.extPathCost), rRootId := tree.bridgeId, intCost := 0)
    else v
  }

  datatype Best = Best(priority: Vector, portId: PortId, root: Option<nat>)

  /** The best of the bridge's own vector and the root paths of the first `n` ports. */
  function Choose(cfg: BridgeConfig, tree: Tree, t: nat, ports: seq<Port>, n: nat): (r: Best)
    requires PortsShape(cfg, ports) && t < |cfg.mstids| && n <= |ports|
    ensures r.root.Some? ==> r.root.value < n
  {
    if n == 0 then Best(tree.bridgePriority, 0, None)
    else
      var best, prt := Choose(cfg, tree, t, ports, n - 1), ports[n - 1];
      if Candidate(tree, t, prt)
         && BetterOrSame(RootPath(tree, t, prt), best.priority, prt.conf[t].portId, best.portId, t == 0)
      then Best(RootPath(tree, t, prt), prt.conf[t].portId, Some(n - 1))
      else best
  }

  /** The times that go with the chosen root. */
  function RootTimes(cfg: BridgeConfig, tree: Tree, t: nat, ports: seq<Port>, root: Option<nat>): Times
    requires PortsShape(cfg, ports) && t < |cfg.mstids| && (root.Some? ==> root.value < |ports|)
  {
    if root.None? then tree.bridgeTimes
    else
      var prt := ports[root.value];
      var times := prt.info[t].portTimes;
      if prt.rx.rcvdInternal then
        times.(remainingHops := if times.remainingHops != 0 then times.remainingHops - 1 else 0)
      else times.(messageAge := (times.messageAge + 1) % 0x100)
  }

  // ---- Designated vectors and roles -----------------------------------------------------------------

  function DesignatedPriority(tree: Tree, t: nat, prt: Port): Vector
    requires t < |prt.conf|
  {
    tree.rootPriority.(desBridge := tree.bridgeId, desPort := prt.conf[t].portId,
                       rRootId := if t == 0 && !prt.mig.sendRSTP then tree.bridgeId else tree.rootPriority.rRootId)
  }

  function DesignatedTimes(tree: Tree, t: nat, prt: Port): Times
    requires t < |prt.info|
  {
    tree.rootTimes.(helloTime := prt.info[t].portTimes.helloTime)
  }

  /** Is this an MSTI node of a boundary port that follows the CIST? */
  predicate FollowsCist(t: nat, prt: Port)
    requires 1 <= |prt.info|
  {
    t != 0 && prt.info[0].infoIs == IoReceived && !prt.flags.infoInternal
  }

  /** selectedRole and updtInfo of one node, given its new designated vector and times. */
  function ChooseRole(tree: Tree, t: nat, prt: Port, des: Vector, desTimes: Times, isRoot: bool): (Role, bool)
    requires t < |prt.info| == |prt.sel|
  {
    var i := prt.info[t];
    if i.infoIs == IoDisabled then (RoleDisabled, i.updtInfo)
    else if FollowsCist(t, prt) then
      (if prt.sel[0].selectedRole == RoleRoot then RoleMaster else prt.sel[0].selectedRole,
       i.updtInfo || !SamePriorityAndTimers(i.portPriority, des, i.portTimes, desTimes, false))
    else if i.infoIs == IoAged then (RoleDesignated, true)
    else if i.infoIs == IoMine then
      (RoleDesignated, i.updtInfo || !SamePriorityAndTimers(i.portPriority, des, i.portTimes, desTimes, t == 0))
    else if isRoot then (RoleRoot, false)
    else if BetterOrSame(i.portPriority, des, 0, 0, t == 0) then
      (if i.portPriority.desBridge != tree.bridgeId then RoleAlternate else RoleBackup, false)
    else (RoleDesignated, true)
  }

  /** `syncMaster` on the MSTI nodes of one port. */
  function SyncMaster(prt: Port): seq<Handshake> {
    seq(|prt.hs|, i requires 0 <= i < |prt.hs| =>
        if i == 0 || !prt.flags.infoInternal then prt.hs[i]
        else prt.hs[i].(agree := false, agreed := false, synced := false, sync := true))
  }

  /** Does the CIST role change on received information make the MSTIs reselect (`reselectMSTIs`)? */
  predicate WakesMstis(t: nat, prt: Port, role: Role)
    requires t < |prt.info| == |prt.rv|
  {
    t == 0 && prt.info[t].infoIs == IoReceived && role != prt.rv[t].role
  }

  /** What role selection for tree `t` does to one port; `tree` has the new root vector and times. */
  function SelectPort(tree: Tree, t: nat, prt: Port, isRoot: bool, sync: bool): (r: Port)
    requires t < |prt.info| == |prt.sel| == |prt.conf| == |prt.rv|
    ensures |r.sel| == |prt.sel| && |r.info| == |prt.info| && |r.hs| == |prt.hs|
    ensures r == prt.(sel := r.sel, info := r.info, hs := r.hs)
  {
    var des, times := DesignatedPriority(tree, t, prt), DesignatedTimes(tree, t, prt);
    var (role, updt) := ChooseRole(tree, t, prt, des, times, isRoot);
    var wakes := WakesMstis(t, prt, role);
    prt.(info := prt.info[t := prt.info[t].(updtInfo := updt)],
         sel := seq(|prt.sel|, i requires 0 <= i < |prt.sel| =>
                    if i == t then Selection(true, false, role, des, times)
                    else if wakes then prt.sel[i].(reselect := true)
                    else prt.sel[i]),
         hs := if sync then SyncMaster(prt) else prt.hs)
  }

  /** The tree with its new root vector, port and times. */
  function NewTree(cfg: BridgeConfig, tree: Tree, t: nat, ports: seq<Port>): (r: Tree)
    requires PortsShape(cfg, ports) && t < |cfg.mstids|
    ensures r.mstid == tree.mstid && r.bridgeId == tree.bridgeId && r.state == RoleSelection
    ensures r.bridgePriority == tree.bridgePriority && r.bridgeTimes == tree.bridgeTimes
  {
    var best := Choose(cfg, tree, t, ports, |ports|);
    tree.(rootPriority := best.priority, rootPortId := best.portId,
          rootTimes := RootTimes(cfg, tree, t, ports, best.root), state := RoleSelection)
  }

  /** Does a new regional root make the bridge resynchronise its MSTIs? */
  predicate SyncsMaster(before: Tree, after: Tree, t: nat) {
    t == 0 && after.rootPriority.rRootId != before.rootPriority.rRootId
    && (after.rootPriority.extCost != 0 || before.rootPriority.extCost != 0)
  }

  function RootIndex(cfg: BridgeConfig, tree: Tree, t: nat, ports: seq<Port>): Option<nat>
    requires PortsShape(cfg, ports) && t < |cfg.mstids|
  {
    Choose(cfg, tree, t, ports, |ports|).root
  }

  /** Role selection on every port of the tree. */
  function SelectPorts(cfg: BridgeConfig, tree: Tree, t: nat, ports: seq<Port>, root: Option<nat>,
                       sync: bool): (r: seq<Port>)
    requires PortsShape(cfg, ports) && t < |cfg.mstids|
    ensures |r| == |ports| && PortsShape(cfg, r)
    ensures forall p :: 0 <= p < |ports| ==> r[p] == SelectPort(tree, t, ports[p], root == Some(p), sync)
  {
    hide SelectPort;
    seq(|ports|, p requires 0 <= p < |ports| => SelectPort(tree, t, ports[p], root == Some(p), sync))
  }

  /** `PRSSM_to_ROLE_SELECTION`. */
  function EnterSelection(b: Bridge, t: nat): (r: Bridge)
    requires Shape(b) && t < |b.trees|
    ensures Shape(r) && r.cfg == b.cfg && |r.ports| == |b.ports| && |r.trees| == |b.trees|
  {
    hide SelectPorts, NewTree, RootIndex, SyncsMaster;
    var tree := NewTree(b.cfg, b.trees[t], t, b.ports);
    var ports := SelectPorts(b.cfg, tree, t, b.ports, RootIndex(b.cfg, b.trees[t], t, b.ports),
                             SyncsMaster(b.trees[t], tree, t));
    b.(trees := b.trees[t := tree], ports := ports)
  }

  /** The transition `PRSSM_run` would take: `Some` when role selection is due. */
  predicate SelectionDue(b: Bridge, t: nat)
    requires Shape(b) && t < |b.trees|
  {
    b.trees[t].state == InitTree || exists p :: 0 <= p < |b.ports| && b.ports[p].sel[t].reselect
  }

  /** `PRSSM_run` with dry_run false. */
  function RunSelection(b: Bridge, t: nat): (r: Bridge)
    requires Shape(b) && t < |b.trees|
    ensures Shape(r) && r.cfg == b.cfg && |r.ports| == |b.ports| && |r.trees| == |b.trees|
  {
    hide EnterSelection;
    if SelectionDue(b, t) then EnterSelection(b, t) else b
  }

  // ---- Role selection is correct --------------------------------------------------------------------

  /** The chosen vector is the bridge's own or the root path of the port it names. */
  lemma {:induction false} ChosenIsAttained(cfg: BridgeConfig, tree: Tree, t: nat, ports: seq<Port>, n: nat)
    requires PortsShape(cfg, ports) && t < |cfg.mstids| && n <= |ports|
    ensures var best := Choose(cfg, tree, t, ports, n);
      match best.root
      case None => best.priority == tree.bridgePriority && best.portId == 0
      case Some(p) =>
        Candidate(tree, t, ports[p]) && best.priority == RootPath(tree, t, ports[p]) &&
          best.portId == ports[p].conf[t].portId
  {
    if n > 0 { ChosenIsAttained(cfg, tree, t, ports, n - 1); }
  }

  /** The chosen vector is at least as good as the bridge's own and as every candidate root path. */
  lemma {:induction false} ChosenIsLeast(cfg: BridgeConfig, tree: Tree, t: nat, ports: seq<Port>, n: nat)
    requires PortsShape(cfg, ports) && t < |cfg.mstids| && n <= |ports|
    ensures BetterOrSame(Choose(cfg, tree, t, ports, n).priority, tree.bridgePriority,
        Choose(cfg, tree, t, ports, n).portId, 0, t == 0)
    ensures forall p :: 0 <= p < n && Candidate(tree, t, ports[p]) ==>
      BetterOrSame(Choose(cfg, tree, t, ports, n).priority, RootPath(tree, t, ports[p]),
                   Choose(cfg, tree, t, ports, n).portId, ports[p].conf[t].portId, t == 0)
  {
    hide BetterOrSame, RootPath;
    var best := Choose(cfg, tree, t, ports, n);
    var cist := t == 0;
    ComparisonIsTotalPreorder(best.priority, best.priority, best.priority, best.portId, best.portId, best.portId, cist);
    if n > 0 {
      ChosenIsLeast(cfg, tree, t, ports, n - 1);
      var old' := Choose(cfg, tree, t, ports, n - 1);
      var prt := ports[n - 1];
      var path := RootPath(tree, t, prt);
      ComparisonIsTotalPreorder(path, old'.priority, tree.bridgePriority, prt.conf[t].portId, old'.portId, 0, cist);
      forall p | 0 <= p < n && Candidate(tree, t, ports[p])
        ensures BetterOrSame(best.priority, RootPath(tree, t, ports[p]), best.portId, ports[p].conf[t].portId, cist)
      {
        var other := RootPath(tree, t, ports[p]);
        ComparisonIsTotalPreorder(path, old'.priority, other, prt.conf[t].portId, old'.portId, ports[p].conf[t].portId,
            cist);
      }
    }
  }

  /** `best` is the bridge's own vector or the root path of the port it names, at least as good as every candidate,
      and better than every later one. */
  predicate Wins(cfg: BridgeConfig, tree: Tree, t: nat, ports: seq<Port>, best: Best)
    requires PortsShape(cfg, ports) && t < |cfg.mstids|
  {
    && (match best.root
        case None => best.priority == tree.bridgePriority && best.portId == 0
        case Some(p) =>
          && p < |ports| && Candidate(tree, t, ports[p])
          && best.priority == RootPath(tree, t, ports[p]) && best.portId == ports[p].conf[t].portId)
    && BetterOrSame(best.priority, tree.bridgePriority, best.portId, 0, t == 0)
    && forall p :: 0 <= p < |ports| && Candidate(tree, t, ports[p]) ==>
         if best.root.Some? && p <= best.root.value
         then BetterOrSame(best.priority, RootPath(tree, t, ports[p]), best.portId, ports[p].conf[t].portId, t == 0)
         else !BetterOrSame(RootPath(tree, t, ports[p]), best.priority, ports[p].conf[t].portId, best.portId, t == 0)
  }

  /** No later candidate is as good as the chosen one. */
  lemma {:induction false} ChosenIsLast(cfg: BridgeConfig, tree: Tree, t: nat, ports: seq<Port>, n: nat)
    requires PortsShape(cfg, ports) && t < |cfg.mstids| && n <= |ports|
    ensures var best := Choose(cfg, tree, t, ports, n);
      forall p :: (if best.root.Some? then best.root.value + 1 else 0) <= p < n && Candidate(tree, t, ports[p]) ==>
        !BetterOrSame(RootPath(tree, t, ports[p]), best.priority, ports[p].conf[t].portId, best.portId, t == 0)
  {
    hide BetterOrSame, RootPath, Candidate;
    if n > 0 { ChosenIsLast(cfg, tree, t, ports, n - 1); }
  }

  lemma {:induction false} WinnerIsChosen(cfg: BridgeConfig, tree: Tree, t: nat, ports: seq<Port>, best: Best, n: nat)
    requires PortsShape(cfg, ports) && t < |cfg.mstids| && n <= |ports| && Wins(cfg, tree, t, ports, best)
    requires best.root.Some? ==> n > best.root.value
    ensures Choose(cfg, tree, t, ports, n) == best
  {
    hide BetterOrSame, RootPath, Candidate;
    if n > 0 {
      if best.root == Some(n - 1) {
        ChosenIsAttained(cfg, tree, t, ports, n - 1);
      } else {
        WinnerIsChosen(cfg, tree, t, ports, best, n - 1);
      }
    }
  }

  /** What the loop of `updtRolesTree` finds, exactly. */
  lemma ChosenExactly(cfg: BridgeConfig, tree: Tree, t: nat, ports: seq<Port>, best: Best)
    requires PortsShape(cfg, ports) && t < |cfg.mstids|
    ensures Choose(cfg, tree, t, ports, |ports|) == best <==> Wins(cfg, tree, t, ports, best)
  {
    hide BetterOrSame, RootPath, Candidate;
    if Wins(cfg, tree, t, ports, best) {
      WinnerIsChosen(cfg, tree, t, ports, best, |ports|);
    }
    ChosenIsAttained(cfg, tree, t, ports, |ports|);
    ChosenIsLeast(cfg, tree, t, ports, |ports|);
    ChosenIsLast(cfg, tree, t, ports, |ports|);
  }

  /** Ports that agree on everything the choice of a root looks at. */
  predicate SameCandidates(cfg: BridgeConfig, t: nat, ports: seq<Port>, ports': seq<Port>)
    requires PortsShape(cfg, ports) && t < |cfg.mstids| && PortsShape(cfg, ports')
  {
    |ports| == |ports'|
    && forall p :: 0 <= p < |ports| ==>
      && ports'[p].cfg == ports[p].cfg && ports'[p].conf == ports[p].conf && ports'[p].rx == ports[p].rx
      && ports'[p].info[t].infoIs == ports[p].info[t].infoIs
      && ports'[p].info[t].portPriority == ports[p].info[t].portPriority
      && ports'[p].info[t].portTimes == ports[p].info[t].portTimes
  }

  lemma {:induction false} ChoiceDependsOnCandidates(cfg: BridgeConfig, tree: Tree, tree': Tree, t: nat,
                                                     ports: seq<Port>, ports': seq<Port>, n: nat)
    requires PortsShape(cfg, ports) && t < |cfg.mstids| && PortsShape(cfg, ports')
    requires SameCandidates(cfg, t, ports, ports') && n <= |ports|
    requires tree'.bridgeId == tree.bridgeId && tree'.bridgePriority == tree.bridgePriority
    ensures Choose(cfg, tree', t, ports', n) == Choose(cfg, tree, t, ports, n)
  {
    hide BetterOrSame;
    if n > 0 {
      ChoiceDependsOnCandidates(cfg, tree, tree', t, ports, ports', n - 1);
      assert RootPath(tree', t, ports'[n - 1]) == RootPath(tree, t, ports[n - 1]);
    }
  }

  /** Selecting a port twice with the same tree and root changes nothing the second time. */
  lemma SelectPortTwice(tree: Tree, t: nat, prt: Port, isRoot: bool, sync: bool)
    requires t < |prt.info| == |prt.sel| == |prt.conf| == |prt.rv| == |prt.hs|
    ensures SelectPort(tree, t, SelectPort(tree, t, prt, isRoot, sync), isRoot, false) ==
        SelectPort(tree, t, prt, isRoot, sync)
  {
    hide SamePriorityAndTimers, BetterOrSame;
    var r := SelectPort(tree, t, prt, isRoot, sync);
    assert DesignatedPriority(tree, t, r) == DesignatedPriority(tree, t, prt);
    assert DesignatedTimes(tree, t, r) == DesignatedTimes(tree, t, prt);
    var des, times := DesignatedPriority(tree, t, prt), DesignatedTimes(tree, t, prt);
    assert ChooseRole(tree, t, r, des, times, isRoot) == ChooseRole(tree, t, prt, des, times, isRoot);
    var rr := SelectPort(tree, t, r, isRoot, false);
    assert rr.sel == r.sel;
    assert rr.info == r.info;
  }

  /** What role selection reads of the candidates, it does not write. */
  lemma SelectionKeepsCandidates(cfg: BridgeConfig, tree: Tree, t: nat, ports: seq<Port>, root: Option<nat>, sync: bool)
    requires PortsShape(cfg, ports) && t < |cfg.mstids|
    ensures SameCandidates(cfg, t, ports, SelectPorts(cfg, tree, t, ports, root, sync))
  {
    hide DesignatedPriority, DesignatedTimes, ChooseRole, WakesMstis, SyncMaster;
  }

  /** Role selection is idempotent: a second run changes nothing in the whole bridge. */
  lemma SelectionIsIdempotent(b: Bridge, t: nat)
    requires Shape(b) && t < |b.trees|
    ensures EnterSelection(EnterSelection(b, t), t) == EnterSelection(b, t)
  {
    hide SelectPorts, NewTree, RootIndex, SyncsMaster, SelectPort;
    var r, cfg, before := EnterSelection(b, t), b.cfg, b.trees[t];
    var after := NewTree(cfg, before, t, b.ports);
    var root, sync := RootIndex(cfg, before, t, b.ports), SyncsMaster(before, after, t);
    var ports := SelectPorts(cfg, after, t, b.ports, root, sync);
    SelectionKeepsCandidates(cfg, after, t, b.ports, root, sync);
    SameChoiceAgain(cfg, before, t, b.ports, ports);
    var again := SelectPorts(cfg, after, t, ports, root, false);
    forall p | 0 <= p < |ports| ensures again[p] == ports[p] {
      SelectPortTwice(after, t, b.ports[p], root == Some(p), sync);
    }
    assert again == ports;
    assert r.trees[t := after] == r.trees;
  }

  /** On the selected ports the same root is chosen again. */
  lemma SameChoiceAgain(cfg: BridgeConfig, before: Tree, t: nat, ports: seq<Port>, ports': seq<Port>)
    requires PortsShape(cfg, ports) && PortsShape(cfg, ports') && t < |cfg.mstids|
    requires SameCandidates(cfg, t, ports, ports')
    ensures var after := NewTree(cfg, before, t, ports);
      && NewTree(cfg, after, t, ports') == after
      && RootIndex(cfg, after, t, ports') == RootIndex(cfg, before, t, ports)
      && !SyncsMaster(after, after, t)
  {
    var after := NewTree(cfg, before, t, ports);
    ChoiceDependsOnCandidates(cfg, before, after, t, ports, ports', |ports|);
    hide Choose;
  }

  // ---- When role selection has nothing to say -------------------------------------------------------

  /** Role selection does not choose a role for a disabled port, but gives it the present port identifier. */
  function Renewed(prt: Port): (r: Port)
    requires 1 <= |prt.sel| && 1 <= |prt.conf|
    ensures |r.sel| == |prt.sel| && r == prt.(sel := r.sel)
  {
    if prt.cfg.portEnabled then prt
    else
      var s := prt.sel[0];
      prt.(sel := prt.sel[0 := s.(designatedPriority := s.designatedPriority.(desPort := prt.conf[0].portId))])
  }

  /** The bridge with the present port identifiers in the designated vectors of its disabled ports. */
  function Renew(b: Bridge): (r: Bridge)
    requires Shape(b)
    ensures |r.ports| == |b.ports| && r == b.(ports := r.ports)
    ensures forall p :: 0 <= p < |b.ports| ==> r.ports[p] == Renewed(b.ports[p])
  {
    b.(ports := seq(|b.ports|, p requires 0 <= p < |b.ports| => Renewed(b.ports[p])))
  }

  /** Selecting the roles of the CIST again would change nothing that matters. */
  predicate Current(b: Bridge)
    requires Shape(b)
  {
    EnterSelection(b, 0) == Renew(b)
  }

  /** It would change nothing at all exactly if no disabled port has a new identifier. */
  lemma CurrentExactly(b: Bridge)
    requires Shape(b) && Current(b)
    ensures EnterSelection(b, 0) == b <==>
      forall p :: 0 <= p < |b.ports| && !b.ports[p].cfg.portEnabled ==>
        b.ports[p].sel[0].designatedPriority.desPort == b.ports[p].conf[0].portId
  {
    hide EnterSelection;
    forall p | 0 <= p < |b.ports|
      ensures Renewed(b.ports[p]) == b.ports[p] <==>
        b.ports[p].cfg.portEnabled || b.ports[p].sel[0].designatedPriority.desPort == b.ports[p].conf[0].portId
    {
      RenewedExactly(b.ports[p]);
    }
    hide Renewed;
    if forall p :: 0 <= p < |b.ports| && !b.ports[p].cfg.portEnabled ==>
      b.ports[p].sel[0].designatedPriority.desPort == b.ports[p].conf[0].portId {
      assert Renew(b).ports == b.ports;
    }
  }

  lemma RenewedExactly(prt: Port)
    requires 1 <= |prt.sel| && 1 <= |prt.conf|
    ensures Renewed(prt) == prt <==> prt.cfg.portEnabled || prt.sel[0].designatedPriority.desPort == prt.conf[0].portId
  {
    if !prt.cfg.portEnabled {
      assert Renewed(prt).sel[0].designatedPriority.desPort == prt.conf[0].portId;
      if prt.sel[0].designatedPriority.desPort == prt.conf[0].portId { assert Renewed(prt).sel == prt.sel; }
    }
  }

  /** Once the tree is as role selection makes it, it is a matter of each port. */
  lemma CurrentByPorts(b: Bridge)
    requires Shape(b) && NewTree(b.cfg, b.trees[0], 0, b.ports) == b.trees[0]
    ensures Current(b) <==> forall p :: 0 <= p < |b.ports| ==>
      SelectPort(b.trees[0], 0, b.ports[p], RootIndex(b.cfg, b.trees[0], 0, b.ports) == Some(p), false)
      == Renewed(b.ports[p])
  {
    hide SelectPort, NewTree, RootIndex, Renewed;
    var tree, root := b.trees[0], RootIndex(b.cfg, b.trees[0], 0, b.ports);
    assert !SyncsMaster(tree, tree, 0);
    var r := EnterSelection(b, 0);
    assert forall p :: 0 <= p < |b.ports| ==> r.ports[p] == SelectPort(tree, 0, b.ports[p], root == Some(p), false);
    assert r.trees == b.trees;
    if forall p :: 0 <= p < |b.ports| ==>
      SelectPort(tree, 0, b.ports[p], root == Some(p), false) == Renewed(b.ports[p])
    {
      assert r.ports == Renew(b).ports;
    }
  }

  /** At most one port of a tree is selected as Root, and it is the one whose root path was chosen. */
  lemma RootIsUnique(b: Bridge, t: nat, p: nat, q: nat)
    requires Shape(b) && t < |b.trees| && p < |b.ports| && q < |b.ports|
    requires EnterSelection(b, t).ports[p].sel[t].selectedRole == RoleRoot
    requires EnterSelection(b, t).ports[q].sel[t].selectedRole == RoleRoot
    ensures p == q && RootIndex(b.cfg, b.trees[t], t, b.ports) == Some(p)
  {
    hide NewTree, RootIndex, SyncsMaster, SelectPort;
    var tree := NewTree(b.cfg, b.trees[t], t, b.ports);
    var root, sync := RootIndex(b.cfg, b.trees[t], t, b.ports), SyncsMaster(b.trees[t], tree, t);
    RootRole(tree, t, b.ports[p], root == Some(p), sync);
    RootRole(tree, t, b.ports[q], root == Some(q), sync);
  }

  lemma RootRole(tree: Tree, t: nat, prt: Port, isRoot: bool, sync: bool)
    requires t < |prt.info| == |prt.sel| == |prt.conf| == |prt.rv|
    ensures SelectPort(tree, t, prt, isRoot, sync).sel[t].selectedRole == RoleRoot ==> isRoot
  {
    hide DesignatedPriority, DesignatedTimes, SamePriorityAndTimers, BetterOrSame;
  }
}
