/**
 A network of bridges at rest: every bridge has settled, role selection has nothing left to change, every port
 with received information holds what its neighbour sends, and no other message would be taken for Superior.
 Then roots agree, costs are least and the active links form a spanning tree.
 */
module NetworkAtRest {
  import opened Types
  import opened Priority
  import opened PortInvariant
  import opened BridgeRun
  import opened SpanningTree
  import PI = PortInformation
  import PT = PortTransmit
  import RS = RoleSelection
  import SB = SettledBridge

  // ---- One bridge -----------------------------------------------------------------------------------

  /** The bridge's own vector, as set when the tree is created or its identifier changes. */
  function OwnVector(id: BridgeId): Vector { Vector(id, 0, id, 0, id, 0) }

  /** Configuration the network theorems are about: no restricted roles, positive path costs, different port
      identifiers, only external information, no saturated cost. */
  predicate Plain(b: Bridge)
    requires Shape(b)
  {
    && b.trees[0].bridgePriority == OwnVector(b.trees[0].bridgeId)
    && (forall p :: 0 <= p < |b.ports| ==>
         && !b.ports[p].cfg.restrictedRole && b.ports[p].cfg.extPathCost >= 1 && !b.ports[p].rx.rcvdInternal
         && (b.ports[p].info[0].infoIs == IoReceived ==>
               b.ports[p].info[0].portPriority.extCost + b.ports[p].cfg.extPathCost <= UINT32_MAX))
    && (forall p, q :: 0 <= p < q < |b.ports| ==> b.ports[p].conf[0].portId != b.ports[q].conf[0].portId)
  }

  /** Nothing is left to do in the bridge, and selecting roles again would change nothing that matters. */
  predicate Resting(b: Bridge) {
    BridgeOk(b) && Settled(b) && Shape(b) && Plain(b) && RS.Current(b)
  }

  function Root(b: Bridge): BridgeId requires |b.trees| > 0 { b.trees[0].rootPriority.rootId }
  function Cost(b: Bridge): U32 requires |b.trees| > 0 { b.trees[0].rootPriority.extCost }
  function RootPort(b: Bridge): Option<nat> requires Shape(b) { RS.RootIndex(b.cfg, b.trees[0], 0, b.ports) }

  /** The vector a designated port of the bridge sends. */
  function Offer(b: Bridge, p: nat): Vector
    requires Shape(b) && p < |b.ports|
  {
    Vector(Root(b), Cost(b), b.trees[0].bridgeId, 0, b.trees[0].bridgeId, b.ports[p].conf[0].portId)
  }

  /** What role selection left in a resting bridge. */
  lemma RestingSelection(b: Bridge, p: nat)
    requires Resting(b) && p < |b.ports| && b.ports[p].cfg.portEnabled
    ensures b.trees[0].rootPriority == RS.Choose(b.cfg, b.trees[0], 0, b.ports, |b.ports|).priority
    ensures var tree, prt := b.trees[0], b.ports[p];
      var des, times := RS.DesignatedPriority(tree, 0, prt), RS.DesignatedTimes(tree, 0, prt);
      && prt.sel[0].designatedPriority == des && prt.sel[0].designatedTimes == times
      && prt.sel[0].selectedRole == RS.ChooseRole(tree, 0, prt, des, times, RootPort(b) == Some(p)).0
  {
    hide BridgeOk, Settled, Plain, RS.DesignatedPriority, RS.DesignatedTimes, RS.ChooseRole, RS.Choose, RS.RootTimes;
    var r, tree := RS.EnterSelection(b, 0), RS.NewTree(b.cfg, b.trees[0], 0, b.ports);
    assert r.trees[0] == tree;
    assert r.ports[p] ==
        RS.SelectPort(tree, 0, b.ports[p], RootPort(b) == Some(p), RS.SyncsMaster(b.trees[0], tree, 0));
  }

  lemma RestingTree(b: Bridge)
    requires Resting(b)
    ensures b.trees[0].rootPriority == RS.Choose(b.cfg, b.trees[0], 0, b.ports, |b.ports|).priority
  {
    hide BridgeOk, Settled, RS.Choose, Plain, RS.RootTimes;
    assert RS.EnterSelection(b, 0).trees[0] == RS.NewTree(b.cfg, b.trees[0], 0, b.ports);
  }

  /** The root of a resting bridge is its own identifier or that of the best root path. */
  lemma RestingRoot(b: Bridge)
    requires Resting(b)
    ensures b.trees[0].rootPriority.rRootId == b.trees[0].bridgeId && b.trees[0].rootPriority.intCost == 0
    ensures AtLeastAsGood(Root(b), Cost(b), b.trees[0].bridgeId, 0)
    ensures match RootPort(b)
      case None => Root(b) == b.trees[0].bridgeId && Cost(b) == 0
      case Some(p) =>
        && p < |b.ports| && RS.Candidate(b.trees[0], 0, b.ports[p])
        && Root(b) == b.ports[p].info[0].portPriority.rootId
        && Cost(b) == b.ports[p].info[0].portPriority.extCost + b.ports[p].cfg.extPathCost
  {
    hide BridgeOk, Settled, RS.Choose, BetterOrSame;
    var best := RS.Choose(b.cfg, b.trees[0], 0, b.ports, |b.ports|);
    RS.ChosenIsAttained(b.cfg, b.trees[0], 0, b.ports, |b.ports|);
    RS.ChosenIsLeast(b.cfg, b.trees[0], 0, b.ports, |b.ports|);
    RestingTree(b);
    BetterIsAtLeastAsGood(best.priority, b.trees[0].bridgePriority, best.portId, 0);
  }

  /** No candidate offers a better root path. */
  lemma RestingBest(b: Bridge, p: nat)
    requires Resting(b) && p < |b.ports| && RS.Candidate(b.trees[0], 0, b.ports[p])
    ensures AtLeastAsGood(Root(b), Cost(b), b.ports[p].info[0].portPriority.rootId,
                          b.ports[p].info[0].portPriority.extCost + b.ports[p].cfg.extPathCost)
  {
    hide BridgeOk, Settled, RS.Choose, RS.ChooseRole, RS.DesignatedPriority, RS.DesignatedTimes, BetterOrSame;
    hide AtLeastAsGood;
    hide RS.RootIndex, RS.EnterSelection;
    RestingTree(b);
    var best := RS.Choose(b.cfg, b.trees[0], 0, b.ports, |b.ports|);
    RS.ChosenIsLeast(b.cfg, b.trees[0], 0, b.ports, |b.ports|);
    BetterIsAtLeastAsGood(best.priority, RS.RootPath(b.trees[0], 0, b.ports[p]), best.portId,
        b.ports[p].conf[0].portId);
  }

  lemma BetterIsAtLeastAsGood(v: Vector, w: Vector, i: PortId, j: PortId)
    requires BetterOrSame(v, w, i, j, true)
    ensures AtLeastAsGood(v.rootId, v.extCost, w.rootId, w.extCost)
  {
  }

  /** How role and information of a selected port at rest go together. */
  lemma RestingRole(tree: Tree, prt: Port, des: Vector, times: Times, isRoot: bool)
    requires 1 <= |prt.info| && |prt.info| == |prt.sel| == |prt.rv| == |prt.conf| && SB.CistAtRest(prt)
    requires prt.cfg.portEnabled
    requires prt.sel[0].designatedPriority == des
    requires prt.sel[0].selectedRole == RS.ChooseRole(tree, 0, prt, des, times, isRoot).0
    requires isRoot ==> prt.info[0].infoIs == IoReceived
    ensures match prt.rv[0].role
      case RoleDesignated => prt.info[0].infoIs == IoMine && prt.info[0].portPriority == des
      case RoleRoot => prt.info[0].infoIs == IoReceived && isRoot
      case RoleDisabled => false
      case RoleMaster => false
      case _ => prt.info[0].infoIs == IoReceived && !isRoot && BetterOrSame(prt.info[0].portPriority, des, 0, 0, true)
    ensures isRoot ==> prt.rv[0].role == RoleRoot
  {
    hide BetterOrSame, SamePriorityAndTimers;
  }

  /** The ports of a resting bridge. */
  lemma RestingPort(b: Bridge, p: nat)
    requires Resting(b) && p < |b.ports| && b.ports[p].cfg.portEnabled
    ensures var prt := b.ports[p];
      && prt.sel[0].designatedPriority == Offer(b, p)
      && match prt.rv[0].role
         case RoleDesignated => prt.info[0].infoIs == IoMine && prt.info[0].portPriority == Offer(b, p)
         case RoleRoot => prt.info[0].infoIs == IoReceived && RootPort(b) == Some(p)
         case RoleDisabled => false
         case RoleMaster => false
         case _ =>
           && prt.info[0].infoIs == IoReceived && RootPort(b) != Some(p)
           && BetterOrSame(prt.info[0].portPriority, Offer(b, p), 0, 0, true)
    ensures RootPort(b) == Some(p) ==> b.ports[p].rv[0].role == RoleRoot
  {
    SB.SettledShape(b, p);
    RestingSelection(b, p);
    RestingRoot(b);
    var tree, prt := b.trees[0], b.ports[p];
    var des, times := RS.DesignatedPriority(tree, 0, prt), RS.DesignatedTimes(tree, 0, prt);
    assert des == Offer(b, p);
    hide BridgeOk, Settled, RS.Choose, Plain, BetterOrSame, RS.RootIndex, RS.DesignatedTimes, RS.DesignatedPriority;
    hide RS.ChooseRole, SB.CistAtRest;
    assert RootPort(b) == Some(p) ==> RS.Candidate(tree, 0, prt);
    RestingRole(tree, prt, des, times, RootPort(b) == Some(p));
  }

  // ---- What a bridge sends --------------------------------------------------------------------------

  /** The BPDU a port sends about the CIST. */
  function Transmitted(b: Bridge, p: nat): Bpdu
    requires BridgeOk(b) && p < |b.ports|
  {
    if !b.ports[p].mig.sendRSTP then PT.ConfigBpdu(b.cfg, b.ports[p])
    else if b.cfg.version < PROTO_MSTP then PT.RstBpdu(b.cfg, b.ports[p])
    else PT.MstBpdu(b.cfg, b.ports[p])
  }

  /** The vector a receiver reads from it. */
  function Message(b: Bridge, p: nat): Vector
    requires BridgeOk(b) && p < |b.ports|
  {
    PI.CistMessagePriority(Transmitted(b, p))
  }

  /** With a designated vector that is external, all three BPDU formats carry the same message vector. */
  lemma MessageCarriesVector(cfg: BridgeConfig, prt: Port)
    requires PortShape(cfg, prt) && |cfg.mstids| <= MAX_STANDARD_MSTIS
    requires var des := prt.sel[0].designatedPriority; des.rRootId == des.desBridge && des.intCost == 0
    ensures PI.CistMessagePriority(PT.ConfigBpdu(cfg, prt)) == prt.sel[0].designatedPriority
    ensures PI.CistMessagePriority(PT.RstBpdu(cfg, prt)) == prt.sel[0].designatedPriority
    ensures PI.CistMessagePriority(PT.MstBpdu(cfg, prt)) == prt.sel[0].designatedPriority
  {
    hide PT.TreeFlags, PT.MstiMessages, PT.BlankBpdu;
  }

  lemma MessageIsOffer(b: Bridge, p: nat)
    requires Resting(b) && p < |b.ports| && b.ports[p].cfg.portEnabled
    ensures Message(b, p) == Offer(b, p)
  {
    hide Settled, NodeOk, Plain, RS.EnterSelection, RS.Choose, RS.ChooseRole, RS.RootIndex, RS.Candidate;
    hide PI.CistMessagePriority;
    hide PT.ConfigBpdu, PT.RstBpdu, PT.MstBpdu;
    RestingSelection(b, p);
    RestingRoot(b);
    assert b.ports[p].sel[0].designatedPriority == Offer(b, p);
    MessageCarriesVector(b.cfg, b.ports[p]);
  }

  // ---- The network ----------------------------------------------------------------------------------

  /** Bridges, and cables between their ports. */
  datatype Network = Network(bridges: seq<Bridge>, cables: map<End, End>)

  predicate IsPort(n: Network, e: End) {
    e.bridge < |n.bridges| && e.port < |n.bridges[e.bridge].ports|
  }

  function PortAt(n: Network, e: End): Port
    requires IsPort(n, e)
  {
    n.bridges[e.bridge].ports[e.port]
  }

  /** The cable at this end leads to another port, which has the same cable. */
  predicate CableAt(n: Network, e: End)
    requires e in n.cables
  {
    var f := n.cables[e];
    IsPort(n, e) && f != e && IsPort(n, f) && f in n.cables && n.cables[f] == e
  }

  /** A cable has two different ends and joins each port to at most one other. */
  predicate Cabled(n: Network) {
    forall e {:trigger CableAt(n, e)} :: e in n.cables ==> CableAt(n, e)
  }

  /** Both ends of the cable at this port are enabled. */
  predicate Up(n: Network, e: End) {
    && e in n.cables && IsPort(n, e) && IsPort(n, n.cables[e])
    && PortAt(n, e).cfg.portEnabled && PortAt(n, n.cables[e]).cfg.portEnabled
  }

  predicate BridgesRest(n: Network) {
    && (forall v :: 0 <= v < |n.bridges| ==> Resting(n.bridges[v]))
    && (forall v, w :: 0 <= v < w < |n.bridges| ==> n.bridges[v].trees[0].bridgeId != n.bridges[w].trees[0].bridgeId)
  }

  /** The vector that arrives at this end. */
  function Heard(n: Network, e: End): Vector
    requires BridgesRest(n) && e in n.cables && IsPort(n, n.cables[e])
  {
    Message(n.bridges[n.cables[e].bridge], n.cables[e].port)
  }

  /** The CIST role of the port. */
  function RoleAt(n: Network, e: End): Role
    requires BridgesRest(n) && IsPort(n, e)
  {
    hide Settled, Plain, RS.EnterSelection;
    PortAt(n, e).rv[0].role
  }

  predicate IsDesignated(n: Network, e: End)
    requires BridgesRest(n) && IsPort(n, e)
  {
    RoleAt(n, e) == RoleDesignated
  }

  /** Received information is what the designated port at the other end sends. */
  predicate HoldsWhatItHears(n: Network, e: End)
    requires BridgesRest(n) && IsPort(n, e)
  {
    PortAt(n, e).info[0].infoIs == IoReceived ==>
      Up(n, e) && IsDesignated(n, n.cables[e]) && PortAt(n, e).info[0].portPriority == Heard(n, e)
  }

  /** A port without received information would not take its neighbour's designated message for Superior. */
  predicate NotSuperior(n: Network, e: End)
    requires BridgesRest(n) && Up(n, e)
  {
    var i := PortAt(n, e).info[0];
    i.infoIs != IoReceived && IsDesignated(n, n.cables[e]) ==>
      PI.Classify(i.(msgPriority := Heard(n, e)), true, true) != SuperiorDesignatedInfo
  }

  predicate Quiescent(n: Network) {
    && BridgesRest(n) && Cabled(n)
    && (forall v, p :: 0 <= v < |n.bridges| && 0 <= p < |n.bridges[v].ports| ==> HoldsWhatItHears(n, End(v, p)))
    && (forall e :: e in n.cables && Up(n, e) ==> NotSuperior(n, e))
  }

  predicate CarriesTraffic(r: Role) { r == RoleRoot || r == RoleDesignated }

  /** No end of the link is an Alternate, Backup or Disabled port. */
  predicate Active(n: Network, e: End)
    requires BridgesRest(n)
  {
    Up(n, e) && CarriesTraffic(RoleAt(n, e)) && CarriesTraffic(RoleAt(n, n.cables[e]))
  }

  /** What is left of the network when everything but roots, costs and roles is forgotten. */
  function Forget(n: Network): Labelling
    requires BridgesRest(n)
  {
    Labelling(seq(|n.bridges|, v requires 0 <= v < |n.bridges| => n.bridges[v].trees[0].bridgeId),
              seq(|n.bridges|, v requires 0 <= v < |n.bridges| => Root(n.bridges[v])),
              seq(|n.bridges|, v requires 0 <= v < |n.bridges| => Cost(n.bridges[v])),
              seq(|n.bridges|, v requires 0 <= v < |n.bridges| => RootPort(n.bridges[v])),
              map e | e in n.cables && Up(n, e) :: n.cables[e],
              map e | e in n.cables && Up(n, e) :: PortAt(n, e).cfg.extPathCost,
              set e | e in n.cables && Active(n, e))
  }

  // ---- From the network to its labelling ------------------------------------------------------------

  lemma BridgesAreResting(n: Network, v: nat)
    requires Quiescent(n) && v < |n.bridges|
    ensures BridgesRest(n) && Resting(n.bridges[v]) && Shape(n.bridges[v])
  {
    hide Resting, Shape;
    RestingIsPlain(n.bridges[v]);
  }

  /** The Received end of a link holds the offer of its neighbour, which is designated. */
  lemma ReceivedEnd(n: Network, e: End)
    requires Quiescent(n) && IsPort(n, e) && Shape(n.bridges[e.bridge]) && PortAt(n, e).info[0].infoIs == IoReceived
    ensures Up(n, e) && IsDesignated(n, n.cables[e]) && Shape(n.bridges[n.cables[e].bridge])
    ensures PortAt(n, e).info[0].portPriority == Offer(n.bridges[n.cables[e].bridge], n.cables[e].port)
  {
    assert HoldsWhatItHears(n, End(e.bridge, e.port));
    MessageIsOffer(n.bridges[n.cables[e].bridge], n.cables[e].port);
    hide Resting, Message;
  }

  /** The other end of a link that holds no received information. */
  lemma OwnEnd(n: Network, e: End)
    requires Quiescent(n) && Up(n, e) && PortAt(n, e).info[0].infoIs != IoReceived && IsDesignated(n, n.cables[e])
    ensures IsPort(n, n.cables[e])
    ensures BetterOrSame(PortAt(n, e).info[0].portPriority, Offer(n.bridges[n.cables[e].bridge], n.cables[e].port), 0,
        0, true)
  {
    assert NotSuperior(n, e);
    MessageIsOffer(n.bridges[n.cables[e].bridge], n.cables[e].port);
    hide Resting, Message, BetterOrSame;
  }

  /** A designated port holds its own offer, any other what it has received. */
  predicate FitsRole(n: Network, e: End)
    requires BridgesRest(n) && IsPort(n, e)
  {
    var prt, b := PortAt(n, e), n.bridges[e.bridge];
    if IsDesignated(n, e) then prt.info[0].infoIs == IoMine && prt.info[0].portPriority == Offer(b, e.port)
    else prt.info[0].infoIs == IoReceived
  }

  /** A port of the network whose link is up. */
  lemma LinkedPort(n: Network, e: End)
    requires Quiescent(n) && Up(n, e)
    ensures IsPort(n, e) && n.cables[e] in n.cables && IsPort(n, n.cables[e]) && Up(n, n.cables[e])
    ensures n.cables[n.cables[e]] == e && n.cables[e] != e
    ensures FitsRole(n, e)
  {
    assert Resting(n.bridges[e.bridge]) && CableAt(n, e);
    RestingPort(n.bridges[e.bridge], e.port);
    hide Resting;
  }

  lemma NotBothDesignated(n: Network, e: End)
    requires Quiescent(n) && Up(n, e)
    ensures IsPort(n, e) && IsPort(n, n.cables[e])
    ensures !(IsDesignated(n, e) && IsDesignated(n, n.cables[e]))
  {
    assert BridgesRest(n);
    hide Quiescent, BridgesRest, Up, IsDesignated, Resting, BetterOrSame;
    LinkedPort(n, e);
    var f := n.cables[e];
    LinkedPort(n, f);
    if IsDesignated(n, e) && IsDesignated(n, f) {
      OwnEnd(n, e);
      OwnEnd(n, f);
      SamePort(n, e, f);
    }
  }

  /** Two ports that offer equally good vectors are one port. */
  lemma SamePort(n: Network, e: End, f: End)
    requires BridgesRest(n) && IsPort(n, e) && IsPort(n, f)
    requires BetterOrSame(Offer(n.bridges[e.bridge], e.port), Offer(n.bridges[f.bridge], f.port), 0, 0, true)
    requires BetterOrSame(Offer(n.bridges[f.bridge], f.port), Offer(n.bridges[e.bridge], e.port), 0, 0, true)
    ensures e == f
  {
    SameOffer(n.bridges[e.bridge], e.port, n.bridges[f.bridge], f.port);
    hide Resting, BetterOrSame, Offer;
    assert e.bridge == f.bridge;
    assert Plain(n.bridges[e.bridge]) by { RestingIsPlain(n.bridges[e.bridge]); }
    DistinctPorts(n.bridges[e.bridge], e.port, f.port);
  }

  lemma RestingIsPlain(b: Bridge)
    requires Resting(b)
    ensures Shape(b) && Plain(b)
  {
  }

  lemma SameOffer(b: Bridge, p: nat, c: Bridge, q: nat)
    requires Shape(b) && Shape(c) && p < |b.ports| && q < |c.ports|
    requires BetterOrSame(Offer(b, p), Offer(c, q), 0, 0, true) && BetterOrSame(Offer(c, q), Offer(b, p), 0, 0, true)
    ensures b.trees[0].bridgeId == c.trees[0].bridgeId && b.ports[p].conf[0].portId == c.ports[q].conf[0].portId
  {
  }

  lemma DistinctPorts(b: Bridge, p: nat, q: nat)
    requires Shape(b) && Plain(b) && p < |b.ports| && q < |b.ports|
    requires b.ports[p].conf[0].portId == b.ports[q].conf[0].portId
    ensures p == q
  {
  }

  /** A link that is up has exactly one designated end; the other end holds what it offers. */
  lemma OneDesignatedEnd(n: Network, e: End)
    requires Quiescent(n) && Up(n, e)
    ensures IsPort(n, e) && IsPort(n, n.cables[e])
    ensures IsDesignated(n, e) <==> !IsDesignated(n, n.cables[e])
    ensures !IsDesignated(n, e) ==> PortAt(n, e).info[0].infoIs == IoReceived
  {
    assert BridgesRest(n);
    hide Quiescent, BridgesRest, Up, IsDesignated;
    LinkedPort(n, e);
    NotBothDesignated(n, e);
    if !IsDesignated(n, e) { ReceivedEnd(n, e); }
  }

  /** What a resting bridge has is no worse than the information it received on a port that is not designated. */
  lemma ReceivedIsNoWorse(c: Bridge, q: nat)
    requires Resting(c) && q < |c.ports| && c.ports[q].cfg.portEnabled && c.ports[q].rv[0].role != RoleDesignated
    ensures var v := c.ports[q].info[0].portPriority; AtLeastAsGood(v.rootId, v.extCost, Root(c), Cost(c))
  {
    RestingPort(c, q);
    RestingRoot(c);
    if RootPort(c) != Some(q) {
      BetterIsAtLeastAsGood(c.ports[q].info[0].portPriority, Offer(c, q), 0, 0);
    }
  }

  /** A designated end has nothing worse than its neighbour. */
  lemma OfferIsNoWorse(n: Network, e: End)
    requires Quiescent(n) && Up(n, e) && IsDesignated(n, e)
    ensures var b, c := n.bridges[e.bridge], n.bridges[n.cables[e].bridge];
      |b.trees| > 0 && |c.trees| > 0 && AtLeastAsGood(Root(b), Cost(b), Root(c), Cost(c))
  {
    var f := n.cables[e];
    LinkedPort(n, e);
    OneDesignatedEnd(n, e);
    OneDesignatedEnd(n, f);
    ReceivedEnd(n, f);
    var c := n.bridges[f.bridge];
    assert Resting(n.bridges[e.bridge]) && Resting(c);
    hide Quiescent, BridgesRest;
    ReceivedIsNoWorse(c, f.port);
    hide Resting;
  }

  /** A bridge that hears another bridge's offer has nothing worse. */
  lemma HeardOfferIsUsed(n: Network, e: End)
    requires Quiescent(n) && Up(n, e) && !IsDesignated(n, e) && n.cables[e].bridge != e.bridge
    ensures var b, c := n.bridges[e.bridge], n.bridges[n.cables[e].bridge];
      |b.trees| > 0 && |c.trees| > 0 && AtLeastAsGood(Root(b), Cost(b), Root(c), Cost(c) + PortAt(n, e).cfg.extPathCost)
  {
    var f := n.cables[e];
    var b, c := n.bridges[e.bridge], n.bridges[f.bridge];
    OneDesignatedEnd(n, e);
    ReceivedEnd(n, e);
    assert Resting(b) && Resting(c) && b.trees[0].bridgeId != c.trees[0].bridgeId;
    hide Quiescent, BridgesRest;
    assert RS.Candidate(b.trees[0], 0, b.ports[e.port]) by { hide Settled, BridgeOk; }
    RestingBest(b, e.port);
    hide Resting;
  }

  /** No neighbour offers anything better than what a bridge has. */
  lemma LinkIsStable(n: Network, e: End)
    requires Quiescent(n) && Up(n, e)
    ensures var b, c := n.bridges[e.bridge], n.bridges[n.cables[e].bridge];
      |b.trees| > 0 && |c.trees| > 0 && AtLeastAsGood(Root(b), Cost(b), Root(c), Cost(c) + PortAt(n, e).cfg.extPathCost)
  {
    var f := n.cables[e];
    assert BridgesRest(n) && CableAt(n, e);
    assert Resting(n.bridges[e.bridge]) && Resting(n.bridges[f.bridge]);
    hide Quiescent, BridgesRest, Resting;
    if IsDesignated(n, e) {
      OfferIsNoWorse(n, e);
    } else if e.bridge != f.bridge {
      HeardOfferIsUsed(n, e);
    }
  }

  lemma RootPortRole(n: Network, e: End)
    requires BridgesRest(n) && IsPort(n, e) && Shape(n.bridges[e.bridge])
    requires RootPort(n.bridges[e.bridge]) == Some(e.port)
    requires PortAt(n, e).cfg.portEnabled
    ensures RoleAt(n, e) == RoleRoot
  {
    RestingPort(n.bridges[e.bridge], e.port);
  }

  /** The root port of a bridge is on an active link, and what it has comes from there. */
  lemma RootPortIsActive(n: Network, v: nat)
    requires Quiescent(n) && v < |n.bridges| && Shape(n.bridges[v]) && RootPort(n.bridges[v]).Some?
    ensures var b := n.bridges[v]; var e := End(v, RootPort(b).value);
      && IsPort(n, e) && Active(n, e)
      && var c := n.bridges[n.cables[e].bridge];
      |c.trees| > 0 && Root(b) == Root(c) && Cost(b) == Cost(c) + PortAt(n, e).cfg.extPathCost
  {
    hide Quiescent, BridgesRest, Resting, RootPort, RoleAt;
    var b := n.bridges[v];
    var e := End(v, RootPort(b).value);
    BridgesAreResting(n, v);
    RestingRoot(b);
    ReceivedEnd(n, e);
    RootPortRole(n, e);
    assert Active(n, e);
    assert Root(b) == PortAt(n, e).info[0].portPriority.rootId;
    assert Cost(b) == PortAt(n, e).info[0].portPriority.extCost + PortAt(n, e).cfg.extPathCost;
    BridgesAreResting(n, n.cables[e].bridge);
  }

  /** An active link is the root port of one of its ends. */
  lemma ActiveLinkHasRootPort(n: Network, e: End)
    requires Quiescent(n) && Active(n, e)
    ensures IsPort(n, n.cables[e]) && Active(n, n.cables[e])
    ensures Shape(n.bridges[e.bridge]) && Shape(n.bridges[n.cables[e].bridge])
    ensures RootPort(n.bridges[e.bridge]) == Some(e.port) ||
      RootPort(n.bridges[n.cables[e].bridge]) == Some(n.cables[e].port)
  {
    var f := n.cables[e];
    LinkedPort(n, e);
    OneDesignatedEnd(n, e);
    RestingPort(n.bridges[e.bridge], e.port);
    RestingPort(n.bridges[f.bridge], f.port);
  }

  lemma RestingCosts(b: Bridge, p: nat)
    requires Resting(b) && p < |b.ports|
    ensures b.ports[p].cfg.extPathCost >= 1
  {
  }

  /** The labelling, bridge by bridge and end by end. */
  lemma ForgottenFields(n: Network)
    requires BridgesRest(n)
    ensures var l := Forget(n);
      && |l.ids| == |l.root| == |l.cost| == |l.rootPort| == |n.bridges|
      && (forall v :: 0 <= v < |n.bridges| ==>
           Shape(n.bridges[v]) && l.ids[v] == n.bridges[v].trees[0].bridgeId && l.root[v] == Root(n.bridges[v])
           && l.cost[v] == Cost(n.bridges[v]) && l.rootPort[v] == RootPort(n.bridges[v]))
      && (forall e :: e in l.peer <==> Up(n, e)) && l.weight.Keys == l.peer.Keys
      && (forall e :: e in l.peer ==> l.peer[e] == n.cables[e] && l.weight[e] == PortAt(n, e).cfg.extPathCost)
      && (forall e :: e in l.active <==> Active(n, e))
  {
    hide Resting, RoleAt, Root, Cost, RootPort;
    forall v | 0 <= v < |n.bridges| ensures Shape(n.bridges[v]) {
      RestingIsPlain(n.bridges[v]);
    }
  }

  lemma ForgottenLinks(n: Network)
    requires Quiescent(n)
    ensures BridgesRest(n) && Sized(Forget(n)) && Linked(Forget(n))
  {
    hide Forget, Quiescent, BridgesRest, Resting, Active, Up, Root, Cost, RootPort, PortAt;
    assert BridgesRest(n) by { QuiescentRests(n); }
    ForgottenFields(n);
    var l := Forget(n);
    forall e | e in l.peer
      ensures e.bridge < |l.ids| && l.peer[e] != e && l.peer[e] in l.peer && l.peer[l.peer[e]] == e && l.weight[e] >= 1
    {
      ForgottenLink(n, e);
    }
  }

  lemma QuiescentRests(n: Network)
    requires Quiescent(n)
    ensures BridgesRest(n)
  {
  }

  lemma ForgottenLink(n: Network, e: End)
    requires Quiescent(n) && Up(n, e)
    ensures e.bridge < |n.bridges|
    ensures n.cables[e] in n.cables && Up(n, n.cables[e]) && n.cables[n.cables[e]] == e && n.cables[e] != e
    ensures PortAt(n, e).cfg.extPathCost >= 1
  {
    hide Quiescent, Resting, BridgesRest;
    LinkedPort(n, e);
    BridgesAreResting(n, e.bridge);
    RestingCosts(n.bridges[e.bridge], e.port);
  }

  lemma ForgottenStability(n: Network)
    requires Quiescent(n)
    ensures BridgesRest(n) && Sized(Forget(n)) && Linked(Forget(n)) && Stable(Forget(n))
  {
    hide Forget, Quiescent, BridgesRest, Resting, Active, Up, RootPort, PortAt, AtLeastAsGood, Linked;
    ForgottenLinks(n);
    ForgottenFields(n);
    var l := Forget(n);
    forall v | 0 <= v < |l.ids| ensures AtLeastAsGood(l.root[v], l.cost[v], l.ids[v], 0) {
      BridgesAreResting(n, v);
      RestingRoot(n.bridges[v]);
    }
    forall e | e in l.peer
      ensures l.peer[e].bridge < |l.ids|
      ensures AtLeastAsGood(l.root[e.bridge], l.cost[e.bridge], l.root[l.peer[e].bridge],
          l.cost[l.peer[e].bridge] + l.weight[e])
    {
      ForgottenLink(n, e);
      LinkIsStable(n, e);
    }
  }

  lemma ForgottenRoots(n: Network)
    requires Quiescent(n)
    ensures BridgesRest(n) && Sized(Forget(n)) && Linked(Forget(n)) && ActiveLinks(Forget(n))
    ensures forall v :: 0 <= v < |n.bridges| ==> Rooted(Forget(n), v) && Forget(n).cost[v] >= 0
  {
    hide Forget, Quiescent, BridgesRest, Resting, Active, Up, RootPort, PortAt, AtLeastAsGood, Linked;
    ForgottenLinks(n);
    ForgottenFields(n);
    var l := Forget(n);
    forall v | 0 <= v < |l.ids| ensures Rooted(l, v) && l.cost[v] >= 0 {
      BridgesAreResting(n, v);
      RestingRoot(n.bridges[v]);
      if RootPort(n.bridges[v]).Some? {
        RootPortIsActive(n, v);
        ActiveIsUp(n, End(v, RootPort(n.bridges[v]).value));
      }
    }
    forall e | e in l.active
      ensures e in l.peer && l.peer[e] in l.active && l.peer[e].bridge < |l.ids|
      ensures (IsRootPort(l, e) || IsRootPort(l, l.peer[e]))
    {
      ActiveIsUp(n, e);
      ActiveLinkHasRootPort(n, e);
      ForgottenLink(n, e);
    }
  }

  lemma ActiveIsUp(n: Network, e: End)
    requires BridgesRest(n) && Active(n, e)
    ensures Up(n, e) && n.cables[e].bridge < |n.bridges|
  {
    hide BridgesRest;
  }

  /** A quiescent network leaves a labelling at rest behind. */
  lemma QuiescentLabelling(n: Network)
    requires Quiescent(n)
    ensures BridgesRest(n) && AtRest(Forget(n))
  {
    hide Forget, Quiescent, Resting, Active, Up, RootPort, Root, Cost, PortAt, Linked, Stable, ActiveLinks, Rooted;
    ForgottenStability(n);
    ForgottenRoots(n);
    ForgottenFields(n);
  }

  // ---- The theorems ---------------------------------------------------------------------------------

  /** `w` can be reached from `v` over links that are up. */
  predicate Connected(n: Network, v: nat, path: seq<End>, w: nat)
    requires BridgesRest(n)
  {
    v < |n.bridges| && Walk(Forget(n), Forget(n).peer.Keys, v, path, w)
  }

  function IdAt(n: Network, v: nat): BridgeId
    requires BridgesRest(n) && v < |n.bridges|
  {
    n.bridges[v].trees[0].bridgeId
  }

  function RootAt(n: Network, v: nat): BridgeId
    requires BridgesRest(n) && v < |n.bridges|
  {
    Root(n.bridges[v])
  }

  function CostAt(n: Network, v: nat): U32
    requires BridgesRest(n) && v < |n.bridges|
  {
    Cost(n.bridges[v])
  }

  /** Connected bridges name the same root, the smallest bridge identifier among them. */
  lemma NetworkRoot(n: Network, v: nat, path: seq<End>, w: nat)
    requires Quiescent(n) && Connected(n, v, path, w)
    ensures BridgesRest(n) && w < |n.bridges| && RootAt(n, v) == RootAt(n, w) <= IdAt(n, w)
    ensures exists r: nat, back :: Connected(n, v, back, r) && r < |n.bridges| && IdAt(n, r) == RootAt(n, v)
  {
    hide Quiescent, BridgesRest, Forget, Walk, AtRest, Root, RootOf, RootPathOf;
    QuiescentLabelling(n);
    ForgottenFields(n);
    var l := Forget(n);
    RootAgreement(l, v, path, w);
    var r := RootOf(l, v);
    assert Connected(n, v, RootPathOf(l, v), r) && r < |n.bridges| && IdAt(n, r) == RootAt(n, v);
  }

  /** The root path cost of a bridge is the least cost of all paths to the root, and one path has it. */
  lemma NetworkCost(n: Network, v: nat, path: seq<End>, r: nat)
    requires Quiescent(n) && Connected(n, v, path, r) && r < |n.bridges| && IdAt(n, r) == RootAt(n, v)
    ensures forall e :: e in path ==> e in Forget(n).weight
    ensures CostAt(n, v) <= PathCost(Forget(n), path)
    ensures exists best :: Connected(n, v, best, r) && (forall e :: e in best ==> e in Forget(n).weight)
                           && PathCost(Forget(n), best) == CostAt(n, v)
  {
    hide Quiescent, BridgesRest, Forget, Walk, Root, RootOf, RootPathOf, PathCost, AtRest;
    QuiescentLabelling(n);
    ForgottenFields(n);
    var l := Forget(n);
    SameBridge(l, RootOf(l, v), r);
    RootAgreement(l, v, path, r);
    LeastCost(l, v, path);
    assert Connected(n, v, RootPathOf(l, v), r);
  }

  lemma SameBridge(l: Labelling, v: nat, w: nat)
    requires AtRest(l) && v < |l.ids| && w < |l.ids| && l.ids[v] == l.ids[w]
    ensures v == w
  {
  }

  /** The links without an Alternate, Backup or Disabled end are a spanning tree of every connected component.
      First half: they connect whatever is connected at all. */
  lemma ActiveLinksConnect(n: Network, v: nat, path: seq<End>, w: nat)
    requires Quiescent(n) && Connected(n, v, path, w)
    ensures exists tree :: Walk(Forget(n), Forget(n).active, v, tree, w)
  {
    hide Quiescent, BridgesRest, Forget, Walk, RootOf, RootPathOf, Back, AtRest;
    QuiescentLabelling(n);
    ForgottenFields(n);
    ActiveLinksSpan(Forget(n), v, path, w);
  }

  /** Second half: no closed walk of active links uses each of them once. */
  lemma ActiveLinksDoNotLoop(n: Network, c: seq<End>)
    requires Quiescent(n)
    ensures BridgesRest(n) && !Cycle(Forget(n), Forget(n).active, c)
  {
    hide Quiescent, BridgesRest, Forget, AtRest, Cycle;
    QuiescentLabelling(n);
    ActiveLinksAreAcyclic(Forget(n), c);
  }

  /** Do both ends of the link forward frames? */
  predicate Forwards(n: Network, e: End)
    requires BridgesRest(n)
  {
    Up(n, e) && PortForwards(n, e) && PortForwards(n, n.cables[e])
  }

  predicate PortForwards(n: Network, e: End)
    requires BridgesRest(n) && IsPort(n, e)
  {
    hide Settled, Plain, RS.EnterSelection;
    PortAt(n, e).fw[0].forwarding
  }

  lemma ForwardingPortCarries(n: Network, e: End)
    requires BridgesRest(n) && IsPort(n, e) && PortAt(n, e).cfg.portEnabled && PortForwards(n, e)
    ensures CarriesTraffic(RoleAt(n, e))
  {
    RestingPort(n.bridges[e.bridge], e.port);
    SB.SettledPortStates(n.bridges[e.bridge], e.port, 0);
  }

  /** Frames cannot loop: no closed walk over links that forward at both ends uses each of them once. */
  lemma NoForwardingLoop(n: Network, c: seq<End>)
    requires Quiescent(n)
    ensures BridgesRest(n) && !Cycle(Forget(n), (set e | e in n.cables && Forwards(n, e)), c)
  {
    hide Quiescent, BridgesRest, Forget, PortForwards, AtRest, RoleAt, Cycle;
    QuiescentLabelling(n);
    ForgottenFields(n);
    var l, links := Forget(n), (set e | e in n.cables && Forwards(n, e));
    forall e | e in links ensures e in l.active {
      ForwardingPortCarries(n, e);
      ForwardingPortCarries(n, n.cables[e]);
    }
    if Cycle(l, links, c) {
      CycleInMoreLinks(l, links, l.active, c);
      ActiveLinksAreAcyclic(l, c);
    }
  }
}
