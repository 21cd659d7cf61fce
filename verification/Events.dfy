/**
 Ticks, BPDUs and configuration changes, and what holds in every state they lead to
 (mstp.c:91-98, 386-695, 750-985, 1049-1291, 2860-2893 and 4904-5035).
 */
module Events {
  import opened Types
  import opened PortInvariant
  import opened BridgeRun
  import PT = PortTransmit

  // ---- BEGIN ----------------------------------------------------------------------------------------

  /** What BEGIN relies on. */
  predicate Blank(cfg: BridgeConfig, prt: Port) {
    && PortShape(cfg, prt) && |cfg.mstids| <= MAX_STANDARD_MSTIS && cfg.helloTime == HELLO_TIME && cfg.migrateTime > 0
    && prt.rx.numMstis <= MAX_STANDARD_MSTIS && prt.ba.rcvdInfoWhile <= 3 * HELLO_TIME
    && prt.info[0].portTimes.helloTime == HELLO_TIME
  }

  /** `BDSM_begin`. */
  function BeginEdge(cfg: PortConfig): EdgeVars {
    if cfg.adminEdge then EdgeVars(Edge, true) else EdgeVars(NotEdge, false)
  }

  /** The BEGIN actions of one port, machine by machine. */
  function BeginPort(cfg: BridgeConfig, prt: Port): (r: Port)
    requires PortShape(cfg, prt)
    ensures |r.info| == |r.sel| == |r.hs| == |r.rv| == |r.fw| == |r.tc| == |prt.info|
  {
    var des := prt.sel[0].designatedTimes;
    prt.(rx := prt.rx.(state := RxDiscard, rcvdBpdu := false, rcvdRSTP := false, rcvdSTP := false,
                       edgeDelayWhile := cfg.migrateTime),
         mig := Migration(CheckingRstp, cfg.migrateTime, false, RstpVersion(cfg)),
         edge := BeginEdge(prt.cfg),
         tx := prt.tx.(state := TransmitInit, newInfo := true, newInfoMsti := true, txCount := 0, tcAck := false),
         info := seq(|prt.info|, t requires 0 <= t < |prt.info| =>
                     prt.info[t].(state := InfoDisabled, rcvdMsg := false, rcvdInfoWhile := 0, infoIs := IoDisabled)),
         sel := seq(|prt.sel|, t requires 0 <= t < |prt.sel| =>
                    prt.sel[t].(reselect := true, selected := false, selectedRole := RoleDisabled)),
         hs := seq(|prt.hs|, t requires 0 <= t < |prt.hs| =>
                   prt.hs[t].(proposing := false, proposed := false, agree := false, agreed := false,
                              synced := false, sync := true, reRoot := true)),
         rv := seq(|prt.rv|, t requires 0 <= t < |prt.rv| =>
                   RoleVars(InitPort, RoleDisabled, false, false, des.maxAge, des.forwardDelay, 0)),
         fw := seq(|prt.fw|, t requires 0 <= t < |prt.fw| =>
                   ForwardingVars(Discarding, false, false, if prt.cfg.deleted then prt.fw[t].brState else BrBlocking)),
         tc := seq(|prt.tc|, t requires 0 <= t < |prt.tc| =>
                   prt.tc[t].(state := TcInactive, fdbFlush := false, tcWhile := 0)))
  }

  /** From BEGIN on the invariant holds. */
  lemma BeginIsOk(cfg: BridgeConfig, prt: Port)
    requires Blank(cfg, prt)
    ensures PortOk(cfg, BeginPort(cfg, prt))
  {
  }

  /** `br_state_machines_begin`, up to the first pass. */
  function Begin(b: Bridge): (r: Bridge)
    requires Shape(b) && forall p :: 0 <= p < |b.ports| ==> Blank(b.cfg, b.ports[p])
    ensures BridgeOk(r) && r.cfg == b.cfg && |r.ports| == |b.ports| && |r.trees| == |b.trees|
  {
    hide BeginPort, PortOk;
    var r := b.(trees := seq(|b.trees|, t requires 0 <= t < |b.trees| => b.trees[t].(state := InitTree)),
                ports := seq(|b.ports|, p requires 0 <= p < |b.ports| => BeginPort(b.cfg, b.ports[p])));
    BeginsAreOk(b);
    r
  }

  lemma BeginsAreOk(b: Bridge)
    requires Shape(b) && forall p :: 0 <= p < |b.ports| ==> Blank(b.cfg, b.ports[p])
    ensures forall p :: 0 <= p < |b.ports| ==> PortOk(b.cfg, BeginPort(b.cfg, b.ports[p]))
  {
    hide BeginPort, PortOk;
    forall p | 0 <= p < |b.ports| ensures PortOk(b.cfg, BeginPort(b.cfg, b.ports[p])) {
      BeginIsOk(b.cfg, b.ports[p]);
    }
  }

  lemma OkIsBlank(cfg: BridgeConfig, prt: Port)
    requires PortOk(cfg, prt)
    ensures Blank(cfg, prt)
  {
    HelloTimeIsFixed(cfg, prt);
  }

  // ---- Ticks ----------------------------------------------------------------------------------------

  function Dec(n: nat): nat { if n == 0 then 0 else n - 1 }

  /** `PTSM_tick`. */
  function TickPort(prt: Port): (r: Port)
    ensures |r.info| == |prt.info| && |r.rv| == |prt.rv| && |r.tc| == |prt.tc|
  {
    prt.(tx := prt.tx.(helloWhen := Dec(prt.tx.helloWhen), txCount := Dec(prt.tx.txCount)),
         mig := prt.mig.(mdelayWhile := Dec(prt.mig.mdelayWhile)),
         rx := prt.rx.(edgeDelayWhile := Dec(prt.rx.edgeDelayWhile)),
         ba := prt.ba.(rcvdInfoWhile := Dec(prt.ba.rcvdInfoWhile)),
         info := seq(|prt.info|, t requires 0 <= t < |prt.info| =>
                     prt.info[t].(rcvdInfoWhile := Dec(prt.info[t].rcvdInfoWhile))),
         rv := seq(|prt.rv|, t requires 0 <= t < |prt.rv| =>
                   prt.rv[t].(fdWhile := Dec(prt.rv[t].fdWhile), rrWhile := Dec(prt.rv[t].rrWhile),
                              rbWhile := Dec(prt.rv[t].rbWhile))),
         tc := seq(|prt.tc|, t requires 0 <= t < |prt.tc| => prt.tc[t].(tcWhile := Dec(prt.tc[t].tcWhile))))
  }

  lemma TickIsOk(cfg: BridgeConfig, prt: Port)
    requires PortOk(cfg, prt)
    ensures PortOk(cfg, TickPort(prt))
  {
    forall t | 0 <= t < |prt.info| ensures NodeOk(TickPort(prt), t) {
      assert NodeOk(prt, t);
    }
  }

  /** `MSTP_IN_one_second`, up to the first pass. */
  function Tick(b: Bridge): (r: Bridge)
    requires BridgeOk(b)
    ensures BridgeOk(r) && r == b.(ports := r.ports) && |r.ports| == |b.ports|
    ensures forall p :: 0 <= p < |b.ports| ==> r.ports[p] == TickPort(b.ports[p])
  {
    hide TickPort, PortOk;
    var r := b.(ports := seq(|b.ports|, p requires 0 <= p < |b.ports| => TickPort(b.ports[p])));
    TicksAreOk(b);
    r
  }

  lemma TicksAreOk(b: Bridge)
    requires BridgeOk(b)
    ensures forall p :: 0 <= p < |b.ports| ==> PortOk(b.cfg, TickPort(b.ports[p]))
  {
    hide TickPort, PortOk;
    forall p | 0 <= p < |b.ports| ensures PortOk(b.cfg, TickPort(b.ports[p])) {
      TickIsOk(b.cfg, b.ports[p]);
    }
  }

  // ---- BPDUs ----------------------------------------------------------------------------------------

  /** The number of MSTI messages announced by the version 3 length, if it is one the standard allows. */
  function AnnouncedMstis(m: Bpdu, size: nat): (r: Option<nat>)
    ensures r.Some? ==> r.value <= MAX_STANDARD_MSTIS
  {
    var mstis := m.version3Len - PT.MST_BPDU_VER3LEN_WO_MSTI_MSGS;
    if PT.MST_BPDU_SIZE_WO_MSTI_MSGS > size || m.version1Len != 0 || mstis < 0
       || MAX_STANDARD_MSTIS * PT.MSTI_MSG_SIZE < mstis || mstis % PT.MSTI_MSG_SIZE != 0
    then None
    else Some(mstis / PT.MSTI_MSG_SIZE)
  }

  /** Validation, clause 14.4: the BPDU with the version it is treated as, and the number of its MSTI messages. */
  function Validate(m: Bpdu, size: nat, numMstis: nat): (r: Option<(Bpdu, nat)>)
    ensures r.Some? ==>
      r.value.0 == m.(version := r.value.0.version) && (r.value.1 == numMstis || r.value.1 <= MAX_STANDARD_MSTIS)
  {
    if PT.TCN_BPDU_SIZE > size || m.protocolId != 0 then None
    else if m.bpduType == BPDU_TYPE_TCN then Some((m.(version := PROTO_STP), numMstis))
    else if m.bpduType == BPDU_TYPE_CONFIG then
      if PT.CONFIG_BPDU_SIZE > size then None else Some((m.(version := PROTO_STP), numMstis))
    else if m.bpduType == BPDU_TYPE_RST then
      if m.version == PROTO_RSTP then
        if PT.RST_BPDU_SIZE > size then None else Some((m, numMstis))
      else if m.version < PROTO_MSTP || PT.CONFIG_BPDU_SIZE > size then None
      else match AnnouncedMstis(m, size)
        case None => Some((m.(version := PROTO_RSTP), numMstis))
        case Some(n) => Some((m.(version := PROTO_MSTP), n))
    else None
  }

  /** `MSTP_IN_rx_bpdu` on an enabled bridge, up to the first pass; `None` when the BPDU is not taken. */
  function ReceiveBpdu(prt: Port, m: Bpdu, size: nat): (r: Option<Port>)
    requires 1 <= |prt.info| && WellSized(m)
  {
    if prt.cfg.bpduGuard || prt.cfg.bpduFilter || prt.rx.rcvdBpdu then None
    else match Validate(m, size, prt.rx.numMstis)
      case None => None
      case Some((valid, n)) =>
        Some(prt.(rx := prt.rx.(bpdu := valid, numMstis := n, rcvdBpdu := true),
                  ba := Assurance(false, 3 * prt.info[0].portTimes.helloTime)))
  }

  lemma ReceiveIsOk(cfg: BridgeConfig, prt: Port, m: Bpdu, size: nat)
    requires PortOk(cfg, prt) && WellSized(m) && ReceiveBpdu(prt, m, size).Some?
    ensures PortOk(cfg, ReceiveBpdu(prt, m, size).value)
  {
    HelloTimeIsFixed(cfg, prt);
    hide NodeOk, AnnouncedMstis;
    UnrelatedChange(cfg, prt, ReceiveBpdu(prt, m, size).value);
  }

  // ---- Links ----------------------------------------------------------------------------------------

  /** `compute_pcost`: every path cost derived from a link speed is between 1 and 200000000. */
  function ComputePathCost(speed: int): (r: U32)
    ensures 1 <= r <= MAX_PATH_COST
  {
    if speed <= 0 then MAX_PATH_COST else if speed < 20_000_000 then 20_000_000 / speed else 1
  }

  /** `MSTP_IN_set_port_enable` with up true; the costs are those configured or computed from the speed. */
  function PortUp(prt: Port, extCost: U32, intCosts: seq<U32>, pointToPoint: bool): (r: Port)
    requires 1 <= |prt.info| && |intCosts| == |prt.conf|
    ensures |r.conf| == |prt.conf|
  {
    var up := prt.(cfg := prt.cfg.(extPathCost := extCost, operPointToPoint := pointToPoint, portEnabled := true),
                   conf := seq(|prt.conf|, t requires 0 <= t < |prt.conf| => prt.conf[t].(intPathCost := intCosts[t])));
    if prt.cfg.portEnabled then up else up.(ba := Assurance(false, 3 * prt.info[0].portTimes.helloTime))
  }

  /** `MSTP_IN_set_port_enable` with up false. */
  function PortDown(prt: Port): Port { prt.(cfg := prt.cfg.(portEnabled := false)) }

  // ---- Configuration of a port ----------------------------------------------------------------------

  /** One port replaced. */
  function WithPort(b: Bridge, p: nat, prt: Port): (r: Bridge)
    requires BridgeOk(b) && p < |b.ports| && PortOk(b.cfg, prt)
    ensures BridgeOk(r) && r == b.(ports := r.ports) && |r.ports| == |b.ports|
  {
    hide PortOk;
    b.(ports := b.ports[p := prt])
  }

  /** A change of port variables that the invariant does not restrict. */
  lemma SettingsAreFree(cfg: BridgeConfig, prt: Port, r: Port)
    requires PortOk(cfg, prt) && PortShape(cfg, r) && r.info == prt.info && r.sel == prt.sel && r.rv == prt.rv
    requires r.fw == prt.fw
    requires r.tx == prt.tx && r.rx == prt.rx && r.ba.rcvdInfoWhile <= 3 * HELLO_TIME
    ensures PortOk(cfg, r)
  {
    hide NodeOk;
    UnrelatedChange(cfg, prt, r);
  }

  /** Role selection has to run again for tree `t` of this port. */
  function Reselect(prt: Port, t: nat): Port
    requires t < |prt.sel|
  {
    prt.(sel := prt.sel[t := prt.sel[t].(selected := false, reselect := true)])
  }

  lemma ReselectIsOk(cfg: BridgeConfig, prt: Port, t: nat)
    requires PortOk(cfg, prt) && t < |prt.sel|
    ensures PortOk(cfg, Reselect(prt, t))
  {
    forall i | 0 <= i < |prt.info| ensures NodeOk(Reselect(prt, t), i) {
      assert NodeOk(prt, i);
    }
  }

  /** Role selection has to run again for the tree on every port. */
  function ReselectTree(b: Bridge, t: nat): (r: Bridge)
    requires BridgeOk(b) && t < |b.trees|
    ensures BridgeOk(r) && r == b.(ports := r.ports) && |r.ports| == |b.ports|
  {
    hide NodeOk;
    var r := b.(ports := seq(|b.ports|, p requires 0 <= p < |b.ports| => Reselect(b.ports[p], t)));
    ReselectsAreOk(b, t);
    r
  }

  lemma ReselectsAreOk(b: Bridge, t: nat)
    requires BridgeOk(b) && t < |b.trees|
    ensures forall p :: 0 <= p < |b.ports| ==> t < |b.ports[p].sel| && PortOk(b.cfg, Reselect(b.ports[p], t))
  {
    hide NodeOk, Reselect;
    forall p | 0 <= p < |b.ports| ensures t < |b.ports[p].sel| && PortOk(b.cfg, Reselect(b.ports[p], t)) {
      ReselectIsOk(b.cfg, b.ports[p], t);
    }
  }

  /** `MSTP_IN_set_msti_port_config`, which also serves the CIST: only a change on an enabled port asks for role
      selection. */
  function SetNodeConfig(prt: Port, t: nat, conf: PtpConfig): Port
    requires t < |prt.conf| && t < |prt.sel|
  {
    if conf == prt.conf[t] then prt
    else
      var r := prt.(conf := prt.conf[t := conf]);
      if prt.cfg.portEnabled then Reselect(r, t) else r
  }

  lemma NodeConfigIsOk(cfg: BridgeConfig, prt: Port, t: nat, conf: PtpConfig)
    requires PortOk(cfg, prt) && t < |prt.conf|
    ensures t < |prt.sel| && PortOk(cfg, SetNodeConfig(prt, t, conf))
  {
    hide NodeOk, Reselect;
    var r := prt.(conf := prt.conf[t := conf]);
    SettingsAreFree(cfg, prt, r);
    ReselectIsOk(cfg, r, t);
  }

  /** `MSTP_IN_set_cist_port_config`: whether the port is enabled and deleted is not its business. */
  function SetPortOptions(prt: Port, o: PortConfig): (r: Port)
    requires 1 <= |prt.sel|
    ensures |r.sel| == |prt.sel|
  {
    var costed := if o.extPathCost != prt.cfg.extPathCost then Reselect(prt, 0) else prt;
    costed.(cfg := o,
            edge := if o.adminEdge != prt.cfg.adminEdge then BeginEdge(o) else prt.edge,
            ba := if o.networkPort then prt.ba
              else prt.ba.(inconsistent := prt.ba.inconsistent && !prt.cfg.networkPort))
  }

  /** The options whose change makes the machines run. */
  predicate OptionsMatter(c: PortConfig, o: PortConfig) {
    o != c.(bpduGuard := o.bpduGuard, bpduFilter := o.bpduFilter, dontTxmt := o.dontTxmt)
  }

  lemma OptionsAreOk(cfg: BridgeConfig, prt: Port, o: PortConfig)
    requires PortOk(cfg, prt)
    ensures PortOk(cfg, SetPortOptions(prt, o))
  {
    hide NodeOk, Reselect;
    ReselectIsOk(cfg, prt, 0);
    var costed := if o.extPathCost != prt.cfg.extPathCost then Reselect(prt, 0) else prt;
    assert costed.info == prt.info && costed.rx == prt.rx && costed.tx == prt.tx && costed.ba == prt.ba by {
      ReselectKeepsRest(prt);
    }
    SettingsAreFree(cfg, costed, SetPortOptions(prt, o));
  }

  lemma ReselectKeepsRest(prt: Port)
    requires 1 <= |prt.sel|
    ensures Reselect(prt, 0) == prt.(sel := Reselect(prt, 0).sel)
  {
  }

  /** `MSTP_IN_port_mcheck` on an enabled port. */
  function Check(prt: Port): Port
    requires 1 <= |prt.hs|
  {
    prt.(mig := prt.mig.(mcheck := true), hs := prt.hs[0 := prt.hs[0].(proposing := true)])
  }

  // ---- Configuration of the bridge ------------------------------------------------------------------

  /** A tree under another bridge identifier. */
  function WithBridgeId(tree: Tree, id: BridgeId): Tree {
    var v := tree.bridgePriority;
    tree.(bridgeId := id, bridgePriority := v.(rootId := id, rRootId := id, desBridge := id))
  }

  /** `MSTP_IN_set_msti_bridge_config`: role selection is asked for, but the machines do not run. */
  function SetIdentifier(b: Bridge, t: nat, id: BridgeId): (r: Bridge)
    requires BridgeOk(b) && t < |b.trees|
    ensures BridgeOk(r) && r.cfg == b.cfg && |r.ports| == |b.ports| && |r.trees| == |b.trees|
  {
    hide PortOk, Reselect;
    if id == b.trees[t].bridgeId then b
    else ReselectTree(b.(trees := b.trees[t := WithBridgeId(b.trees[t], id)]), t)
  }

  /** A new Transmit Hold Count forgets what was sent. */
  function WithHoldCount(b: Bridge, n: nat): (r: Bridge)
    requires BridgeOk(b)
    ensures BridgeOk(r) && r.cfg == b.cfg.(holdCount := n) && |r.ports| == |b.ports| && r.trees == b.trees
  {
    hide NodeOk;
    var r := b.(cfg := b.cfg.(holdCount := n),
       ports := seq(|b.ports|, p requires 0 <= p < |b.ports| => b.ports[p].(tx := b.ports[p].tx.(txCount := 0))));
    HoldCountsAreOk(b, n);
    r
  }

  lemma HoldCountsAreOk(b: Bridge, n: nat)
    requires BridgeOk(b)
    ensures forall p :: 0 <= p < |b.ports| ==>
      PortOk(b.cfg.(holdCount := n), b.ports[p].(tx := b.ports[p].tx.(txCount := 0)))
  {
    hide NodeOk;
    forall p | 0 <= p < |b.ports|
      ensures PortOk(b.cfg.(holdCount := n), b.ports[p].(tx := b.ports[p].tx.(txCount := 0)))
    {
      var prt, r := b.ports[p], b.ports[p].(tx := b.ports[p].tx.(txCount := 0));
      assert forall t :: 0 <= t < |prt.info| ==> NodeOk(prt, t);
      SameNodes(prt, r);
    }
  }

  lemma SameNodes(prt: Port, r: Port)
    requires |prt.info| == |prt.sel| == |prt.rv| == |prt.fw| && r.info == prt.info && r.sel == prt.sel && r.rv == prt.rv
    requires r.fw == prt.fw
    ensures forall t :: 0 <= t < |prt.info| ==> NodeOk(r, t) == NodeOk(prt, t)
  {
  }

  /** The times of the bridge, as `MSTP_IN_set_cist_bridge_config` leaves them. */
  function WithTimes(cfg: BridgeConfig, maxAge: U8, forwardDelay: U8, maxHops: U8): BridgeConfig {
    cfg.(maxAge := maxAge, forwardDelay := forwardDelay, maxHops := maxHops)
  }

  function RetimedTree(cfg: BridgeConfig, tree: Tree): Tree {
    tree.(bridgeTimes := tree.bridgeTimes.(remainingHops := cfg.maxHops, forwardDelay := cfg.forwardDelay,
                                           maxAge := cfg.maxAge, helloTime := cfg.helloTime))
  }

  function RetimedPort(cfg: BridgeConfig, prt: Port): (r: Port)
    ensures |r.sel| == |prt.sel| && |r.info| == |prt.info|
  {
    prt.(info := seq(|prt.info|, t requires 0 <= t < |prt.info| =>
                     var i := prt.info[t]; i.(portTimes := i.portTimes.(helloTime := cfg.helloTime))),
         sel := seq(|prt.sel|, t requires 0 <= t < |prt.sel| => prt.sel[t].(selected := false, reselect := true)))
  }

  lemma RetimedIsOk(cfg: BridgeConfig, cfg': BridgeConfig, prt: Port)
    requires PortOk(cfg, prt) && cfg' == WithTimes(cfg, cfg'.maxAge, cfg'.forwardDelay, cfg'.maxHops)
    ensures PortOk(cfg', RetimedPort(cfg', prt))
  {
    var r := RetimedPort(cfg', prt);
    forall t | 0 <= t < |prt.info| ensures NodeOk(r, t) {
      assert NodeOk(prt, t);
    }
  }

  /** New bridge times are copied to every tree, and every port of every tree selects its role again. */
  function Retime(b: Bridge, maxAge: U8, forwardDelay: U8, maxHops: U8): (r: Bridge)
    requires BridgeOk(b)
    ensures BridgeOk(r) && r.cfg == WithTimes(b.cfg, maxAge, forwardDelay, maxHops)
    ensures |r.ports| == |b.ports| && |r.trees| == |b.trees|
    ensures forall p :: 0 <= p < |b.ports| ==> r.ports[p] == RetimedPort(r.cfg, b.ports[p])
  {
    hide PortOk, RetimedPort;
    var cfg := WithTimes(b.cfg, maxAge, forwardDelay, maxHops);
    RetimedAreOk(b, cfg);
    Bridge(cfg, seq(|b.trees|, t requires 0 <= t < |b.trees| => RetimedTree(cfg, b.trees[t])),
           seq(|b.ports|, p requires 0 <= p < |b.ports| => RetimedPort(cfg, b.ports[p])))
  }

  lemma RetimedAreOk(b: Bridge, cfg: BridgeConfig)
    requires BridgeOk(b) && cfg == WithTimes(b.cfg, cfg.maxAge, cfg.forwardDelay, cfg.maxHops)
    ensures forall p :: 0 <= p < |b.ports| ==> PortOk(cfg, RetimedPort(cfg, b.ports[p]))
  {
    hide PortOk, RetimedPort;
    forall p | 0 <= p < |b.ports| ensures PortOk(cfg, RetimedPort(cfg, b.ports[p])) {
      RetimedIsOk(b.cfg, cfg, b.ports[p]);
    }
  }

  /** All state machines begin again under a changed configuration. */
  function Restart(b: Bridge): (r: Bridge)
    requires BridgeOk(b)
    ensures BridgeOk(r) && r.cfg == b.cfg && |r.ports| == |b.ports| && |r.trees| == |b.trees|
  {
    hide PortOk, Blank;
    AllBlank(b);
    Begin(b)
  }

  lemma AllBlank(b: Bridge)
    requires BridgeOk(b)
    ensures Shape(b) && forall p :: 0 <= p < |b.ports| ==> Blank(b.cfg, b.ports[p])
  {
    ShapeOfOk(b);
    hide PortOk, Blank;
    forall p | 0 <= p < |b.ports| ensures Blank(b.cfg, b.ports[p]) {
      OkIsBlank(b.cfg, b.ports[p]);
    }
  }

  lemma VersionIsFree(b: Bridge, v: U8, id: ConfigId)
    requires BridgeOk(b)
    ensures BridgeOk(b.(cfg := b.cfg.(version := v, configId := id)))
  {
    hide NodeOk;
    var r := b.(cfg := b.cfg.(version := v, configId := id));
    forall p | 0 <= p < |b.ports| ensures PortOk(r.cfg, r.ports[p]) {
      assert PortOk(b.cfg, b.ports[p]);
    }
  }

  /** The identifier of a tree with another MAC address. */
  function WithMac(id: BridgeId, mac: Mac): BridgeId { id - MacOf(id) + mac }

  /** `MSTP_IN_set_bridge_address`, up to BEGIN. */
  function Readdress(b: Bridge, mac: Mac): (r: Bridge)
    requires BridgeOk(b)
    ensures BridgeOk(r) && r == b.(trees := r.trees) && |r.trees| == |b.trees|
    ensures forall t :: 0 <= t < |b.trees| ==> MacOf(r.trees[t].bridgeId) == mac
  {
    hide PortOk;
    b.(trees := seq(|b.trees|, t requires 0 <= t < |b.trees| =>
                    if MacOf(b.trees[t].bridgeId) == mac then b.trees[t]
                    else WithBridgeId(b.trees[t], WithMac(b.trees[t].bridgeId, mac))))
  }

  const NO_VECTOR := Vector(0, 0, 0, 0, 0, 0)
  const NO_TIMES := Times(0, 0, 0, 0, 0)

  /** What `MSTP_IN_set_bridge_enable` resets on a port, besides counters. */
  function ResetPort(prt: Port): (r: Port)
    ensures |r.info| == |prt.info| && |r.hs| == |prt.hs| && |r.fw| == |prt.fw| && |r.tc| == |prt.tc|
  {
    prt.(flags := PortFlags(false, false, false), rx := prt.rx.(rcvdInternal := false), ba := Assurance(false, 0),
         info := seq(|prt.info|, t requires 0 <= t < |prt.info| =>
                     prt.info[t].(updtInfo := false, rcvdInfo := OtherInfo, msgPriority := NO_VECTOR,
                         msgTimes := NO_TIMES)),
         hs := seq(|prt.hs|, t requires 0 <= t < |prt.hs| =>
                   prt.hs[t].(rcvdTc := false, master := false, mastered := false, disputed := false)),
         fw := seq(|prt.fw|, t requires 0 <= t < |prt.fw| => prt.fw[t].(brState := BrDisabled)),
         tc := seq(|prt.tc|, t requires 0 <= t < |prt.tc| => prt.tc[t].(tcProp := false)))
  }

  lemma ResetIsBlank(cfg: BridgeConfig, prt: Port)
    requires PortOk(cfg, prt)
    ensures Blank(cfg, ResetPort(prt))
  {
    assert NodeOk(prt, 0);
  }

  /** The bridge is switched off and on again. */
  function Reset(b: Bridge): (r: Bridge)
    requires BridgeOk(b)
    ensures BridgeOk(r) && r.cfg == b.cfg && |r.ports| == |b.ports| && |r.trees| == |b.trees|
  {
    hide PortOk, Blank, ResetPort;
    var r := b.(ports := seq(|b.ports|, p requires 0 <= p < |b.ports| => ResetPort(b.ports[p])));
    AllResetBlank(b);
    Begin(r)
  }

  lemma AllResetBlank(b: Bridge)
    requires BridgeOk(b)
    ensures forall p :: 0 <= p < |b.ports| ==> Blank(b.cfg, ResetPort(b.ports[p]))
    ensures forall p :: 0 <= p < |b.ports| ==> PortShape(b.cfg, ResetPort(b.ports[p]))
  {
    hide PortOk, ResetPort;
    forall p | 0 <= p < |b.ports| ensures Blank(b.cfg, ResetPort(b.ports[p])) {
      ResetIsBlank(b.cfg, b.ports[p]);
    }
  }

  // ---- Events ---------------------------------------------------------------------------------------

  datatype Event =
    | OneSecond
    | BpduArrives(port: nat, bpdu: Bpdu, size: nat)
    | LinkUp(port: nat, extCost: U32, intCosts: seq<U32>, pointToPoint: bool)
    | LinkDown(port: nat)
    | SetHoldCount(holdCount: nat)
    | SetVersion(version: U8)
    | SetRegion(configId: ConfigId)
    | SetTimes(maxAge: U8, forwardDelay: U8, maxHops: U8)
    | SetBridgeId(tree: nat, id: BridgeId)
    | SetAddress(mac: Mac)
    | Reenable
    | SetNode(port: nat, tree: nat, conf: PtpConfig)
    | SetOptions(port: nat, options: PortConfig)
    | MigrationCheck(port: nat)

  /** Events that name an existing port and tree, with values the configuration interface accepts. */
  predicate Acceptable(b: Bridge, e: Event) {
    match e
    case OneSecond => true
    case BpduArrives(p, m, _) => p < |b.ports| && WellSized(m)
    case LinkUp(p, _, costs, _) => p < |b.ports| && |costs| == |b.cfg.mstids|
    case LinkDown(p) => p < |b.ports|
    case SetHoldCount(n) => 1 <= n <= 10
    case SetVersion(v) => v == PROTO_STP || v == PROTO_RSTP || v == PROTO_MSTP
    case SetRegion(_) => true
    case SetTimes(age, delay, hops) => 6 <= age <= 40 && 4 <= delay <= 30 && 2 * (delay - 1) >= age && 6 <= hops <= 100
    case SetBridgeId(t, _) => t < |b.trees|
    case SetAddress(_) => true
    case Reenable => true
    case SetNode(p, t, _) => p < |b.ports| && t < |b.trees|
    case SetOptions(p, o) =>
      p < |b.ports| && o.portEnabled == b.ports[p].cfg.portEnabled && o.deleted == b.ports[p].cfg.deleted
    case MigrationCheck(p) => p < |b.ports|
  }

  /** What an event does before the machines run. */
  function Apply(b: Bridge, e: Event): (r: Bridge)
    requires BridgeOk(b) && Acceptable(b, e)
    ensures BridgeOk(r) && |r.ports| == |b.ports| && |r.trees| == |b.trees|
    ensures r.cfg == WithTimes(b.cfg, r.cfg.maxAge, r.cfg.forwardDelay, r.cfg.maxHops)
                     .(holdCount := r.cfg.holdCount, version := r.cfg.version, configId := r.cfg.configId)
  {
    hide PortOk, BeginPort, TickPort, ReceiveBpdu, SetNodeConfig, SetPortOptions;
    match e
    case OneSecond => Tick(b)
    case BpduArrives(p, m, size) =>
      (ShapeOfPort(b, p);
       match ReceiveBpdu(b.ports[p], m, size)
       case None => b
       case Some(prt) => ReceiveIsOk(b.cfg, b.ports[p], m, size); WithPort(b, p, prt))
    case LinkUp(p, ext, costs, p2p) =>
      ShapeOfPort(b, p);
      UpIsOk(b.cfg, b.ports[p], ext, costs, p2p);
      WithPort(b, p, PortUp(b.ports[p], ext, costs, p2p))
    case LinkDown(p) =>
      DownIsOk(b.cfg, b.ports[p]);
      WithPort(b, p, PortDown(b.ports[p]))
    case SetHoldCount(n) => if n == b.cfg.holdCount then b else WithHoldCount(b, n)
    case SetVersion(v) =>
      if v == b.cfg.version then b
      else
        VersionIsFree(b, v, b.cfg.configId);
        Restart(b.(cfg := b.cfg.(version := v)))
    case SetRegion(id) =>
      if id == b.cfg.configId then b
      else
        VersionIsFree(b, b.cfg.version, id);
        Restart(b.(cfg := b.cfg.(configId := id)))
    case SetTimes(age, delay, hops) =>
      if WithTimes(b.cfg, age, delay, hops) == b.cfg then b else Retime(b, age, delay, hops)
    case SetBridgeId(t, id) => SetIdentifier(b, t, id)
    case SetAddress(mac) => if Readdress(b, mac) == b then b else Restart(Readdress(b, mac))
    case Reenable => Reset(b)
    case SetNode(p, t, conf) =>
      ShapeOfPort(b, p);
      NodeConfigIsOk(b.cfg, b.ports[p], t, conf);
      WithPort(b, p, SetNodeConfig(b.ports[p], t, conf))
    case SetOptions(p, o) =>
      ShapeOfPort(b, p);
      OptionsAreOk(b.cfg, b.ports[p], o);
      WithPort(b, p, SetPortOptions(b.ports[p], o))
    case MigrationCheck(p) =>
      ShapeOfPort(b, p);
      CheckIsOk(b.cfg, b.ports[p]);
      if CheckHeeded(b, p) then WithPort(b, p, Check(b.ports[p])) else b
  }

  /** A migration check is only made on an enabled port of a bridge that may send RST BPDUs. */
  predicate CheckHeeded(b: Bridge, p: nat)
    requires p < |b.ports|
  {
    RstpVersion(b.cfg) && b.ports[p].cfg.portEnabled
  }

  lemma ShapeOfPort(b: Bridge, p: nat)
    requires BridgeOk(b) && p < |b.ports|
    ensures PortShape(b.cfg, b.ports[p]) && PortOk(b.cfg, b.ports[p])
  {
  }

  lemma UpIsOk(cfg: BridgeConfig, prt: Port, extCost: U32, intCosts: seq<U32>, pointToPoint: bool)
    requires PortOk(cfg, prt) && |intCosts| == |prt.conf|
    ensures PortOk(cfg, PortUp(prt, extCost, intCosts, pointToPoint))
  {
    HelloTimeIsFixed(cfg, prt);
    SettingsAreFree(cfg, prt, PortUp(prt, extCost, intCosts, pointToPoint));
  }

  lemma DownIsOk(cfg: BridgeConfig, prt: Port)
    requires PortOk(cfg, prt)
    ensures PortOk(cfg, PortDown(prt))
  {
    SettingsAreFree(cfg, prt, PortDown(prt));
  }

  lemma CheckIsOk(cfg: BridgeConfig, prt: Port)
    requires PortOk(cfg, prt)
    ensures PortOk(cfg, Check(prt))
  {
    SettingsAreFree(cfg, prt, Check(prt));
  }

  // ---- Runs -----------------------------------------------------------------------------------------

  /** Do the machines run after the event? */
  predicate Runs(b: Bridge, e: Event)
    requires BridgeOk(b) && Acceptable(b, e)
  {
    hide PortOk, PortUp, ReceiveBpdu;
    match e
    case OneSecond => true
    case BpduArrives(p, m, size) => ShapeOfPort(b, p); ReceiveBpdu(b.ports[p], m, size).Some?
    case LinkUp(p, ext, costs, p2p) => ShapeOfPort(b, p); PortUp(b.ports[p], ext, costs, p2p) != b.ports[p]
    case LinkDown(p) => b.ports[p].cfg.portEnabled
    case SetHoldCount(n) => n != b.cfg.holdCount
    case SetVersion(v) => v != b.cfg.version
    case SetRegion(id) => id != b.cfg.configId
    case SetTimes(age, delay, hops) => WithTimes(b.cfg, age, delay, hops) != b.cfg
    case SetBridgeId(_, _) => false
    case SetAddress(mac) => Readdress(b, mac) != b
    case Reenable => true
    case SetNode(p, t, conf) => ShapeOfPort(b, p); conf != b.ports[p].conf[t] && b.ports[p].cfg.portEnabled
    case SetOptions(p, o) => OptionsMatter(b.ports[p].cfg, o) && b.ports[p].cfg.portEnabled
    case MigrationCheck(p) => CheckHeeded(b, p)
  }

  /** The machines always make one pass before they look at the clock. */
  type PassLimit = n: nat | 1 <= n witness 1

  /** An event, and how many passes there is time for afterwards. */
  datatype Step = Step(event: Event, limit: PassLimit)

  /** One event and the passes after it; an event that names no existing port or tree does nothing. */
  function Advance(b: Bridge, s: Step): (r: Bridge)
    requires BridgeOk(b)
    ensures BridgeOk(r) && |r.ports| == |b.ports| && |r.trees| == |b.trees|
  {
    hide BridgeOk, Apply, RunMachines, Runs;
    if !Acceptable(b, s.event) then b
    else if Runs(b, s.event) then RunMachines(Apply(b, s.event), s.limit)
    else Apply(b, s.event)
  }

  /** The state after a whole history. */
  function After(b: Bridge, history: seq<Step>): (r: Bridge)
    requires BridgeOk(b)
    ensures BridgeOk(r) && |r.ports| == |b.ports| && |r.trees| == |b.trees|
    decreases |history|
  {
    hide BridgeOk, Advance;
    if history == [] then b else After(Advance(b, history[0]), history[1..])
  }

  /** Whatever happens from BEGIN on, the Hello Time of every port stays that of the standard, so the Port Transmit
      machine never loops on `helloWhen`. */
  lemma HelloTimeNeverMoves(b: Bridge, history: seq<Step>, p: nat)
    requires Shape(b) && (forall q :: 0 <= q < |b.ports| ==> Blank(b.cfg, b.ports[q])) && p < |b.ports|
    ensures After(Begin(b), history).ports[p].info[0].portTimes.helloTime == HELLO_TIME
    ensures PortShape(After(Begin(b), history).cfg, After(Begin(b), history).ports[p])
  {
    hide After, NodeOk, Begin;
    var r := After(Begin(b), history);
    HelloTimeIsFixed(r.cfg, r.ports[p]);
  }
}
