/**
 The small per-port machines: Port Receive, Port Protocol Migration, Bridge Detection and Port State
 Transition (clauses 13.28 to 13.30 and 13.35 of IEEE 802.1Q-2005, mstp.c:2895-3135 and 4592-4685).
 */
module PortMachines {
  import opened Types

  // ---- 13.28 Port Receive ---------------------------------------------------------------------------

  /** `fromSameRegion`. */
  predicate FromSameRegion(cfg: BridgeConfig, prt: Port) {
    prt.rx.bpdu.version >= PROTO_MSTP && cfg.configId == prt.rx.bpdu.configId
  }

  /** The MSTID in the low 12 bits of a regional root identifier's priority. */
  function MstidOf(id: BridgeId): int { (id / 0x1_0000_0000_0000) % 0x1000 }

  /** The first of `n` messages from index `i` on whose regional root names `mstid`. */
  function FindMsti(mstis: seq<MstiMessage>, i: nat, n: nat, mstid: U16): (r: Option<MstiIndex>)
    requires n <= |mstis| == MAX_STANDARD_MSTIS
    ensures r.Some? ==> i <= r.value < n && MstidOf(mstis[r.value].rRootId) == mstid
    ensures r.Some? ==> forall k :: i <= k < r.value ==> MstidOf(mstis[k].rRootId) != mstid
    ensures r.None? ==> forall k :: i <= k < n ==> MstidOf(mstis[k].rRootId) != mstid
    decreases n - i
  {
    if i >= n then None
    else if MstidOf(mstis[i].rRootId) == mstid then Some(i)
    else FindMsti(mstis, i + 1, n, mstid)
  }

  /** Does the received BPDU have a message for this MSTI? */
  predicate HasMessage(prt: Port, mstid: U16)
    requires prt.rx.numMstis <= |prt.rx.bpdu.mstis|
  {
    exists i :: 0 <= i < prt.rx.numMstis && MstidOf(prt.rx.bpdu.mstis[i].rRootId) == mstid
  }

  /** `setRcvdMsgs`. */
  function SetRcvdMsgs(cfg: BridgeConfig, prt: Port): (r: seq<Info>)
    requires PortShape(cfg, prt) && prt.rx.numMstis <= MAX_STANDARD_MSTIS
    ensures |r| == |prt.info|
    ensures forall t :: 0 <= t < |r| ==> r[t] == prt.info[t].(rcvdMsg := r[t].rcvdMsg, rcvdMsti := r[t].rcvdMsti)
    ensures r[0].rcvdMsg
    ensures forall t :: 1 <= t < |r| ==>
      (r[t].rcvdMsg <==> prt.info[t].rcvdMsg || (prt.rx.rcvdInternal && HasMessage(prt, cfg.mstids[t])))
    ensures forall t :: 1 <= t < |r| && prt.rx.rcvdInternal && HasMessage(prt, cfg.mstids[t]) ==>
      r[t].rcvdMsti < prt.rx.numMstis && MstidOf(prt.rx.bpdu.mstis[r[t].rcvdMsti].rRootId) == cfg.mstids[t]
  {
    seq(|prt.info|, t requires 0 <= t < |prt.info| =>
        if t == 0 then prt.info[t].(rcvdMsg := true)
        else if !prt.rx.rcvdInternal then prt.info[t]
        else match FindMsti(prt.rx.bpdu.mstis, 0, prt.rx.numMstis, cfg.mstids[t])
          case None => prt.info[t]
          case Some(i) => prt.info[t].(rcvdMsg := true, rcvdMsti := i))
  }

  predicate RcvdAnyMsg(prt: Port) { exists t :: 0 <= t < |prt.info| && prt.info[t].rcvdMsg }

  /** The transition `PRSM_run` would take. */
  function NextReceive(cfg: BridgeConfig, prt: Port): Option<ReceiveState> {
    if (prt.rx.rcvdBpdu || prt.rx.edgeDelayWhile != cfg.migrateTime) && !prt.cfg.portEnabled then Some(RxDiscard)
    else if prt.rx.rcvdBpdu && prt.cfg.portEnabled && (prt.rx.state == RxDiscard || !RcvdAnyMsg(prt))
      then Some(RxReceive)
    else None
  }

  function EnterDiscard(cfg: BridgeConfig, prt: Port): (r: Port)
    ensures |r.info| == |prt.info| && r == prt.(rx := r.rx, info := r.info)
    ensures r.rx.bpdu == prt.rx.bpdu && r.rx.numMstis == prt.rx.numMstis
    ensures forall t :: 0 <= t < |r.info| ==> r.info[t] == prt.info[t].(rcvdMsg := false)
  {
    prt.(rx := prt.rx.(state := RxDiscard, rcvdBpdu := false, rcvdRSTP := false, rcvdSTP := false,
                       edgeDelayWhile := cfg.migrateTime),
         info := seq(|prt.info|, t requires 0 <= t < |prt.info| => prt.info[t].(rcvdMsg := false)))
  }

  function EnterReceive(cfg: BridgeConfig, prt: Port): (r: Port)
    requires PortShape(cfg, prt) && prt.rx.numMstis <= MAX_STANDARD_MSTIS
    ensures |r.info| == |prt.info| && r == prt.(rx := r.rx, info := r.info, edge := r.edge) && r.rx.bpdu == prt.rx.bpdu
    ensures r.rx.rcvdInternal == FromSameRegion(cfg, prt) && r.rx.numMstis == prt.rx.numMstis
    ensures !r.rx.rcvdBpdu && r.rx.state == RxReceive && !r.edge.operEdge && RcvdAnyMsg(r)
    ensures r.rx.rcvdRSTP == (prt.rx.rcvdRSTP || prt.rx.bpdu.version >= PROTO_RSTP)
    ensures r.rx.rcvdSTP == (prt.rx.rcvdSTP || prt.rx.bpdu.version < PROTO_RSTP)
    ensures forall t :: 0 <= t < |r.info| ==>
      r.info[t] == prt.info[t].(rcvdMsg := r.info[t].rcvdMsg, rcvdMsti := r.info[t].rcvdMsti)
  {
    hide FromSameRegion, SetRcvdMsgs;
    var rstp := prt.rx.bpdu.version >= PROTO_RSTP;
    var r := prt.(rx := prt.rx.(state := RxReceive, rcvdRSTP := prt.rx.rcvdRSTP || rstp,
                                rcvdSTP := prt.rx.rcvdSTP || !rstp, rcvdInternal := FromSameRegion(cfg, prt),
                                rcvdBpdu := false, edgeDelayWhile := cfg.migrateTime),
                  edge := prt.edge.(operEdge := false));
    r.(info := SetRcvdMsgs(cfg, r))
  }

  /** `PRSM_run` with dry_run false. */
  function RunReceive(cfg: BridgeConfig, prt: Port): (r: Port)
    requires PortShape(cfg, prt) && prt.rx.numMstis <= MAX_STANDARD_MSTIS
    ensures PortShape(cfg, r) && r.rx.numMstis == prt.rx.numMstis
  {
    hide EnterDiscard, EnterReceive, FromSameRegion;
    match NextReceive(cfg, prt)
    case None => prt
    case Some(s) => if s == RxDiscard then EnterDiscard(cfg, prt) else EnterReceive(cfg, prt)
  }

  // ---- 13.29 Port Protocol Migration ----------------------------------------------------------------

  /** The transition `PPMSM_run` would take. */
  function NextMigration(cfg: BridgeConfig, prt: Port): Option<MigrationState> {
    match prt.mig.state
    case CheckingRstp =>
      if prt.mig.mdelayWhile != cfg.migrateTime && !prt.cfg.portEnabled then Some(CheckingRstp)
      else if prt.mig.mdelayWhile == 0 then Some(Sensing)
      else None
    case SelectingStp =>
      if prt.mig.mdelayWhile == 0 || !prt.cfg.portEnabled || prt.mig.mcheck then Some(Sensing) else None
    case Sensing =>
      if !prt.cfg.portEnabled || prt.mig.mcheck || (RstpVersion(cfg) && !prt.mig.sendRSTP && prt.rx.rcvdRSTP) then
        Some(CheckingRstp)
      else if prt.mig.sendRSTP && prt.rx.rcvdSTP then Some(SelectingStp)
      else None
  }

  function EnterMigration(cfg: BridgeConfig, prt: Port, s: MigrationState): (r: Port)
    ensures r == prt.(mig := r.mig, rx := prt.rx.(rcvdRSTP := r.rx.rcvdRSTP, rcvdSTP := r.rx.rcvdSTP))
  {
    match s
    case CheckingRstp =>
      prt.(mig := Migration(CheckingRstp, cfg.migrateTime, false, RstpVersion(cfg)))
    case SelectingStp =>
      prt.(mig := prt.mig.(state := SelectingStp, mdelayWhile := cfg.migrateTime, sendRSTP := false))
    case Sensing =>
      prt.(mig := prt.mig.(state := Sensing), rx := prt.rx.(rcvdRSTP := false, rcvdSTP := false))
  }

  function MigrationMeasure(cfg: BridgeConfig, prt: Port): nat {
    match prt.mig.state
    case CheckingRstp => if prt.mig.mdelayWhile != cfg.migrateTime && !prt.cfg.portEnabled then 6
      else if prt.mig.mdelayWhile == 0 then 5 else 0
    case SelectingStp => 2
    case Sensing => if prt.rx.rcvdSTP then 3 else 1
  }

  /** `PPMSM_run` with dry_run false.  Entering CHECKING_RSTP ends the call. */
  function RunMigration(cfg: BridgeConfig, prt: Port): (r: Port)
    ensures r == prt.(mig := r.mig, rx := prt.rx.(rcvdRSTP := r.rx.rcvdRSTP, rcvdSTP := r.rx.rcvdSTP))
    ensures cfg.migrateTime > 0 ==> NextMigration(cfg, r).None?
    decreases MigrationMeasure(cfg, prt)
  {
    match NextMigration(cfg, prt)
    case None => prt
    case Some(s) =>
      var r := EnterMigration(cfg, prt, s);
      if s == CheckingRstp then r else RunMigration(cfg, r)
  }

  /** Once the migration delay is over, an enabled port that hears STP while sending RSTP falls back to STP, and one
      that hears RSTP while sending STP returns to RSTP; nothing else but a disabled port or a check makes it. */
  lemma MigrationFollowsNeighbour(cfg: BridgeConfig, prt: Port)
    requires prt.cfg.portEnabled && !prt.mig.mcheck && prt.mig.state == Sensing && RstpVersion(cfg)
    requires cfg.migrateTime > 0
    ensures var r := RunMigration(cfg, prt);
      && (prt.mig.sendRSTP ==> (r.mig.sendRSTP <==> !prt.rx.rcvdSTP))
      && (!prt.mig.sendRSTP ==> (r.mig.sendRSTP <==> prt.rx.rcvdRSTP))
  {
  }

  // ---- 13.30 Bridge Detection -----------------------------------------------------------------------

  /** The transition `BDSM_run` would take. */
  function NextEdge(prt: Port): Option<EdgeState>
    requires 1 <= |prt.hs|
  {
    if prt.edge.state == Edge then
      if ((!prt.cfg.portEnabled || !prt.cfg.autoEdge) && !prt.cfg.adminEdge) || !prt.edge.operEdge then Some(NotEdge)
        else None
    else
      if (!prt.cfg.portEnabled && prt.cfg.adminEdge)
         || (prt.rx.edgeDelayWhile == 0 && prt.cfg.autoEdge && prt.mig.sendRSTP && prt.hs[0].proposing)
      then Some(Edge) else None
  }

  function EnterEdge(prt: Port, s: EdgeState): Port { prt.(edge := EdgeVars(s, s == Edge)) }

  /** `BDSM_run` with dry_run false. */
  function RunEdge(prt: Port): (r: Port)
    requires 1 <= |prt.hs|
    ensures r == prt.(edge := r.edge)
  {
    match NextEdge(prt)
    case None => prt
    case Some(s) => EnterEdge(prt, s)
  }

  // ---- 13.35 Port State Transition ------------------------------------------------------------------

  /** The transition `PSTSM_run` would take. */
  function NextForwarding(rv: RoleVars, fw: ForwardingVars): Option<ForwardingState> {
    match fw.state
    case Discarding => if rv.learn then Some(Learning) else None
    case Learning => if !rv.learn then Some(Discarding) else if rv.forward then Some(Forwarding) else None
    case Forwarding => if !rv.forward then Some(Discarding) else None
  }

  /** The actions; the kernel is told unless the port is being deleted. */
  function EnterForwarding(deleted: bool, fw: ForwardingVars, s: ForwardingState): ForwardingVars {
    var br := match s case Discarding => BrBlocking case Learning => BrLearning case Forwarding => BrForwarding;
    ForwardingVars(s,
                   if s == Discarding then false else if s == Learning then true else fw.learning,
                   if s == Discarding then false else if s == Forwarding then true else fw.forwarding,
                   if deleted then fw.brState else br)
  }

  function ForwardingMeasure(rv: RoleVars, fw: ForwardingVars): nat {
    match fw.state
    case Discarding => if rv.learn then 2 else 0
    case Learning => 1
    case Forwarding => if rv.forward then 0 else 3
  }

  /** `PSTSM_run` with dry_run false. */
  function RunForwarding(deleted: bool, rv: RoleVars, fw: ForwardingVars): (r: ForwardingVars)
    ensures NextForwarding(rv, r).None?
    decreases ForwardingMeasure(rv, fw)
  {
    match NextForwarding(rv, fw)
    case None => fw
    case Some(s) => RunForwarding(deleted, rv, EnterForwarding(deleted, fw, s))
  }

  /** The flags of the machine say what its state is. */
  predicate Consistent(fw: ForwardingVars) {
    match fw.state
    case Discarding => !fw.learning && !fw.forwarding
    case Learning => fw.learning && !fw.forwarding
    case Forwarding => fw.learning && fw.forwarding
  }

  /** Once the machine has run, the port learns and forwards exactly as the role machine asked. */
  lemma {:induction false} ForwardingFollowsRole(deleted: bool, rv: RoleVars, fw: ForwardingVars)
    requires Consistent(fw) && (rv.forward ==> rv.learn)
    ensures var r := RunForwarding(deleted, rv, fw);
      Consistent(r) && r.learning == rv.learn && r.forwarding == rv.forward
    decreases ForwardingMeasure(rv, fw)
  {
    if NextForwarding(rv, fw).Some? {
      ForwardingFollowsRole(deleted, rv, EnterForwarding(deleted, fw, NextForwarding(rv, fw).value));
    }
  }
}
