/**
 Port Transmit state machine and the BPDUs it builds (clause 13.31 and 13.26.19 to 13.26.20 of
 IEEE 802.1Q-2005, mstp.c:2348-2521 and 3137-3330).
 */
module PortTransmit {
  import opened Types

  // ---- BPDUs ----------------------------------------------------------------------------------------

  const CONFIG_BPDU_SIZE: nat := 35
  const RST_BPDU_SIZE: nat := 36
  const TCN_BPDU_SIZE: nat := 4
  const MST_BPDU_SIZE_WO_MSTI_MSGS: nat := 102
  const MST_BPDU_VER3LEN_WO_MSTI_MSGS: nat := 64
  const MSTI_MSG_SIZE: nat := 16

  const BLANK_MSTI := MstiMessage(0, 0, 0, 0, 0, 0)

  function NoMstis(): (r: seq<MstiMessage>)
    ensures |r| == MAX_STANDARD_MSTIS
  {
    seq(MAX_STANDARD_MSTIS, _ => BLANK_MSTI)
  }

  /** Fields outside the transmitted length of a BPDU are zero here. */
  function BlankBpdu(): (r: Bpdu)
    ensures WellSized(r)
  {
    Bpdu(0, 0, 0, 0, 0, 0, 0, 0, WireTime(0, 0), WireTime(0, 0), WireTime(0, 0), WireTime(0, 0),
         0, 0, ConfigId(0, [], 0, []), 0, 0, 0, NoMstis())
  }

  /** `message_role_from_port_role`. */
  function EncodeRole(r: Role): bv8 {
    match r
    case RoleRoot => ENCODED_ROOT
    case RoleDesignated => ENCODED_DESIGNATED
    case RoleAlternate => ENCODED_ALTERNATE_BACKUP
    case RoleBackup => ENCODED_ALTERNATE_BACKUP
    case RoleMaster => ENCODED_MASTER
    case RoleDisabled => ENCODED_ALTERNATE_BACKUP
  }

  function FlagIf(c: bool, flag: bv8): bv8 { if c then flag else 0 }

  /** The flags octet for tree `t`, without the acknowledgement or Master bit. */
  function TreeFlags(prt: Port, t: nat): bv8
    requires t < |prt.rv| == |prt.tc| == |prt.hs| == |prt.fw|
  {
    ((EncodeRole(prt.rv[t].role) & 3) << 2)
    | FlagIf(prt.tc[t].tcWhile != 0, FLAG_TC) | FlagIf(prt.hs[t].proposing, FLAG_PROPOSAL)
    | FlagIf(prt.fw[t].learning, FLAG_LEARNING) | FlagIf(prt.fw[t].forwarding, FLAG_FORWARDING)
    | FlagIf(prt.hs[t].agree, FLAG_AGREEMENT)
  }

  /** The priority octet of an identifier, `GET_PRIORITY_FROM_IDENTIFIER`. */
  function BridgePriorityOctet(id: BridgeId): U8 { (id / 0x1000_0000_0000_0000) * 16 }
  function PortPriorityOctet(id: PortId): U8 { (id / 0x1000) * 16 }

  /** The MSTI configuration message of tree `t`. */
  function MstiMessageOf(prt: Port, t: nat): MstiMessage
    requires t < |prt.rv| == |prt.tc| == |prt.hs| == |prt.fw| == |prt.sel|
  {
    var des := prt.sel[t].designatedPriority;
    MstiMessage(TreeFlags(prt, t) | FlagIf(prt.hs[t].master, FLAG_TC_ACK), des.rRootId, des.intCost,
                BridgePriorityOctet(des.desBridge), PortPriorityOctet(des.desPort),
                prt.sel[t].designatedTimes.remainingHops)
  }

  /** `txConfig`. */
  function ConfigBpdu(cfg: BridgeConfig, prt: Port): Bpdu
    requires PortShape(cfg, prt)
  {
    var des, times := prt.sel[0].designatedPriority, prt.sel[0].designatedTimes;
    BlankBpdu().(version := PROTO_STP, bpduType := BPDU_TYPE_CONFIG,
                flags := FlagIf(prt.tc[0].tcWhile != 0, FLAG_TC) | FlagIf(prt.tx.tcAck, FLAG_TC_ACK),
                rootId := des.rootId, extCost := des.extCost, rRootId := des.desBridge, portId := des.desPort,
                messageAge := WireTime(times.messageAge, 0), maxAge := WireTime(times.maxAge, 0),
                helloTime := WireTime(prt.info[0].portTimes.helloTime, 0),
                forwardDelay := WireTime(times.forwardDelay, 0))
  }

  /** `txTcn`. */
  function TcnBpdu(): Bpdu { BlankBpdu().(bpduType := BPDU_TYPE_TCN) }

  /** The RST part of `txMstp`. */
  function RstBpdu(cfg: BridgeConfig, prt: Port): Bpdu
    requires PortShape(cfg, prt)
  {
    var des, times := prt.sel[0].designatedPriority, prt.sel[0].designatedTimes;
    BlankBpdu().(version := PROTO_RSTP, bpduType := BPDU_TYPE_RST, flags := TreeFlags(prt, 0),
                rootId := des.rootId, extCost := des.extCost, rRootId := des.rRootId, portId := des.desPort,
                messageAge := WireTime(times.messageAge, 0), maxAge := WireTime(times.maxAge, 0),
                helloTime := WireTime(prt.info[0].portTimes.helloTime, 0),
                forwardDelay := WireTime(times.forwardDelay, 0))
  }

  /** The MSTI messages of a BPDU, in the order of the port's trees. */
  function MstiMessages(cfg: BridgeConfig, prt: Port): seq<MstiMessage>
    requires PortShape(cfg, prt)
  {
    seq(MAX_STANDARD_MSTIS, i requires 0 <= i < MAX_STANDARD_MSTIS =>
        if i + 1 < |cfg.mstids| then MstiMessageOf(prt, i + 1) else BLANK_MSTI)
  }

  /** `txMstp` in MSTP mode; there is room for 64 MSTI messages. */
  function MstBpdu(cfg: BridgeConfig, prt: Port): Bpdu
    requires PortShape(cfg, prt) && |cfg.mstids| <= MAX_STANDARD_MSTIS
  {
    var des := prt.sel[0].designatedPriority;
    RstBpdu(cfg, prt).(version := PROTO_MSTP, configId := cfg.configId, intCost := des.intCost,
        bridgeId := des.desBridge,
                       remainingHops := prt.sel[0].designatedTimes.remainingHops,
                       version3Len := MST_BPDU_VER3LEN_WO_MSTI_MSGS + MSTI_MSG_SIZE * (|cfg.mstids| - 1),
                       mstis := MstiMessages(cfg, prt))
  }

  function MstBpduSize(cfg: BridgeConfig): nat
    requires 1 <= |cfg.mstids|
  {
    MST_BPDU_SIZE_WO_MSTI_MSGS + MSTI_MSG_SIZE * (|cfg.mstids| - 1)
  }

  // ---- The state machine ----------------------------------------------------------------------------

  predicate AssurancePort(prt: Port) {
    prt.cfg.networkPort && prt.cfg.operPointToPoint && prt.mig.sendRSTP
  }

  predicate AllTransmitReady(prt: Port)
    requires |prt.sel| == |prt.info|
  {
    forall t :: 0 <= t < |prt.sel| ==> prt.sel[t].selected && !prt.info[t].updtInfo
  }

  predicate MstiMasterPort(prt: Port) { exists t :: 1 <= t < |prt.rv| && prt.rv[t].role == RoleMaster }

  /** The transition `PTSM_run` would take. */
  function Next(cfg: BridgeConfig, prt: Port): Option<TransmitState>
    requires PortShape(cfg, prt)
  {
    if !prt.cfg.portEnabled then
      if prt.tx.state != TransmitInit || !prt.tx.newInfo || !prt.tx.newInfoMsti || prt.tx.txCount != 0
      then Some(TransmitInit) else None
    else if prt.tx.state != TransmitIdle then Some(TransmitIdle)
    else if !AllTransmitReady(prt) then None
    else if prt.tx.helloWhen == 0 then Some(TransmitPeriodic)
    else if prt.tx.txCount >= cfg.holdCount || prt.cfg.bpduFilter then None
    else if prt.mig.sendRSTP then
      if prt.tx.newInfo || (prt.tx.newInfoMsti && !MstiMasterPort(prt)) || AssurancePort(prt) then Some(TransmitRstp)
        else None
    else if prt.tx.newInfo && prt.rv[0].role == RoleDesignated then Some(TransmitConfig)
    else if prt.tx.newInfo && prt.rv[0].role == RoleRoot then Some(TransmitTcn)
    else None
  }

  predicate DesignatedOrPropagatingRoot(prt: Port, t: nat)
    requires t < |prt.rv| == |prt.tc|
  {
    prt.rv[t].role == RoleDesignated || (prt.rv[t].role == RoleRoot && prt.tc[t].tcWhile != 0)
  }

  predicate SomeMstiPropagates(prt: Port)
    requires |prt.rv| == |prt.tc|
  {
    exists t :: 1 <= t < |prt.rv| && DesignatedOrPropagatingRoot(prt, t)
  }

  /** Nothing leaves a port that is being deleted, has no role, or was told not to transmit. */
  predicate Silent(prt: Port)
    requires 1 <= |prt.rv|
  {
    prt.cfg.deleted || prt.rv[0].role == RoleDisabled || prt.cfg.dontTxmt
  }

  function Sent(prt: Port, m: Bpdu, size: nat): seq<(Bpdu, nat)>
    requires 1 <= |prt.rv|
  {
    if Silent(prt) then prt.tx.sent else prt.tx.sent + [(m, size)]
  }

  /** The actions of `PTSM_to_<s>`. */
  function Enter(cfg: BridgeConfig, prt: Port, s: TransmitState): (r: Port)
    requires PortShape(cfg, prt) && |cfg.mstids| <= MAX_STANDARD_MSTIS
    ensures r == prt.(tx := r.tx) && r.tx.state == s
  {
    var tx := prt.tx.(state := s);
    match s
    case TransmitInit => prt.(tx := tx.(newInfo := true, newInfoMsti := true, txCount := 0))
    case TransmitConfig =>
      prt.(tx := tx.(newInfo := false, txCount := tx.txCount + 1, tcAck := false,
                     sent := Sent(prt, ConfigBpdu(cfg, prt), CONFIG_BPDU_SIZE)))
    case TransmitTcn =>
      prt.(tx := tx.(newInfo := false, txCount := tx.txCount + 1, sent := Sent(prt, TcnBpdu(), TCN_BPDU_SIZE)))
    case TransmitRstp =>
      prt.(tx := tx.(newInfo := false, newInfoMsti := false, txCount := tx.txCount + 1, tcAck := false,
                     sent := if cfg.version < PROTO_MSTP then Sent(prt, RstBpdu(cfg, prt), RST_BPDU_SIZE)
                             else Sent(prt, MstBpdu(cfg, prt), MstBpduSize(cfg))))
    case TransmitPeriodic =>
      prt.(tx := tx.(newInfo := tx.newInfo || DesignatedOrPropagatingRoot(prt, 0),
                     newInfoMsti := tx.newInfoMsti || SomeMstiPropagates(prt)))
    case TransmitIdle => prt.(tx := tx.(helloWhen := prt.info[0].portTimes.helloTime))
  }

  /** Transmissions still allowed before the hold count stops the port. */
  function Allowance(cfg: BridgeConfig, tx: Tx): nat {
    if tx.txCount < cfg.holdCount then cfg.holdCount - tx.txCount else 0
  }

  /** A bound on the transitions one call of `PTSM_run` can still make. */
  function Measure(cfg: BridgeConfig, prt: Port): nat {
    if !prt.cfg.portEnabled then
      if prt.tx.state != TransmitInit || !prt.tx.newInfo || !prt.tx.newInfoMsti || prt.tx.txCount != 0 then 1 else 0
    else if prt.tx.state != TransmitIdle then 2 * Allowance(cfg, prt.tx) + 1
    else 2 * Allowance(cfg, prt.tx) + if prt.tx.helloWhen == 0 then 2 else 0
  }

  /** With a positive Hello Time every transition lowers the measure. */
  lemma TransitionDecreases(cfg: BridgeConfig, prt: Port)
    requires PortShape(cfg, prt) && |cfg.mstids| <= MAX_STANDARD_MSTIS && prt.info[0].portTimes.helloTime > 0
    requires Next(cfg, prt).Some?
    ensures Measure(cfg, Enter(cfg, prt, Next(cfg, prt).value)) < Measure(cfg, prt)
  {
    hide AllTransmitReady, MstiMasterPort, AssurancePort, DesignatedOrPropagatingRoot, Sent, ConfigBpdu, RstBpdu;
    hide MstBpdu;
  }

  /** On a disabled port `PTSM_run` enters TRANSMIT_INIT every time; when its dry run answers false, that changes
      nothing. */
  lemma InitIsIdle(cfg: BridgeConfig, prt: Port)
    requires PortShape(cfg, prt) && |cfg.mstids| <= MAX_STANDARD_MSTIS && !prt.cfg.portEnabled
    ensures Next(cfg, prt).None? <==> Enter(cfg, prt, TransmitInit) == prt
    ensures Next(cfg, Enter(cfg, prt, TransmitInit)).None?
  {
  }

  /** `PTSM_run` with dry_run false. */
  function Run(cfg: BridgeConfig, prt: Port): (r: Port)
    requires PortShape(cfg, prt) && |cfg.mstids| <= MAX_STANDARD_MSTIS && prt.info[0].portTimes.helloTime > 0
    ensures r == prt.(tx := r.tx) && Next(cfg, r).None?
    decreases Measure(cfg, prt)
  {
    hide Enter, Next, Measure;
    if !prt.cfg.portEnabled then
      InitIsIdle(cfg, prt);
      Enter(cfg, prt, TransmitInit)
    else
      match Next(cfg, prt)
      case None => prt
      case Some(s) =>
        TransitionDecreases(cfg, prt);
        Run(cfg, Enter(cfg, prt, s))
  }

  /** The dry-run contract of the machine: when no guard holds, the actual run is the identity. */
  lemma IdleRun(cfg: BridgeConfig, prt: Port)
    requires PortShape(cfg, prt) && |cfg.mstids| <= MAX_STANDARD_MSTIS && prt.info[0].portTimes.helloTime > 0
    requires Next(cfg, prt).None?
    ensures Run(cfg, prt) == prt
  {
    hide Enter, Next;
    if !prt.cfg.portEnabled { InitIsIdle(cfg, prt); }
  }
}
