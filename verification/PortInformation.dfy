/**
 Port Information state machine (clause 13.32 of IEEE 802.1Q-2005, mstp.c:1755-2578 and 3332-3620).

 `Next` is the guard table of `PISM_run`, `Enter` the actions of the `PISM_to_*` functions, and `Run`
 their mutual recursion.  All of it touches one port only.
 */
module PortInformation {
  import opened Types
  import opened Priority

  // ---- Messages -------------------------------------------------------------------------------------

  /** `NEAREST_WHOLE_SECOND`, stored in an octet. */
  function NearestWholeSecond(w: WireTime): U8 {
    if w.fraction < 128 then w.seconds else (w.seconds + 1) % 0x100
  }

  /** The MSTI message that belongs to tree `t`. */
  function MstiConfig(prt: Port, t: nat): MstiMessage
    requires t < |prt.info| && WellSized(prt.rx.bpdu)
  {
    prt.rx.bpdu.mstis[prt.info[t].rcvdMsti]
  }

  /** The flags octet the received BPDU carries for tree `t`. */
  function MessageFlags(cfg: BridgeConfig, prt: Port, t: nat): bv8
    requires PortShape(cfg, prt) && t < |prt.info|
  {
    if t == 0 then prt.rx.bpdu.flags else MstiConfig(prt, t).flags
  }

  /** Does a CIST message convey a Designated role?  `None` when the role code makes it OtherInfo. */
  function CistMessageIsDesignated(m: Bpdu): Option<bool> {
    if m.version == PROTO_STP then Some(true)
    else if EncodedRole(m.flags) == ENCODED_DESIGNATED then Some(true)
    else if EncodedRole(m.flags) != ENCODED_MASTER then Some(false)
    else if m.version == PROTO_RSTP then Some(true)
    else None
  }

  function MstiMessageIsDesignated(m: MstiMessage): Option<bool> {
    if EncodedRole(m.flags) == ENCODED_DESIGNATED then Some(true)
    else if EncodedRole(m.flags) != ENCODED_MASTER then Some(false)
    else None
  }

  function MessageIsDesignated(cfg: BridgeConfig, prt: Port, t: nat): Option<bool>
    requires PortShape(cfg, prt) && t < |prt.info|
  {
    if t == 0 then CistMessageIsDesignated(prt.rx.bpdu)
    else if prt.rx.bpdu.version < PROTO_MSTP then None
    else MstiMessageIsDesignated(MstiConfig(prt, t))
  }

  /** The CIST message priority vector. */
  function CistMessagePriority(m: Bpdu): Vector {
    if m.version < PROTO_MSTP then Vector(m.rootId, m.extCost, m.rRootId, 0, m.rRootId, m.portId)
    else Vector(m.rootId, m.extCost, m.rRootId, m.intCost, m.bridgeId, m.portId)
  }

  function CistMessageTimes(m: Bpdu, maxHops: U8): Times {
    Times(if m.version < PROTO_MSTP then maxHops else m.remainingHops,
          NearestWholeSecond(m.forwardDelay), NearestWholeSecond(m.maxAge),
          NearestWholeSecond(m.messageAge), NearestWholeSecond(m.helloTime))
  }

  /** `SET_PRIORITY_IN_IDENTIFIER` on a bridge identifier made of an MSTID and a MAC. */
  function MakeBridgeId(priorityOctet: U8, mstid: U16, mac: BridgeId): BridgeId {
    ((priorityOctet / 16) * 0x1000 + mstid % 0x1000) * 0x1_0000_0000_0000 + MacOf(mac)
  }

  /** `SET_PRIORITY_IN_IDENTIFIER` on a port identifier. */
  function MakePortId(priorityOctet: U8, portId: PortId): PortId {
    (priorityOctet / 16) * 0x1000 + portId % 0x1000
  }

  /** The MSTI message priority vector; the two CIST-only components keep their old value. */
  function MstiMessagePriority(m: Bpdu, msg: MstiMessage, mstid: U16, before: Vector): Vector {
    before.(rRootId := msg.rRootId, intCost := msg.intCost,
            desBridge := MakeBridgeId(msg.bridgePriority, mstid, m.bridgeId),
            desPort := MakePortId(msg.portPriority, m.portId))
  }

  /** msgPriority and msgTimes taken from the received BPDU. */
  function RecordMessage(cfg: BridgeConfig, prt: Port, t: nat): Info
    requires PortShape(cfg, prt) && t < |prt.info|
  {
    var i, m := prt.info[t], prt.rx.bpdu;
    if t == 0 then i.(msgPriority := CistMessagePriority(m), msgTimes := CistMessageTimes(m, cfg.maxHops))
    else
      var msg := MstiConfig(prt, t);
      i.(msgPriority := MstiMessagePriority(m, msg, cfg.mstids[t], i.msgPriority),
         msgTimes := i.msgTimes.(remainingHops := msg.remainingHops))
  }

  /** The classification at the end of `rcvInfo`, once msgPriority and msgTimes are recorded. */
  function Classify(i: Info, isDesignated: bool, cist: bool): RcvdInfo {
    var msg, port := i.msgPriority, i.portPriority;
    var msgBetter := !BetterOrSame(port, msg, 0, 0, cist);
    if isDesignated then
      if msgBetter
         || (MacOf(msg.desBridge) == MacOf(port.desBridge) && msg.desPort % 0x1000 == port.desPort % 0x1000)
      then SuperiorDesignatedInfo
      else
        var same := SamePriorityAndTimers(msg, port, i.msgTimes, i.portTimes, cist);
        if !same && BetterOrSame(msg, port, 0, 0, cist) then SuperiorDesignatedInfo
        else if same && i.infoIs == IoReceived then RepeatedDesignatedInfo
        else InferiorDesignatedInfo
    else if !msgBetter then InferiorRootAlternateInfo
    else OtherInfo
  }

  /** The Repeated case is never reached: a message with the port's own vector comes from the same bridge address and
      port number, and so counts as Superior. */
  lemma RepeatedIsNeverClassified(i: Info, isDesignated: bool, cist: bool)
    ensures Classify(i, isDesignated, cist) != RepeatedDesignatedInfo
    ensures isDesignated && i.msgPriority == i.portPriority ==>
      Classify(i, isDesignated, cist) == SuperiorDesignatedInfo
  {
    hide BetterOrSame;
  }

  /** `rcvInfo`: what it leaves in the information variables, its result being `rcvdInfo`. */
  function RcvInfo(cfg: BridgeConfig, prt: Port, t: nat): Info
    requires PortShape(cfg, prt) && t < |prt.info|
  {
    var before := prt.info[t].(rcvdInfo := OtherInfo);
    if prt.rx.bpdu.bpduType == BPDU_TYPE_TCN then before
    else
      match MessageIsDesignated(cfg, prt, t)
      case None => before
      case Some(isDesignated) =>
        var i := RecordMessage(cfg, prt, t);
        i.(rcvdInfo := Classify(i, isDesignated, t == 0))
  }

  // ---- The flags a message sets ---------------------------------------------------------------------

  /** Only handshake flags and the two per-port topology flags differ between the two ports. */
  predicate FlagsOnly(prt: Port, r: Port) {
    && |r.hs| == |prt.hs|
    && r == prt.(hs := r.hs, flags := prt.flags.(rcvdTcAck := r.flags.rcvdTcAck, rcvdTcn := r.flags.rcvdTcn))
  }

  /** Does a message for tree `t` speak for tree `i`?  An external CIST message speaks for every tree. */
  predicate Concerns(prt: Port, t: nat, i: nat) {
    i == t || (t == 0 && !prt.rx.rcvdInternal)
  }

  /** The flags a TCN BPDU raises in `rcvInfo`. */
  function RecordTcn(prt: Port): (r: Port)
    ensures FlagsOnly(prt, r)
  {
    if prt.rx.bpdu.bpduType != BPDU_TYPE_TCN then prt
    else
      prt.(flags := prt.flags.(rcvdTcn := true),
           hs := seq(|prt.hs|, i requires 0 <= i < |prt.hs| => prt.hs[i].(rcvdTc := true)))
  }

  /** `recordProposal`. */
  function RecordProposal(cfg: BridgeConfig, prt: Port, t: nat): (r: Port)
    requires PortShape(cfg, prt) && t < |prt.hs|
    ensures FlagsOnly(prt, r)
  {
    var proposed := prt.hs[t].proposed || HasFlag(MessageFlags(cfg, prt, t), FLAG_PROPOSAL);
    prt.(hs := seq(|prt.hs|, i requires 0 <= i < |prt.hs| =>
                   if Concerns(prt, t, i) then prt.hs[i].(proposed := proposed) else prt.hs[i]))
  }

  /** `setTcFlags`: for an external BPDU the MSTIs get `proposed`, as the code does, not `rcvdTc`. */
  function SetTcFlags(cfg: BridgeConfig, prt: Port, t: nat): (r: Port)
    requires PortShape(cfg, prt) && t < |prt.hs|
    ensures FlagsOnly(prt, r)
  {
    var flags := MessageFlags(cfg, prt, t);
    var changed := HasFlag(flags, FLAG_TC);
    prt.(flags := prt.flags.(rcvdTcAck := prt.flags.rcvdTcAck || (t == 0 && HasFlag(flags, FLAG_TC_ACK))),
         hs := seq(|prt.hs|, i requires 0 <= i < |prt.hs| =>
                   if !changed || !Concerns(prt, t, i) then prt.hs[i]
                   else if i == t then prt.hs[i].(rcvdTc := true)
                   else prt.hs[i].(proposed := true)))
  }

  /** Does the message carry an acceptable agreement for tree `t`? */
  predicate AcceptsAgreement(cfg: BridgeConfig, prt: Port, t: nat)
    requires PortShape(cfg, prt) && t < |prt.hs|
  {
    var m, cist := prt.rx.bpdu, prt.info[0].portPriority;
    && prt.cfg.operPointToPoint && HasFlag(MessageFlags(cfg, prt, t), FLAG_AGREEMENT)
    && (if t == 0 then RstpVersion(cfg)
        else m.rootId == cist.rootId && m.extCost == cist.extCost && m.rRootId == cist.rRootId)
  }

  /** `recordAgreement`. */
  function RecordAgreement(cfg: BridgeConfig, prt: Port, t: nat): (r: Port)
    requires PortShape(cfg, prt) && t < |prt.hs|
    ensures FlagsOnly(prt, r)
  {
    var agreed := AcceptsAgreement(cfg, prt, t);
    var proposing := !agreed && prt.hs[t].proposing;
    prt.(hs := seq(|prt.hs|, i requires 0 <= i < |prt.hs| =>
                   if Concerns(prt, t, i) then prt.hs[i].(agreed := agreed, proposing := proposing) else prt.hs[i]))
  }

  /** `recordDispute`. */
  function RecordDispute(cfg: BridgeConfig, prt: Port, t: nat): (r: Port)
    requires PortShape(cfg, prt) && t < |prt.hs|
    ensures FlagsOnly(prt, r)
  {
    if !HasFlag(MessageFlags(cfg, prt, t), FLAG_LEARNING) then prt
    else
      prt.(hs := seq(|prt.hs|, i requires 0 <= i < |prt.hs| =>
                     if Concerns(prt, t, i) then prt.hs[i].(disputed := true, agreed := false) else prt.hs[i]))
  }

  /** `recordMastered`. */
  function RecordMastered(cfg: BridgeConfig, prt: Port, t: nat): (r: Port)
    requires PortShape(cfg, prt) && t < |prt.hs|
    ensures FlagsOnly(prt, r)
  {
    var mastered := t != 0 && prt.cfg.operPointToPoint && HasFlag(MessageFlags(cfg, prt, t), FLAG_TC_ACK);
    prt.(hs := seq(|prt.hs|, i requires 0 <= i < |prt.hs| =>
                   if i != 0 && Concerns(prt, t, i) then prt.hs[i].(mastered := mastered) else prt.hs[i]))
  }

  /** At a region boundary the CIST message speaks for all trees alike: proposals, agreements and disputes are the
      same on every MSTI as on the CIST, and no MSTI is mastered. */
  lemma ExternalMessageSpeaksForAll(cfg: BridgeConfig, prt: Port, i: nat)
    requires PortShape(cfg, prt) && !prt.rx.rcvdInternal && 1 <= i < |prt.hs|
    ensures RecordProposal(cfg, prt, 0).hs[i].proposed == RecordProposal(cfg, prt, 0).hs[0].proposed
    ensures !RecordMastered(cfg, prt, 0).hs[i].mastered
    ensures var r := RecordAgreement(cfg, prt, 0);
      r.hs[i].agreed == r.hs[0].agreed && r.hs[i].proposing == r.hs[0].proposing
    ensures var r := RecordDispute(cfg, prt, 0);
      MessageFlags(cfg, prt, 0) & FLAG_LEARNING != 0 ==> r.hs[i].disputed && !r.hs[i].agreed
  {
    hide MessageFlags, AcceptsAgreement, FlagsOnly;
    assert RecordAgreement(cfg, prt, 0).hs[i].agreed == AcceptsAgreement(cfg, prt, 0);
    assert RecordAgreement(cfg, prt, 0).hs[0].agreed == AcceptsAgreement(cfg, prt, 0);
  }

  /** Inside a region a message speaks for its own tree only. */
  lemma InternalMessageSpeaksForItsTree(cfg: BridgeConfig, prt: Port, t: nat, i: nat)
    requires PortShape(cfg, prt) && t < |prt.hs| && i < |prt.hs| && i != t && (t != 0 || prt.rx.rcvdInternal)
    ensures RecordProposal(cfg, prt, t).hs[i] == RecordAgreement(cfg, prt, t).hs[i] == RecordDispute(cfg, prt, t).hs[i]
            == RecordMastered(cfg, prt, t).hs[i] == SetTcFlags(cfg, prt, t).hs[i] == prt.hs[i]
  {
  }

  /** A topology change announced from another region is taken for a proposal on the MSTIs, not for a change. */
  lemma ExternalChangeIsTakenForProposal(cfg: BridgeConfig, prt: Port, i: nat)
    requires PortShape(cfg, prt) && !prt.rx.rcvdInternal && 1 <= i < |prt.hs| && HasFlag(prt.rx.bpdu.flags, FLAG_TC)
    ensures var r := SetTcFlags(cfg, prt, 0);
      r.hs[0].rcvdTc && r.hs[i].proposed && r.hs[i].rcvdTc == prt.hs[i].rcvdTc
  {
  }

  // ---- The state machine ----------------------------------------------------------------------------

  /** `betterorsameInfo`. */
  predicate BetterOrSameInfo(i: Info, designated: Vector, newInfoIs: InfoIs, cist: bool) {
    if newInfoIs == IoReceived && i.infoIs == IoReceived then BetterOrSame(i.msgPriority, i.portPriority, 0, 0, cist)
    else if newInfoIs == IoMine && i.infoIs == IoMine then BetterOrSame(designated, i.portPriority, 0, 0, cist)
    else false
  }

  /** `updtRcvdInfoWhile`: the lifetime of information with the port's and the CIST's times. */
  function RcvdInfoWhile(internal: bool, cist: Times, remainingHops: U8): nat {
    if (!internal && cist.messageAge + 1 <= cist.maxAge) || (internal && remainingHops > 1)
    then 3 * cist.helloTime else 0
  }

  /** `rcvdXstMsg` and `updtXstInfo` of the IEEE 802.1s text. */
  predicate RcvdXstMsg(prt: Port, t: nat) requires t < |prt.info| {
    prt.info[t].rcvdMsg && (t == 0 || !prt.info[0].rcvdMsg)
  }

  predicate UpdtXstInfo(prt: Port, t: nat) requires t < |prt.info| {
    prt.info[t].updtInfo || prt.info[0].updtInfo
  }

  function ReceivedState(i: RcvdInfo): InfoState {
    match i
    case SuperiorDesignatedInfo => InfoSuperior
    case RepeatedDesignatedInfo => InfoRepeated
    case InferiorDesignatedInfo => InfoInferior
    case InferiorRootAlternateInfo => InfoNotDesignated
    case OtherInfo => InfoOther
  }

  /** The transition `PISM_run` would take. */
  function Next(prt: Port, t: nat): Option<InfoState>
    requires t < |prt.info| == |prt.sel|
  {
    var i := prt.info[t];
    if !prt.cfg.portEnabled && i.infoIs != IoDisabled then Some(InfoDisabled)
    else match i.state
      case InfoDisabled =>
        if prt.cfg.portEnabled then Some(InfoAged) else if i.rcvdMsg then Some(InfoDisabled) else None
      case InfoAged =>
        if prt.sel[t].selected && i.updtInfo then Some(InfoUpdate) else None
      case InfoCurrent =>
        if RcvdXstMsg(prt, t) && !UpdtXstInfo(prt, t) then Some(InfoReceive)
        else if i.infoIs == IoReceived && i.rcvdInfoWhile == 0 && !i.updtInfo && !RcvdXstMsg(prt, t) then Some(InfoAged)
        else if prt.sel[t].selected && i.updtInfo then Some(InfoUpdate)
        else None
      case InfoReceive => Some(ReceivedState(i.rcvdInfo))
      case _ => Some(InfoCurrent)
  }

  /** The flags part of `PISM_to_SUPERIOR_DESIGNATED`, in the order of the code. */
  function SuperiorFlags(cfg: BridgeConfig, prt: Port, t: nat): (r: Port)
    requires PortShape(cfg, prt) && t < |prt.hs|
    ensures FlagsOnly(prt, r)
  {
    hide RecordProposal, SetTcFlags, RecordAgreement, BetterOrSameInfo;
    var p1 := prt.(hs := prt.hs[t := prt.hs[t].(agreed := false, proposing := false)]);
    var p3 := SetTcFlags(cfg, RecordProposal(cfg, p1, t), t);
    var agree := p3.hs[t].agree && BetterOrSameInfo(prt.info[t], prt.sel[t].designatedPriority, IoReceived, t == 0);
    var p5 := RecordAgreement(cfg, p3.(hs := p3.hs[t := p3.hs[t].(agree := agree)]), t);
    p5.(hs := p5.hs[t := p5.hs[t].(synced := p5.hs[t].synced && p5.hs[t].agreed)])
  }

  /** The flags part of `PISM_to_<s>`. */
  function Flags(cfg: BridgeConfig, prt: Port, t: nat, s: InfoState): (r: Port)
    requires PortShape(cfg, prt) && t < |prt.hs|
    ensures FlagsOnly(prt, r)
  {
    hide RecordProposal, SetTcFlags, RecordAgreement, RecordDispute, RecordMastered, RecordTcn, SuperiorFlags;
    hide BetterOrSameInfo;
    var h := prt.hs[t];
    match s
    case InfoDisabled =>
      prt.(hs := prt.hs[t := h.(proposing := false, proposed := false, agree := false, agreed := false)])
    case InfoUpdate =>
      var agreed := h.agreed && BetterOrSameInfo(prt.info[t], prt.sel[t].designatedPriority, IoMine, t == 0);
      prt.(hs := prt.hs[t := h.(proposing := false, proposed := false, agreed := agreed, synced := h.synced && agreed)])
    case InfoSuperior => SuperiorFlags(cfg, prt, t)
    case InfoRepeated => RecordAgreement(cfg, SetTcFlags(cfg, RecordProposal(cfg, prt, t), t), t)
    case InfoInferior => RecordDispute(cfg, prt, t)
    case InfoNotDesignated => SetTcFlags(cfg, RecordAgreement(cfg, prt, t), t)
    case InfoReceive => RecordMastered(cfg, RecordTcn(prt), t)
    case _ => prt
  }

  /** The information part of `PISM_to_<s>`. */
  function InfoAfter(cfg: BridgeConfig, prt: Port, t: nat, s: InfoState): Info
    requires PortShape(cfg, prt) && t < |prt.info|
  {
    var i := prt.info[t].(state := s);
    match s
    case InfoDisabled => i.(rcvdMsg := false, rcvdInfoWhile := 0, infoIs := IoDisabled)
    case InfoAged => i.(infoIs := IoAged)
    case InfoUpdate =>
      i.(portPriority := prt.sel[t].designatedPriority, portTimes := prt.sel[t].designatedTimes,
         updtInfo := false, infoIs := IoMine)
    case InfoSuperior =>
      // recordPriority, recordTimes (which keeps the port's own Hello_Time) and updtRcvdInfoWhile
      var times := i.msgTimes.(helloTime := i.portTimes.helloTime);
      var cist := if t == 0 then times else prt.info[0].portTimes;
      i.(portPriority := i.msgPriority, portTimes := times, infoIs := IoReceived, rcvdMsg := false,
         rcvdInfoWhile := RcvdInfoWhile(prt.rx.rcvdInternal, cist, times.remainingHops))
    case InfoRepeated =>
      i.(rcvdMsg := false,
         rcvdInfoWhile := RcvdInfoWhile(prt.rx.rcvdInternal, prt.info[0].portTimes, i.portTimes.remainingHops))
    case InfoInferior => i.(rcvdMsg := false)
    case InfoNotDesignated => i.(rcvdMsg := false)
    case InfoOther => i.(rcvdMsg := false)
    case InfoCurrent => i
    case InfoReceive => RcvInfo(cfg, prt, t).(state := s)
  }

  /** Role selection has to run again once information was recorded, aged or disabled. */
  function SelAfter(sel: Selection, s: InfoState): Selection {
    if s.InfoDisabled? || s.InfoAged? || s.InfoSuperior? then sel.(reselect := true, selected := false) else sel
  }

  function RaiseNewInfo(tx: Tx, t: nat): Tx {
    if t == 0 then tx.(newInfo := true) else tx.(newInfoMsti := true)
  }

  /** The actions of `PISM_to_<s>`. */
  function Enter(cfg: BridgeConfig, prt: Port, t: nat, s: InfoState): (r: Port)
    requires PortShape(cfg, prt) && t < |prt.info|
    ensures r == prt.(hs := r.hs, flags := r.flags,
                      tx := if s.InfoUpdate? then RaiseNewInfo(prt.tx, t) else prt.tx,
                      info := prt.info[t := InfoAfter(cfg, prt, t, s)],
                      sel := prt.sel[t := SelAfter(prt.sel[t], s)])
    ensures PortShape(cfg, r)
    ensures s.InfoSuperior? || s.InfoRepeated? || r.flags.infoInternal == prt.flags.infoInternal
  {
    hide Flags, InfoAfter, SelAfter, RaiseNewInfo;
    var r := Flags(cfg, prt, t, s);
    var flags := if s.InfoSuperior? || s.InfoRepeated? then r.flags.(infoInternal := prt.rx.rcvdInternal) else r.flags;
    r.(info := prt.info[t := InfoAfter(cfg, prt, t, s)], sel := prt.sel[t := SelAfter(prt.sel[t], s)],
       tx := if s.InfoUpdate? then RaiseNewInfo(prt.tx, t) else prt.tx, flags := flags)
  }

  /** May entering `s` for tree `t` touch the flags of other trees?  Only when the CIST message came from outside the
      region, or when a TCN BPDU is received. */
  predicate SpeaksForOthers(prt: Port, t: nat, s: InfoState) {
    || (s.InfoReceive? && (prt.rx.bpdu.bpduType == BPDU_TYPE_TCN || (t == 0 && !prt.rx.rcvdInternal)))
    || (t == 0 && !prt.rx.rcvdInternal &&
      (s.InfoSuperior? || s.InfoRepeated? || s.InfoInferior? || s.InfoNotDesignated?))
  }

  lemma SuperiorTouchesFlags(cfg: BridgeConfig, prt: Port, t: nat)
    requires PortShape(cfg, prt) && t < |prt.hs|
    ensures var r := SuperiorFlags(cfg, prt, t);
      && (t != 0 || prt.rx.rcvdInternal ==> forall i :: 0 <= i < |prt.hs| && i != t ==> r.hs[i] == prt.hs[i])
      && r.flags.rcvdTcn == prt.flags.rcvdTcn && (t != 0 ==> r.flags.rcvdTcAck == prt.flags.rcvdTcAck)
  {
    hide MessageFlags, AcceptsAgreement, BetterOrSameInfo, FlagsOnly;
  }

  /** Which flags a transition may touch beyond its own node. */
  lemma EnterTouchesFlags(cfg: BridgeConfig, prt: Port, t: nat, s: InfoState)
    requires PortShape(cfg, prt) && t < |prt.info|
    ensures var r := Enter(cfg, prt, t, s);
      && (!SpeaksForOthers(prt, t, s) ==> forall i :: 0 <= i < |prt.hs| && i != t ==> r.hs[i] == prt.hs[i])
      && (r.flags.rcvdTcn != prt.flags.rcvdTcn ==> s.InfoReceive? && prt.rx.bpdu.bpduType == BPDU_TYPE_TCN)
      && (r.flags.rcvdTcAck != prt.flags.rcvdTcAck ==>
        t == 0 && (s.InfoSuperior? || s.InfoRepeated? || s.InfoNotDesignated?))
      && (r.flags.infoInternal != prt.flags.infoInternal ==> s.InfoSuperior? || s.InfoRepeated?)
  {
    hide InfoAfter, SelAfter, RaiseNewInfo, MessageFlags, AcceptsAgreement, BetterOrSameInfo, FlagsOnly;
    match s {
      case InfoDisabled => hide RecordTcn, SuperiorFlags;
      case InfoUpdate => hide RecordTcn, SuperiorFlags;
      case InfoSuperior =>
        hide RecordTcn, RecordDispute, RecordMastered, SuperiorFlags;
        SuperiorTouchesFlags(cfg, prt, t);
      case InfoRepeated => hide RecordTcn, RecordDispute, RecordMastered, SuperiorFlags;
      case InfoInferior => hide RecordTcn, RecordMastered, SuperiorFlags;
      case InfoNotDesignated => hide RecordTcn, RecordMastered, SuperiorFlags, RecordDispute;
      case InfoReceive => hide SuperiorFlags, RecordDispute;
      case _ => hide SuperiorFlags, RecordDispute, RecordTcn, RecordMastered;
    }
  }

  // ---- Termination ----------------------------------------------------------------------------------

  function InfoRank(i: Info): nat {
    (if i.rcvdMsg then 10 else 0) + (if i.updtInfo then 5 else 0)
    + match i.state
      case InfoDisabled => 2
      case InfoAged => 1
      case InfoCurrent => 2
      case InfoReceive => if i.rcvdMsg then 1 else 4
      case _ => 3
  }

  /** A bound on the transitions one call of `PISM_run` can still make. */
  function Measure(portEnabled: bool, i: Info): nat {
    if portEnabled then InfoRank(i)
    else if i.infoIs != IoDisabled then 1
    else if i.state.InfoDisabled? then (if i.rcvdMsg then 1 else 0)
    else 100 + InfoRank(i)
  }

  /** Every transition, from any state whatever, lowers the measure. */
  lemma TransitionDecreases(cfg: BridgeConfig, prt: Port, t: nat)
    requires PortShape(cfg, prt) && t < |prt.info| && Next(prt, t).Some?
    ensures Measure(prt.cfg.portEnabled, InfoAfter(cfg, prt, t, Next(prt, t).value)) < Measure(prt.cfg.portEnabled,
        prt.info[t])
  {
    hide MstiMessagePriority, CistMessagePriority, CistMessageTimes, MessageIsDesignated, Classify, RcvdInfoWhile;
  }

  /** `PISM_run` with dry_run false: transitions until no guard holds. */
  function Run(cfg: BridgeConfig, prt: Port, t: nat): (r: Port)
    requires PortShape(cfg, prt) && t < |prt.info|
    ensures PortShape(cfg, r) && Next(r, t).None?
    decreases Measure(prt.cfg.portEnabled, prt.info[t])
  {
    hide Enter, InfoAfter, Measure, Next;
    match Next(prt, t)
    case None => prt
    case Some(s) =>
      TransitionDecreases(cfg, prt, t);
      Run(cfg, Enter(cfg, prt, t, s), t)
  }
}
