/**
 What a bridge in MSTP mode sends is what its neighbour in the same region understands
 (clauses 13.26.6, 13.26.20 and 14.4 of IEEE 802.1Q-2005; mstp.c:600-672, 1899-1956, 2193-2243 and 2406-2505).
 */
module BpduRoundTrip {
  import opened Types
  import opened Events
  import PI = PortInformation
  import PM = PortMachines
  import PT = PortTransmit

  // ---- Identifiers ----------------------------------------------------------------------------------

  /** A bridge identifier is rebuilt from its priority octet, its MSTID and the MAC address. */
  lemma BridgeIdRoundTrip(id: BridgeId, mstid: U16, mac: BridgeId)
    requires MacOf(id) == MacOf(mac) && PM.MstidOf(id) == mstid
    ensures PI.MakeBridgeId(PT.BridgePriorityOctet(id), mstid, mac) == id
  {
    var upper := id / 0x1_0000_0000_0000;
    assert id == upper * 0x1_0000_0000_0000 + MacOf(id);
    assert upper / 0x1000 == id / 0x1000_0000_0000_0000;
    assert upper == (upper / 0x1000) * 0x1000 + upper % 0x1000;
  }

  lemma PortIdRoundTrip(id: PortId, number: PortId)
    requires id % 0x1000 == number % 0x1000
    ensures PI.MakePortId(PT.PortPriorityOctet(id), number) == id
  {
  }

  // ---- Flags ----------------------------------------------------------------------------------------

  /** Every flag and the role are read back as they were sent. */
  lemma FlagsRoundTrip(prt: Port, t: nat)
    requires t < |prt.rv| == |prt.tc| == |prt.hs| == |prt.fw|
    ensures var f := PT.TreeFlags(prt, t);
      && EncodedRole(f) == PT.EncodeRole(prt.rv[t].role)
      && (HasFlag(f, FLAG_TC) <==> prt.tc[t].tcWhile != 0) && (HasFlag(f, FLAG_PROPOSAL) <==> prt.hs[t].proposing)
      && (HasFlag(f, FLAG_LEARNING) <==> prt.fw[t].learning) && (HasFlag(f, FLAG_FORWARDING) <==> prt.fw[t].forwarding)
      && (HasFlag(f, FLAG_AGREEMENT) <==> prt.hs[t].agree) && !HasFlag(f, FLAG_TC_ACK)
    ensures var f := PT.TreeFlags(prt, t) | PT.FlagIf(prt.hs[t].master, FLAG_TC_ACK);
      EncodedRole(f) == PT.EncodeRole(prt.rv[t].role) && (HasFlag(f, FLAG_TC_ACK) <==> prt.hs[t].master)
  {
  }

  // ---- The BPDU -------------------------------------------------------------------------------------

  /** What the designated vectors of a bridge have in common: one MAC address and one port number, and the MSTID of
      each tree in its identifiers. */
  predicate Consistent(cfg: BridgeConfig, prt: Port)
    requires PortShape(cfg, prt)
  {
    var cist := prt.sel[0].designatedPriority;
    forall t :: 1 <= t < |cfg.mstids| ==>
      var des := prt.sel[t].designatedPriority;
      && PM.MstidOf(des.rRootId) == cfg.mstids[t] && PM.MstidOf(des.desBridge) == cfg.mstids[t]
      && MacOf(des.desBridge) == MacOf(cist.desBridge) && des.desPort % 0x1000 == cist.desPort % 0x1000
  }

  predicate Distinct(mstids: seq<U16>) {
    forall i, j :: 0 <= i < j < |mstids| ==> mstids[i] != mstids[j]
  }

  /** A bridge in MSTP mode with up to 63 MSTIs, ready to transmit. */
  predicate Sender(cfg: BridgeConfig, prt: Port) {
    PortShape(cfg, prt) && cfg.version >= PROTO_MSTP && |cfg.mstids| <= MAX_STANDARD_MSTIS && Distinct(cfg.mstids) &&
      Consistent(cfg, prt)
  }

  /** It passes validation as an MST BPDU with all its MSTI messages. */
  lemma MstBpduIsValid(cfg: BridgeConfig, prt: Port, numMstis: nat)
    requires PortShape(cfg, prt) && |cfg.mstids| <= MAX_STANDARD_MSTIS
    ensures Validate(PT.MstBpdu(cfg, prt), PT.MstBpduSize(cfg), numMstis) ==
        Some((PT.MstBpdu(cfg, prt), |cfg.mstids| - 1))
  {
    hide PT.TreeFlags, PT.MstiMessages, PT.BlankBpdu;
    var m := PT.MstBpdu(cfg, prt);
    BlankFields();
    assert m.version3Len - PT.MST_BPDU_VER3LEN_WO_MSTI_MSGS == PT.MSTI_MSG_SIZE * (|cfg.mstids| - 1);
    assert m.(version := PROTO_MSTP) == m;
  }

  lemma BlankFields()
    ensures var m := PT.BlankBpdu(); m.protocolId == 0 && m.version1Len == 0
  {
  }

  /** The message of every tree the sender has is the one the receiver finds. */
  lemma MessageIsFound(cfg: BridgeConfig, prt: Port, t: nat)
    requires Sender(cfg, prt) && 1 <= t < |cfg.mstids|
    ensures PM.FindMsti(PT.MstBpdu(cfg, prt).mstis, 0, |cfg.mstids| - 1, cfg.mstids[t]) == Some(t - 1)
  {
    hide PT.TreeFlags, PT.BlankBpdu, PM.MstidOf;
    var mstis := PT.MstBpdu(cfg, prt).mstis;
    assert forall i :: 0 <= i < |cfg.mstids| - 1 ==> mstis[i].rRootId == prt.sel[i + 1].designatedPriority.rRootId;
    assert forall i :: 0 <= i < |cfg.mstids| - 1 ==> PM.MstidOf(mstis[i].rRootId) == cfg.mstids[i + 1];
    var found := PM.FindMsti(mstis, 0, |cfg.mstids| - 1, cfg.mstids[t]);
    assert PM.MstidOf(mstis[t - 1].rRootId) == cfg.mstids[t];
  }

  /** And of no other. */
  lemma NoOtherMessageIsFound(cfg: BridgeConfig, prt: Port, mstid: U16)
    requires Sender(cfg, prt) && mstid !in cfg.mstids
    ensures PM.FindMsti(PT.MstBpdu(cfg, prt).mstis, 0, |cfg.mstids| - 1, mstid).None?
  {
    hide PT.TreeFlags, PT.BlankBpdu, PM.MstidOf;
    var mstis := PT.MstBpdu(cfg, prt).mstis;
    assert forall i :: 0 <= i < |cfg.mstids| - 1 ==> PM.MstidOf(mstis[i].rRootId) == cfg.mstids[i + 1];
  }

  // ---- The receiver ---------------------------------------------------------------------------------

  /** A port of a bridge in the same region, with nothing pending. */
  predicate Receiver(cfg: BridgeConfig, prt: Port, region: ConfigId) {
    && PortShape(cfg, prt) && cfg.configId == region && prt.cfg.portEnabled && Distinct(cfg.mstids)
    && !prt.cfg.bpduGuard && !prt.cfg.bpduFilter && !prt.rx.rcvdBpdu
    && (prt.rx.state == RxDiscard || !PM.RcvdAnyMsg(prt))
  }

  /** The port when the BPDU of the sender has arrived. */
  function Arrived(cfg: BridgeConfig, from: Port, to: Port): (r: Port)
    requires Sender(cfg, from) && 1 <= |to.info| && !to.cfg.bpduGuard && !to.cfg.bpduFilter && !to.rx.rcvdBpdu
    ensures r ==
        to.(rx := to.rx.(bpdu := PT.MstBpdu(cfg, from), numMstis := |cfg.mstids| - 1, rcvdBpdu := true), ba := r.ba)
  {
    hide PT.MstBpdu, Consistent, Distinct;
    MstBpduIsValid(cfg, from, to.rx.numMstis);
    ReceiveBpdu(to, PT.MstBpdu(cfg, from), PT.MstBpduSize(cfg)).value
  }

  /** The port when Port Receive has run, too. */
  function Heard(cfg: BridgeConfig, from: Port, cfg': BridgeConfig, to: Port): (r: Port)
    requires Sender(cfg, from) && Receiver(cfg', to, cfg.configId)
    ensures PortShape(cfg', r)
  {
    hide Arrived, Consistent, Distinct;
    PM.RunReceive(cfg', Arrived(cfg, from, to))
  }

  lemma HeardBpdu(cfg: BridgeConfig, from: Port, cfg': BridgeConfig, to: Port)
    requires Sender(cfg, from) && Receiver(cfg', to, cfg.configId)
    ensures var r, m := Heard(cfg, from, cfg', to), PT.MstBpdu(cfg, from);
      && r.rx.bpdu == m && r.rx.rcvdInternal && !r.rx.rcvdBpdu && r.sel == to.sel && r.info[0].rcvdMsg
      && (forall t :: 0 <= t < |r.info| ==>
        r.info[t] == to.info[t].(rcvdMsg := r.info[t].rcvdMsg, rcvdMsti := r.info[t].rcvdMsti))
      && (forall t :: 1 <= t < |r.info| ==>
           match PM.FindMsti(m.mstis, 0, |cfg.mstids| - 1, cfg'.mstids[t])
           case None => r.info[t] == to.info[t]
           case Some(i) => r.info[t].rcvdMsg && r.info[t].rcvdMsti == i)
  {
    hide PT.MstiMessages, PT.TreeFlags, PM.MstidOf, PM.FindMsti, Arrived, Consistent, Distinct;
  }

  /** The receiver rebuilds the sender's CIST vector, hops and times exactly. */
  lemma CistRoundTrip(cfg: BridgeConfig, from: Port, cfg': BridgeConfig, to: Port)
    requires Sender(cfg, from) && Receiver(cfg', to, cfg.configId) && from.rv[0].role != RoleMaster
    ensures var i := PI.RcvInfo(cfg', Heard(cfg, from, cfg', to), 0);
      && i.msgPriority == from.sel[0].designatedPriority
      && i.msgTimes == from.sel[0].designatedTimes.(helloTime := from.info[0].portTimes.helloTime)
  {
    hide PT.MstiMessages, PT.BlankBpdu, PT.TreeFlags, Heard, Consistent, PI.Classify;
    HeardBpdu(cfg, from, cfg', to);
    FlagsRoundTrip(from, 0);
  }

  /** For every MSTI both bridges have, the receiver finds the sender's message and rebuilds its vector and hops
      exactly; the two CIST components of the vector stay as they were. */
  lemma MstiRoundTrip(cfg: BridgeConfig, from: Port, cfg': BridgeConfig, to: Port, t: nat, t': nat)
    requires Sender(cfg, from) && Receiver(cfg', to, cfg.configId)
    requires 1 <= t < |cfg.mstids| && 1 <= t' < |cfg'.mstids| && cfg'.mstids[t'] == cfg.mstids[t]
    requires from.rv[t].role != RoleMaster
    ensures var r := Heard(cfg, from, cfg', to);
      && r.info[t'].rcvdMsg
      && PI.RcvInfo(cfg', r, t').msgPriority
         == from.sel[t].designatedPriority.(rootId := to.info[t'].msgPriority.rootId,
             extCost := to.info[t'].msgPriority.extCost)
      && PI.RcvInfo(cfg', r, t').msgTimes ==
          to.info[t'].msgTimes.(remainingHops := from.sel[t].designatedTimes.remainingHops)
  {
    hide PT.BlankBpdu, PT.TreeFlags, Heard, PI.Classify, PM.MstidOf, PI.MakeBridgeId, PI.MakePortId;
    hide PT.BridgePriorityOctet, PT.PortPriorityOctet, PM.FindMsti, Distinct;
    HeardBpdu(cfg, from, cfg', to);
    MessageIsFound(cfg, from, t);
    FlagsRoundTrip(from, t);
    var des, cist := from.sel[t].designatedPriority, from.sel[0].designatedPriority;
    BridgeIdRoundTrip(des.desBridge, cfg.mstids[t], cist.desBridge);
    PortIdRoundTrip(des.desPort, cist.desPort);
  }
}
