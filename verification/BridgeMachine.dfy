/**
 The state machines of one bridge as they run: an object whose ports and trees are updated in place.

 Every `..._run` method makes the transitions of its machine one after the other, or in a dry run only tells
 whether it would; its postcondition ties the new state to the functions of the other modules.
 */
module BridgeMachine {
  import opened Types
  import opened Priority
  import opened PortInvariant
  import opened BridgeRun
  import opened Events
  import PI = PortInformation
  import PM = PortMachines
  import PT = PortTransmit
  import RS = RoleSelection
  import RT = RoleTransitions
  import RM = RoleMachine
  import TC = TopologyChange

  class BridgeMachine {
    var cfg: BridgeConfig
    var trees: seq<Tree>
    var ports: seq<Port>

    ghost function State(): Bridge reads this { Bridge(cfg, trees, ports) }

    ghost predicate Valid() reads this { BridgeOk(State()) }

    constructor (b: Bridge)
      requires BridgeOk(b)
      ensures Valid() && State() == b
    {
      cfg, trees, ports := b.cfg, b.trees, b.ports;
    }

    // ---- 13.28 Port Receive -------------------------------------------------------------------------

    /** `setRcvdMsgs`. */
    method SetRcvdMsgs(p: nat)
      requires p < |ports| && PortShape(cfg, ports[p]) && ports[p].rx.numMstis <= MAX_STANDARD_MSTIS
      modifies this`ports
      ensures ports == old(ports)[p := old(ports[p]).(info := PM.SetRcvdMsgs(cfg, old(ports[p])))]
    {
      var prt := ports[p];
      var info := prt.info[0 := prt.info[0].(rcvdMsg := true)];
      var t := 1;
      while t < |info|
        invariant ports == old(ports) && 1 <= t <= |info| == |prt.info|
        invariant forall i :: 0 <= i < t ==> info[i] == PM.SetRcvdMsgs(cfg, prt)[i]
        invariant forall i :: t <= i < |info| ==> info[i] == prt.info[i]
      {
        if prt.rx.rcvdInternal {
          var found := FindMsti(prt.rx.bpdu.mstis, prt.rx.numMstis, cfg.mstids[t]);
          if found.Some? {
            info := info[t := info[t].(rcvdMsg := true, rcvdMsti := found.value)];
          }
        }
        t := t + 1;
      }
      assert info == PM.SetRcvdMsgs(cfg, prt);
      ports := ports[p := prt.(info := info)];
    }

    /** The search in `setRcvdMsgs` for the message of one tree. */
    static method FindMsti(mstis: seq<MstiMessage>, n: nat, mstid: U16) returns (r: Option<MstiIndex>)
      requires n <= |mstis| == MAX_STANDARD_MSTIS
      ensures r == PM.FindMsti(mstis, 0, n, mstid)
    {
      var i := 0;
      while i < n
        invariant 0 <= i <= n
        invariant PM.FindMsti(mstis, 0, n, mstid) == PM.FindMsti(mstis, i, n, mstid)
      {
        if PM.MstidOf(mstis[i].rRootId) == mstid { return Some(i); }
        i := i + 1;
      }
      return None;
    }

    /** The loop in `PRSM_run` that looks for a pending message. */
    static method RcvdAnyMsg(prt: Port) returns (any: bool)
      ensures any == PM.RcvdAnyMsg(prt)
    {
      var t := 0;
      while t < |prt.info|
        invariant 0 <= t <= |prt.info| && forall i :: 0 <= i < t ==> !prt.info[i].rcvdMsg
      {
        if prt.info[t].rcvdMsg { return true; }
        t := t + 1;
      }
      return false;
    }

    /** `PRSM_run`. */
    method PrsmRun(p: nat, dryRun: bool) returns (changes: bool)
      requires p < |ports| && PortShape(cfg, ports[p]) && ports[p].rx.numMstis <= MAX_STANDARD_MSTIS
      modifies this`ports
      ensures dryRun ==> ports == old(ports) && changes == PM.NextReceive(cfg, ports[p]).Some?
      ensures !dryRun ==> ports == old(ports)[p := PM.RunReceive(cfg, old(ports[p]))]
    {
      hide PM.SetRcvdMsgs, PM.FromSameRegion, PM.RcvdAnyMsg, PM.EnterDiscard;
      var prt := ports[p];
      if (prt.rx.rcvdBpdu || prt.rx.edgeDelayWhile != cfg.migrateTime) && !prt.cfg.portEnabled {
        if dryRun { return true; }
        ports := ports[p := PM.EnterDiscard(cfg, prt)];
        return false;
      }
      var rcvdAnyMsg := false;
      if prt.rx.state == RxReceive { rcvdAnyMsg := RcvdAnyMsg(prt); }
      if prt.rx.rcvdBpdu && prt.cfg.portEnabled && !rcvdAnyMsg {
        if dryRun { return true; }
        var rstp := prt.rx.bpdu.version >= PROTO_RSTP;
        ports := ports[p := prt.(rx := prt.rx.(state := RxReceive, rcvdRSTP := prt.rx.rcvdRSTP || rstp,
                                               rcvdSTP := prt.rx.rcvdSTP || !rstp,
                                               rcvdInternal := PM.FromSameRegion(cfg, prt)))];
        var ready := ports[p].(rx := ports[p].rx.(rcvdBpdu := false, edgeDelayWhile := cfg.migrateTime),
                               edge := ports[p].edge.(operEdge := false));
        ports := ports[p := ready];
        SetRcvdMsgs(p);
      }
      return false;
    }

    // ---- 13.29 Port Protocol Migration, 13.30 Bridge Detection --------------------------------------

    /** `PPMSM_run`. */
    method PpmsmRun(p: nat, dryRun: bool) returns (changes: bool)
      requires p < |ports|
      modifies this`ports
      ensures dryRun ==> ports == old(ports) && changes == PM.NextMigration(cfg, ports[p]).Some?
      ensures !dryRun ==> ports == old(ports)[p := PM.RunMigration(cfg, old(ports[p]))]
      decreases PM.MigrationMeasure(cfg, ports[p]), 1
    {
      var prt := ports[p];
      var m := prt.mig;
      match m.state {
        case CheckingRstp =>
          if m.mdelayWhile != cfg.migrateTime && !prt.cfg.portEnabled {
            if dryRun { return true; }
            ports := ports[p := prt.(mig := Migration(CheckingRstp, cfg.migrateTime, false, RstpVersion(cfg)))];
            return false;
          }
          if m.mdelayWhile == 0 {
            if dryRun { return true; }
            PpmsmToSensing(p);
          }
        case SelectingStp =>
          if m.mdelayWhile == 0 || !prt.cfg.portEnabled || m.mcheck {
            if dryRun { return true; }
            PpmsmToSensing(p);
          }
        case Sensing =>
          if !prt.cfg.portEnabled || m.mcheck || (RstpVersion(cfg) && !m.sendRSTP && prt.rx.rcvdRSTP) {
            if dryRun { return true; }
            ports := ports[p := prt.(mig := Migration(CheckingRstp, cfg.migrateTime, false, RstpVersion(cfg)))];
            return false;
          }
          if m.sendRSTP && prt.rx.rcvdSTP {
            if dryRun { return true; }
            ports := ports[p := prt.(mig := m.(state := SelectingStp, sendRSTP := false,
                mdelayWhile := cfg.migrateTime))];
            changes := PpmsmRun(p, false);
          }
      }
      return false;
    }

    /** `PPMSM_to_SENSING`. */
    method PpmsmToSensing(p: nat)
      requires p < |ports| && PM.NextMigration(cfg, ports[p]) == Some(Sensing)
      modifies this`ports
      ensures ports == old(ports)[p := PM.RunMigration(cfg, old(ports[p]))]
      decreases PM.MigrationMeasure(cfg, ports[p]), 0
    {
      var prt := ports[p];
      ports := ports[p := prt.(mig := prt.mig.(state := Sensing), rx := prt.rx.(rcvdRSTP := false, rcvdSTP := false))];
      var _ := PpmsmRun(p, false);
    }

    /** `BDSM_run`. */
    method BdsmRun(p: nat, dryRun: bool) returns (changes: bool)
      requires p < |ports| && 1 <= |ports[p].hs|
      modifies this`ports
      ensures dryRun ==> ports == old(ports) && changes == PM.NextEdge(ports[p]).Some?
      ensures !dryRun ==> ports == old(ports)[p := PM.RunEdge(old(ports[p]))]
    {
      var prt := ports[p];
      match prt.edge.state {
        case Edge =>
          if ((!prt.cfg.portEnabled || !prt.cfg.autoEdge) && !prt.cfg.adminEdge) || !prt.edge.operEdge {
            if dryRun { return true; }
            ports := ports[p := prt.(edge := EdgeVars(NotEdge, false))];
          }
        case NotEdge =>
          if (!prt.cfg.portEnabled && prt.cfg.adminEdge)
             || (prt.rx.edgeDelayWhile == 0 && prt.cfg.autoEdge && prt.mig.sendRSTP && prt.hs[0].proposing)
          {
            if dryRun { return true; }
            ports := ports[p := prt.(edge := EdgeVars(Edge, true))];
          }
      }
      return false;
    }

    // ---- 13.31 Port Transmit ------------------------------------------------------------------------

    /** The loop in `PTSM_run` over the nodes of a port. */
    static method ReadTransmit(prt: Port) returns (ready: bool, mstiMaster: bool)
      requires 1 <= |prt.info| == |prt.sel| == |prt.rv|
      ensures ready == PT.AllTransmitReady(prt)
      ensures ready ==> mstiMaster == PT.MstiMasterPort(prt)
    {
      if !prt.sel[0].selected || prt.info[0].updtInfo { return false, false; }
      mstiMaster := false;
      var t := 1;
      while t < |prt.info|
        invariant 1 <= t <= |prt.info|
        invariant forall i :: 0 <= i < t ==> prt.sel[i].selected && !prt.info[i].updtInfo
        invariant mstiMaster <==> exists i :: 1 <= i < t && prt.rv[i].role == RoleMaster
      {
        if !prt.sel[t].selected || prt.info[t].updtInfo { return false, false; }
        if prt.rv[t].role == RoleMaster { mstiMaster := true; }
        t := t + 1;
      }
      return true, mstiMaster;
    }

    /** The loop in `PTSM_to_TRANSMIT_PERIODIC` over the MSTIs. */
    static method SomeMstiPropagates(prt: Port) returns (some: bool)
      requires |prt.rv| == |prt.tc|
      ensures some == PT.SomeMstiPropagates(prt)
    {
      hide PT.DesignatedOrPropagatingRoot;
      var t := 1;
      while t < |prt.rv|
        invariant 1 <= t && forall i :: 1 <= i < t && i < |prt.rv| ==> !PT.DesignatedOrPropagatingRoot(prt, i)
      {
        if PT.DesignatedOrPropagatingRoot(prt, t) { return true; }
        t := t + 1;
      }
      return false;
    }

    /** `PTSM_to_TRANSMIT_CONFIG` to `PTSM_to_IDLE`, up to the call of `PTSM_run`. */
    static method PtsmActions(cfg: BridgeConfig, prt: Port, s: TransmitState) returns (r: Port)
      requires PortShape(cfg, prt) && |cfg.mstids| <= MAX_STANDARD_MSTIS && !s.TransmitInit?
      ensures r == PT.Enter(cfg, prt, s)
    {
      hide PT.Sent, PT.ConfigBpdu, PT.TcnBpdu, PT.RstBpdu, PT.MstBpdu, PT.MstBpduSize, PT.SomeMstiPropagates;
      var tx := prt.tx.(state := s);
      match s {
        case TransmitConfig =>
          tx := tx.(newInfo := false);
          tx := tx.(sent := PT.Sent(prt, PT.ConfigBpdu(cfg, prt), PT.CONFIG_BPDU_SIZE));
          tx := tx.(txCount := tx.txCount + 1, tcAck := false);
        case TransmitTcn =>
          tx := tx.(newInfo := false, sent := PT.Sent(prt, PT.TcnBpdu(), PT.TCN_BPDU_SIZE));
          tx := tx.(txCount := tx.txCount + 1);
        case TransmitRstp =>
          tx := tx.(newInfo := false, newInfoMsti := false);
          if cfg.version < PROTO_MSTP {
            tx := tx.(sent := PT.Sent(prt, PT.RstBpdu(cfg, prt), PT.RST_BPDU_SIZE));
          } else {
            tx := tx.(sent := PT.Sent(prt, PT.MstBpdu(cfg, prt), PT.MstBpduSize(cfg)));
          }
          tx := tx.(txCount := tx.txCount + 1, tcAck := false);
        case TransmitPeriodic =>
          var cist := prt.rv[0].role == RoleDesignated || (prt.rv[0].role == RoleRoot && prt.tc[0].tcWhile != 0);
          var msti := SomeMstiPropagates(prt);
          tx := tx.(newInfo := tx.newInfo || cist, newInfoMsti := tx.newInfoMsti || msti);
        case TransmitIdle =>
          tx := tx.(helloWhen := prt.info[0].portTimes.helloTime);
      }
      return prt.(tx := tx);
    }

    /** What follows a guard of `PTSM_run` on an enabled port. */
    method PtsmTo(p: nat, s: TransmitState)
      requires p < |ports| && PortShape(cfg, ports[p]) && |cfg.mstids| <= MAX_STANDARD_MSTIS
      requires ports[p].info[0].portTimes.helloTime > 0
      requires ports[p].cfg.portEnabled && PT.Next(cfg, ports[p]) == Some(s) && !s.TransmitInit?
      modifies this`ports
      ensures ports == old(ports)[p := PT.Run(cfg, old(ports[p]))]
      decreases PT.Measure(cfg, ports[p]), 0
    {
      hide PT.Next, PT.Enter, PT.Measure;
      PT.TransitionDecreases(cfg, ports[p]);
      var r := PtsmActions(cfg, ports[p], s);
      ports := ports[p := r];
      var _ := PtsmRun(p, false);
    }

    /** `PTSM_run`. */
    method PtsmRun(p: nat, dryRun: bool) returns (changes: bool)
      requires p < |ports| && PortShape(cfg, ports[p]) && |cfg.mstids| <= MAX_STANDARD_MSTIS
      requires ports[p].info[0].portTimes.helloTime > 0
      modifies this`ports
      ensures dryRun ==> ports == old(ports) && changes == PT.Next(cfg, ports[p]).Some?
      ensures !dryRun ==> ports == old(ports)[p := PT.Run(cfg, old(ports[p]))]
      decreases PT.Measure(cfg, ports[p]), 1
    {
      hide PT.Enter, PT.Measure, PT.AllTransmitReady, PT.MstiMasterPort;
      var prt := ports[p];
      var tx := prt.tx;
      if !prt.cfg.portEnabled {
        if dryRun { return tx.state != TransmitInit || !tx.newInfo || !tx.newInfoMsti || tx.txCount != 0; }
        TransmitInitOf(cfg, prt);
        ports := ports[p := prt.(tx := tx.(state := TransmitInit, newInfo := true, newInfoMsti := true, txCount := 0))];
        return false;
      }
      if tx.state != TransmitIdle {
        if dryRun { return true; }
        PtsmTo(p, TransmitIdle);
        return false;
      }
      var ready, mstiMaster := ReadTransmit(prt);
      if !ready { return false; }
      if tx.helloWhen == 0 {
        if dryRun { return true; }
        PtsmTo(p, TransmitPeriodic);
        return false;
      }
      if !(tx.txCount < cfg.holdCount) { return false; }
      if prt.cfg.bpduFilter { return false; }
      if prt.mig.sendRSTP {
        if tx.newInfo || (tx.newInfoMsti && !mstiMaster) || PT.AssurancePort(prt) {
          if dryRun { return true; }
          PtsmTo(p, TransmitRstp);
          return false;
        }
      } else {
        if tx.newInfo && prt.rv[0].role == RoleDesignated {
          if dryRun { return true; }
          PtsmTo(p, TransmitConfig);
          return false;
        }
        if tx.newInfo && prt.rv[0].role == RoleRoot {
          if dryRun { return true; }
          PtsmTo(p, TransmitTcn);
          return false;
        }
      }
      return false;
    }

    // ---- 13.32 Port Information ---------------------------------------------------------------------

    /** The flags the `PISM_to_*` functions set, in their order. */
    static method PismFlags(cfg: BridgeConfig, prt: Port, t: nat, s: InfoState) returns (r: Port)
      requires PortShape(cfg, prt) && t < |prt.hs|
      ensures r == PI.Flags(cfg, prt, t, s)
    {
      hide PI.RecordProposal, PI.SetTcFlags, PI.RecordAgreement, PI.RecordDispute, PI.RecordMastered, PI.RecordTcn;
      hide PI.BetterOrSameInfo, PI.SuperiorFlags;
      r := prt;
      match s {
        case InfoDisabled =>
          r := r.(hs := r.hs[t := r.hs[t].(proposing := false, proposed := false, agree := false, agreed := false)]);
        case InfoUpdate =>
          var h := PismUpdateFlags(prt, t);
          r := r.(hs := r.hs[t := h]);
        case InfoSuperior =>
          r := PismSuperiorFlags(cfg, prt, t);
        case InfoRepeated =>
          r := PI.RecordProposal(cfg, r, t);
          r := PI.SetTcFlags(cfg, r, t);
          r := PI.RecordAgreement(cfg, r, t);
        case InfoInferior =>
          r := PI.RecordDispute(cfg, r, t);
        case InfoNotDesignated =>
          r := PI.RecordAgreement(cfg, r, t);
          r := PI.SetTcFlags(cfg, r, t);
        case InfoReceive =>
          r := PI.RecordTcn(r);
          r := PI.RecordMastered(cfg, r, t);
        case _ =>
      }
    }

    /** The flags `PISM_to_UPDATE` sets. */
    static method PismUpdateFlags(prt: Port, t: nat) returns (h: Handshake)
      requires t < |prt.hs| == |prt.info| == |prt.sel|
      ensures var agreed := prt.hs[t].agreed
                && PI.BetterOrSameInfo(prt.info[t], prt.sel[t].designatedPriority, IoMine, t == 0);
        h == prt.hs[t].(proposing := false, proposed := false, agreed := agreed, synced := prt.hs[t].synced && agreed)
    {
      hide PI.BetterOrSameInfo;
      h := prt.hs[t].(proposing := false, proposed := false);
      h := h.(agreed := h.agreed && PI.BetterOrSameInfo(prt.info[t], prt.sel[t].designatedPriority, IoMine, t == 0));
      h := h.(synced := h.synced && h.agreed);
    }

    /** The flags `PISM_to_SUPERIOR_DESIGNATED` sets. */
    static method PismSuperiorFlags(cfg: BridgeConfig, prt: Port, t: nat) returns (r: Port)
      requires PortShape(cfg, prt) && t < |prt.hs|
      ensures r == PI.SuperiorFlags(cfg, prt, t)
    {
      hide PI.RecordProposal, PI.SetTcFlags, PI.RecordAgreement, PI.BetterOrSameInfo;
      var better := PI.BetterOrSameInfo(prt.info[t], prt.sel[t].designatedPriority, IoReceived, t == 0);
      r := prt.(hs := prt.hs[t := prt.hs[t].(agreed := false, proposing := false)]);
      r := PI.RecordProposal(cfg, r, t);
      r := PI.SetTcFlags(cfg, r, t);
      r := r.(hs := r.hs[t := r.hs[t].(agree := r.hs[t].agree && better)]);
      r := PI.RecordAgreement(cfg, r, t);
      r := r.(hs := r.hs[t := r.hs[t].(synced := r.hs[t].synced && r.hs[t].agreed)]);
    }

    /** The information the `PISM_to_*` functions record, in their order. */
    static method PismRecord(cfg: BridgeConfig, prt: Port, t: nat, s: InfoState) returns (i: Info, sel: Selection)
      requires PortShape(cfg, prt) && t < |prt.info|
      ensures i == PI.InfoAfter(cfg, prt, t, s) && sel == PI.SelAfter(prt.sel[t], s)
    {
      hide PI.RcvInfo, PI.RcvdInfoWhile;
      i, sel := prt.info[t].(state := s), prt.sel[t];
      match s {
        case InfoDisabled =>
          i := i.(rcvdMsg := false);
          i := i.(rcvdInfoWhile := 0, infoIs := IoDisabled);
          sel := sel.(reselect := true, selected := false);
        case InfoAged =>
          i := i.(infoIs := IoAged);
          sel := sel.(reselect := true, selected := false);
        case InfoUpdate =>
          i := i.(portPriority := sel.designatedPriority, portTimes := sel.designatedTimes);
          i := i.(updtInfo := false, infoIs := IoMine);
        case InfoSuperior =>
          i := i.(portPriority := i.msgPriority);
          i := i.(portTimes := i.msgTimes.(helloTime := i.portTimes.helloTime));
          var cist := if t == 0 then i.portTimes else prt.info[0].portTimes;
          i := i.(rcvdInfoWhile := PI.RcvdInfoWhile(prt.rx.rcvdInternal, cist, i.portTimes.remainingHops));
          i := i.(infoIs := IoReceived);
          sel := sel.(reselect := true, selected := false);
          i := i.(rcvdMsg := false);
        case InfoRepeated =>
          var cist := prt.info[0].portTimes;
          i := i.(rcvdInfoWhile := PI.RcvdInfoWhile(prt.rx.rcvdInternal, cist, i.portTimes.remainingHops));
          i := i.(rcvdMsg := false);
        case InfoReceive =>
          i := PI.RcvInfo(cfg, prt, t).(state := s);
        case InfoCurrent =>
        case _ =>
          i := i.(rcvdMsg := false);
      }
    }

    /** The actions of the `PISM_to_*` functions. */
    static method PismActions(cfg: BridgeConfig, prt: Port, t: nat, s: InfoState) returns (r: Port)
      requires PortShape(cfg, prt) && t < |prt.info|
      ensures r == PI.Enter(cfg, prt, t, s)
    {
      hide PI.Flags, PI.InfoAfter, PI.SelAfter;
      r := PismFlags(cfg, prt, t, s);
      var i, sel := PismRecord(cfg, prt, t, s);
      var tx := prt.tx;
      if s.InfoUpdate? && t == 0 { tx := tx.(newInfo := true); }
      if s.InfoUpdate? && t != 0 { tx := tx.(newInfoMsti := true); }
      if s.InfoSuperior? || s.InfoRepeated? { r := r.(flags := r.flags.(infoInternal := prt.rx.rcvdInternal)); }
      r := r.(info := prt.info[t := i], sel := prt.sel[t := sel], tx := tx);
    }

    /** What follows a guard of `PISM_run`. */
    method PismTo(p: nat, t: nat, s: InfoState)
      requires p < |ports| && PortShape(cfg, ports[p]) && t < |ports[p].info| && PI.Next(ports[p], t) == Some(s)
      modifies this`ports
      ensures ports == old(ports)[p := PI.Run(cfg, old(ports[p]), t)]
      decreases PI.Measure(ports[p].cfg.portEnabled, ports[p].info[t]), 0
    {
      hide PI.Next, PI.Enter, PI.Measure;
      PI.TransitionDecreases(cfg, ports[p], t);
      var r := PismActions(cfg, ports[p], t, s);
      ports := ports[p := r];
      var _ := PismRun(p, t, false);
    }

    /** `PISM_run`. */
    method PismRun(p: nat, t: nat, dryRun: bool) returns (changes: bool)
      requires p < |ports| && PortShape(cfg, ports[p]) && t < |ports[p].info|
      modifies this`ports
      ensures dryRun ==> ports == old(ports) && changes == PI.Next(ports[p], t).Some?
      ensures !dryRun ==> ports == old(ports)[p := PI.Run(cfg, old(ports[p]), t)]
      decreases PI.Measure(ports[p].cfg.portEnabled, ports[p].info[t]), 1
    {
      hide PI.Measure, PI.Enter;
      var prt := ports[p];
      var i, sel := prt.info[t], prt.sel[t];
      if !prt.cfg.portEnabled && i.infoIs != IoDisabled {
        if dryRun { return true; }
        PismTo(p, t, InfoDisabled);
        return false;
      }
      match i.state {
        case InfoDisabled =>
          if prt.cfg.portEnabled {
            if dryRun { return true; }
            PismTo(p, t, InfoAged);
            return false;
          }
          if i.rcvdMsg {
            if dryRun { return true; }
            PismTo(p, t, InfoDisabled);
          }
        case InfoAged =>
          if sel.selected && i.updtInfo {
            if dryRun { return true; }
            PismTo(p, t, InfoUpdate);
          }
        case InfoCurrent =>
          var rcvdXstMsg, updtXstInfo;
          if t == 0 {
            rcvdXstMsg, updtXstInfo := i.rcvdMsg, i.updtInfo;
          } else {
            var cist := prt.info[0];
            rcvdXstMsg, updtXstInfo := !cist.rcvdMsg && i.rcvdMsg, i.updtInfo || cist.updtInfo;
          }
          if rcvdXstMsg && !updtXstInfo {
            if dryRun { return true; }
            PismTo(p, t, InfoReceive);
            return false;
          }
          if i.infoIs == IoReceived && i.rcvdInfoWhile == 0 && !i.updtInfo && !rcvdXstMsg {
            if dryRun { return true; }
            PismTo(p, t, InfoAged);
            return false;
          }
          if sel.selected && i.updtInfo {
            if dryRun { return true; }
            PismTo(p, t, InfoUpdate);
          }
        case InfoReceive =>
          if dryRun { return true; }
          match i.rcvdInfo {
            case SuperiorDesignatedInfo => PismTo(p, t, InfoSuperior);
            case RepeatedDesignatedInfo => PismTo(p, t, InfoRepeated);
            case InferiorDesignatedInfo => PismTo(p, t, InfoInferior);
            case InferiorRootAlternateInfo => PismTo(p, t, InfoNotDesignated);
            case OtherInfo => PismTo(p, t, InfoOther);
          }
        case _ =>
          if dryRun { return true; }
          PismTo(p, t, InfoCurrent);
      }
      return false;
    }

    // ---- 13.33 Port Role Selection ------------------------------------------------------------------

    /** The root vector, port and times of `updtRolesTree`. */
    method SelectRoot(t: nat) returns (root: Option<nat>)
      requires Shape(State()) && t < |trees|
      modifies this`trees
      ensures trees == old(trees)[t := RS.NewTree(cfg, old(trees[t]), t, ports)]
      ensures root == RS.RootIndex(cfg, old(trees[t]), t, ports)
    {
      var tree := trees[t];
      var priority, portId := tree.bridgePriority, 0;
      root := None;
      var p := 0;
      while p < |ports|
        invariant 0 <= p <= |ports| && trees == old(trees)
        invariant RS.Best(priority, portId, root) == RS.Choose(cfg, tree, t, ports, p)
      {
        var prt := ports[p];
        var v := prt.info[t].portPriority;
        if prt.info[t].infoIs == IoReceived && !prt.cfg.restrictedRole && v.desBridge != tree.bridgeId {
          if prt.rx.rcvdInternal {
            v := v.(intCost := RS.SaturatingAdd(v.intCost, prt.conf[t].intPathCost));
          } else if t == 0 {
            v := v.(extCost := RS.SaturatingAdd(v.extCost, prt.cfg.extPathCost), rRootId := tree.bridgeId,
                intCost := 0);
          }
          if BetterOrSame(v, priority, prt.conf[t].portId, portId, t == 0) {
            priority, portId, root := v, prt.conf[t].portId, Some(p);
          }
        }
        p := p + 1;
      }
      var times := tree.bridgeTimes;
      if root.Some? {
        var prt := ports[root.value];
        times := prt.info[t].portTimes;
        if !prt.rx.rcvdInternal {
          times := times.(messageAge := (times.messageAge + 1) % 0x100);
        } else if times.remainingHops != 0 {
          times := times.(remainingHops := times.remainingHops - 1);
        }
      }
      trees := trees[t := tree.(rootPriority := priority, rootPortId := portId, rootTimes := times,
          state := RoleSelection)];
    }

    /** The selected role and `updtInfo` of one port in `updtRolesTree`, branch by branch. */
    method SelectRole(p: nat, t: nat, isRoot: bool)
      requires p < |ports| && t < |trees| && 1 <= |ports[p].info|
      requires t < |ports[p].info| == |ports[p].sel| == |ports[p].rv|
      modifies this`ports
      ensures ports == old(ports)[p := WithRole(trees[t], t, old(ports[p]), isRoot)]
    {
      var prt, cist := ports[p], t == 0;
      var i, des, times := prt.info[t], prt.sel[t].designatedPriority, prt.sel[t].designatedTimes;
      var role, updt := prt.sel[t].selectedRole, i.updtInfo;
      var same := SamePriorityAndTimers(i.portPriority, des, i.portTimes, times, cist);
      if i.infoIs == IoDisabled {
        role := RoleDisabled;
      } else if !cist && prt.info[0].infoIs == IoReceived && !prt.flags.infoInternal {
        role := if prt.sel[0].selectedRole == RoleRoot then RoleMaster else prt.sel[0].selectedRole;
        if !same { updt := true; }
      } else if i.infoIs == IoAged {
        role, updt := RoleDesignated, true;
      } else if i.infoIs == IoMine {
        role := RoleDesignated;
        if !same { updt := true; }
      } else {
        if isRoot {
          role, updt := RoleRoot, false;
        } else if BetterOrSame(i.portPriority, des, 0, 0, cist) {
          role := if i.portPriority.desBridge != trees[t].bridgeId then RoleAlternate else RoleBackup;
          updt := false;
        } else {
          role, updt := RoleDesignated, true;
        }
      }
      ports := ports[p := prt.(sel := prt.sel[t := prt.sel[t].(selectedRole := role)],
          info := prt.info[t := i.(updtInfo := updt)])];
      if cist && i.infoIs == IoReceived && role != prt.rv[t].role {
        ReselectMstis(p);
      }
    }

    /** `reselectMSTIs`. */
    method ReselectMstis(p: nat)
      requires p < |ports| && 1 <= |ports[p].sel|
      modifies this`ports
      ensures ports == old(ports)[p := old(ports[p]).(sel := MstisReselected(old(ports[p]).sel))]
    {
      var sel := ports[p].sel;
      var t := 1;
      while t < |sel|
        invariant 1 <= t <= |sel| == |old(ports)[p].sel| && ports == old(ports)
        invariant forall i :: 0 <= i < |sel| ==>
          sel[i] == if 1 <= i < t then old(ports)[p].sel[i].(reselect := true) else old(ports)[p].sel[i]
      {
        sel := sel[t := sel[t].(reselect := true)];
        t := t + 1;
      }
      assert sel == MstisReselected(old(ports)[p].sel);
      ports := ports[p := ports[p].(sel := sel)];
    }

    /** `syncMaster`. */
    method SyncMaster()
      modifies this`ports
      ensures |ports| == |old(ports)|
      ensures forall q :: 0 <= q < |ports| ==> ports[q] == old(ports)[q].(hs := RS.SyncMaster(old(ports)[q]))
    {
      var p := 0;
      while p < |ports|
        invariant 0 <= p <= |ports| == |old(ports)|
        invariant forall q :: 0 <= q < p ==> ports[q] == old(ports)[q].(hs := RS.SyncMaster(old(ports)[q]))
        invariant forall q :: p <= q < |ports| ==> ports[q] == old(ports)[q]
      {
        ghost var before := ports;
        var hs, t := ports[p].hs, 1;
        while t < |hs|
          invariant 1 <= t && |hs| == |ports[p].hs| && ports == before
          invariant forall i :: 0 <= i < |hs| ==>
            hs[i] == if i < t || i == 0 then RS.SyncMaster(ports[p])[i] else ports[p].hs[i]
        {
          if ports[p].flags.infoInternal {
            hs := hs[t := hs[t].(agree := false, agreed := false, synced := false, sync := true)];
          }
          t := t + 1;
        }
        assert hs == RS.SyncMaster(ports[p]);
        ports := ports[p := ports[p].(hs := hs)];
        p := p + 1;
      }
    }

    /** `PRSSM_run`. */
    method PrssmRun(t: nat, dryRun: bool) returns (changes: bool)
      requires Valid() && t < |trees|
      modifies this`trees, this`ports
      ensures Valid()
      ensures dryRun ==> State() == old(State()) && changes == RS.SelectionDue(State(), t)
      ensures !dryRun ==> State() == RS.RunSelection(old(State()), t)
    {
      hide PortOk, RS.EnterSelection;
      ShapeOfOk(State());
      var due := trees[t].state == InitTree;
      var p := 0;
      while p < |ports| && !due
        invariant 0 <= p <= |ports| && State() == old(State())
        invariant trees[t].state == InitTree ==> due
        invariant due ==> RS.SelectionDue(State(), t)
        invariant !due ==> forall q :: 0 <= q < p ==> !ports[q].sel[t].reselect
      {
        if ports[p].sel[t].reselect { due := true; }
        p := p + 1;
      }
      if dryRun || !due { return due; }
      SelectionKeepsBridge(State(), t);
      UpdtRolesTree(t);
      return false;
    }

    /** `PRSSM_to_ROLE_SELECTION`: clearReselectTree, updtRolesTree and setSelectedTree. */
    method UpdtRolesTree(t: nat)
      requires Shape(State()) && t < |trees|
      modifies this`trees, this`ports
      ensures State() == RS.EnterSelection(old(State()), t)
    {
      hide Marked, Designated, WithRole, RS.SelectPort, RS.NewTree, RS.RootIndex, RS.SyncMaster;
      ghost var b := State();
      MarkAll(t, false, false);
      ghost var cleared := ports;
      ClearedShape(b, cleared, t);
      var before := trees[t];
      var root := SelectRoot(t);
      ghost var tree := trees[t];
      SetDesignated(t);
      ghost var sync := RS.SyncsMaster(before, tree, t);
      ghost var designated := ports;
      if t == 0 && trees[t].rootPriority.rRootId != before.rootPriority.rRootId
         && (trees[t].rootPriority.extCost != 0 || before.rootPriority.extCost != 0) {
        SyncMaster();
      }
      ghost var synced := ports;
      SelectRoles(t, root);
      MarkAll(t, true, true);
      forall q | 0 <= q < |ports| ensures ports[q] == RS.SelectPort(tree, t, b.ports[q], root == Some(q), sync) {
        StagesSelectPort(tree, t, b.ports[q], root == Some(q), sync);
      }
      assert ports == RS.SelectPorts(cfg, tree, t, b.ports, root, sync);
    }

    /** `clearReselectTree`, and with `select` `setSelectedTree`. */
    method MarkAll(t: nat, select: bool, keepReselect: bool)
      requires forall q :: 0 <= q < |ports| ==> t < |ports[q].sel|
      modifies this`ports
      ensures |ports| == |old(ports)|
      ensures forall q :: 0 <= q < |ports| ==> ports[q] == Marked(old(ports)[q], t, select, keepReselect)
    {
      var p := 0;
      while p < |ports|
        invariant 0 <= p <= |ports| == |old(ports)|
        invariant forall q :: 0 <= q < p ==> ports[q] == Marked(old(ports)[q], t, select, keepReselect)
        invariant forall q :: p <= q < |ports| ==> ports[q] == old(ports)[q]
      {
        var s := ports[p].sel[t];
        s := s.(selected := s.selected || select, reselect := s.reselect && keepReselect);
        ports := ports[p := ports[p].(sel := ports[p].sel[t := s])];
        p := p + 1;
      }
    }

    /** Designated vectors and times of `updtRolesTree`. */
    method SetDesignated(t: nat)
      requires t < |trees| && forall q :: 0 <= q < |ports| ==> t < |ports[q].info| == |ports[q].sel| == |ports[q].conf|
      modifies this`ports
      ensures |ports| == |old(ports)|
      ensures forall q :: 0 <= q < |ports| ==> ports[q] == Designated(trees[t], old(ports)[q], t)
    {
      var p := 0;
      while p < |ports|
        invariant 0 <= p <= |ports| == |old(ports)|
        invariant forall q :: 0 <= q < p ==> ports[q] == Designated(trees[t], old(ports)[q], t)
        invariant forall q :: p <= q < |ports| ==> ports[q] == old(ports)[q]
      {
        var prt, tree := ports[p], trees[t];
        var des := tree.rootPriority.(desBridge := tree.bridgeId, desPort := prt.conf[t].portId);
        if t == 0 && !prt.mig.sendRSTP { des := des.(rRootId := tree.bridgeId); }
        var times := tree.rootTimes.(helloTime := prt.info[t].portTimes.helloTime);
        ports := ports[p := prt.(sel := prt.sel[t := prt.sel[t].(designatedPriority := des,
            designatedTimes := times)])];
        p := p + 1;
      }
    }

    /** The roles of all ports. */
    method SelectRoles(t: nat, root: Option<nat>)
      requires t < |trees| && forall q :: 0 <= q < |ports| ==> t < |ports[q].info| == |ports[q].sel| == |ports[q].rv|
      modifies this`ports
      ensures |ports| == |old(ports)|
      ensures forall q :: 0 <= q < |ports| ==> ports[q] == WithRole(trees[t], t, old(ports)[q], root == Some(q))
    {
      hide WithRole;
      var p := 0;
      while p < |ports|
        invariant 0 <= p <= |ports| == |old(ports)|
        invariant forall q :: 0 <= q < p ==> ports[q] == WithRole(trees[t], t, old(ports)[q], root == Some(q))
        invariant forall q :: p <= q < |ports| ==> ports[q] == old(ports)[q]
      {
        SelectRole(p, t, root == Some(p));
        p := p + 1;
      }
    }

    // ---- 13.34 Port Role Transitions ----------------------------------------------------------------

    /** The loops over the other ports of the tree in `allSynced` and `reRooted`. */
    method ReadOthers(p: nat, t: nat) returns (ready: bool, synced: bool, nonRootSynced: bool, reRooted: bool)
      requires forall q :: 0 <= q < |ports| ==> t < |ports[q].sel| == |ports[q].rv| == |ports[q].info| == |ports[q].hs|
      ensures ready <==> forall q :: 0 <= q < |ports| && q != p ==> RM.Ready(ports[q], t)
      ensures synced <==> forall q :: 0 <= q < |ports| && q != p ==> ports[q].hs[t].synced
      ensures nonRootSynced <==> forall q :: 0 <= q < |ports| && q != p ==>
        ports[q].rv[t].role == RoleRoot || ports[q].hs[t].synced
      ensures reRooted <==> forall q :: 0 <= q < |ports| && q != p ==> ports[q].rv[t].rrWhile == 0
    {
      hide RM.Ready;
      ready, synced, nonRootSynced, reRooted := true, true, true, true;
      var q := 0;
      while q < |ports|
        invariant 0 <= q <= |ports|
        invariant ready <==> forall i :: 0 <= i < q && i != p ==> RM.Ready(ports[i], t)
        invariant synced <==> forall i :: 0 <= i < q && i != p ==> ports[i].hs[t].synced
        invariant nonRootSynced <==> forall i :: 0 <= i < q && i != p ==>
          ports[i].rv[t].role == RoleRoot || ports[i].hs[t].synced
        invariant reRooted <==> forall i :: 0 <= i < q && i != p ==> ports[i].rv[t].rrWhile == 0
      {
        if q != p {
          var other := ports[q];
          if !RM.Ready(other, t) { ready := false; }
          if !other.hs[t].synced {
            synced := false;
            if other.rv[t].role != RoleRoot { nonRootSynced := false; }
          }
          if other.rv[t].rrWhile != 0 { reRooted := false; }
        }
        q := q + 1;
      }
    }

    /** The values `PRTSM_runr` works with. */
    method ReadEnv(p: nat, t: nat) returns (e: RT.Env)
      requires RM.InRange(State(), p, t)
      ensures e == RM.EnvOf(State(), p, t)
    {
      hide RM.Ready;
      var prt := ports[p];
      var ready, synced, nonRootSynced, reRooted := ReadOthers(p, t);
      var des, hello := prt.sel[0].designatedTimes, prt.info[0].portTimes.helloTime;
      e := RT.Env(des.maxAge, des.forwardDelay, if prt.mig.sendRSTP then hello else des.forwardDelay, hello,
                  prt.sel[t].selected && !prt.info[t].updtInfo, prt.sel[t].selectedRole,
                  prt.fw[t].learning, prt.fw[t].forwarding, prt.edge.operEdge, prt.mig.sendRSTP, prt.ba.inconsistent,
                  RstpVersion(cfg), ready, synced, nonRootSynced, reRooted);
    }

    /** `setSyncTree` and `setReRootTree`. */
    method RaiseInTree(p: nat, t: nat, s: RoleState)
      requires forall q :: 0 <= q < |ports| ==> t < |ports[q].hs|
      modifies this`ports
      ensures |ports| == |old(ports)|
      ensures forall q :: 0 <= q < |ports| ==>
        ports[q] == if q == p then old(ports)[q] else RM.OtherPort(old(ports)[q], t, s)
    {
      hide RM.OtherPort, RM.SyncsTree;
      var q := 0;
      while q < |ports|
        invariant 0 <= q <= |ports| == |old(ports)|
        invariant forall i :: 0 <= i < q ==>
          ports[i] == if i == p then old(ports)[i] else RM.OtherPort(old(ports)[i], t, s)
        invariant forall i :: q <= i < |ports| ==> ports[i] == old(ports)[i]
      {
        if q != p {
          var prt := ports[q];
          var h := prt.hs[t];
          if RM.SyncsTree(s) { h := h.(sync := true); }
          if s.ReRoot? { h := h.(reRoot := true); }
          var r := prt.(hs := prt.hs[t := h]);
          RaisedPort(prt, t, s);
          ports := ports[q := r];
        }
        q := q + 1;
      }
    }

    /** The actions of the `PRTSM_to_*` functions on the port itself. */
    static method PrtsmActions(cfg: BridgeConfig, e: RT.Env, prt: Port, t: nat, s: RoleState) returns (r: Port)
      requires t < |prt.hs| == |prt.rv|
      ensures r == RM.OwnPort(cfg, e, prt, t, s)
    {
      var n := PrtsmNode(e, RM.NodeOf(prt, t), s);
      var tx, rx := prt.tx, prt.rx;
      if s in {RootAgreed, DesignatedPropose, DesignatedAgreed, AlternateAgreed} {
        if t == 0 { tx := tx.(newInfo := true); } else { tx := tx.(newInfoMsti := true); }
      }
      if s == DesignatedPropose && t == 0 {
        var edgeDelay := if prt.cfg.operPointToPoint then cfg.migrateTime else e.maxAge;
        rx := rx.(edgeDelayWhile := edgeDelay);
      }
      return prt.(hs := prt.hs[t := n.hs], rv := prt.rv[t := n.rv], tx := tx, rx := rx);
    }

    /** The variables of the node. */
    static method PrtsmNode(e: RT.Env, n: RT.Node, s: RoleState) returns (r: RT.Node)
      ensures r == RT.Enter(e, n, s)
    {
      var h, v := n.hs, n.rv.(state := s);
      match s {
        case InitPort =>
          v := v.(role := RoleDisabled, learn := false, forward := false);
          h := h.(synced := false, sync := true, reRoot := true);
          v := v.(rrWhile := e.fwdDelay, fdWhile := e.maxAge, rbWhile := 0);
        case DisablePort => v := v.(role := RoleDisabled, learn := false, forward := false);
        case DisabledPort =>
          v := v.(fdWhile := e.maxAge, rrWhile := 0);
          h := h.(synced := true, sync := false, reRoot := false);
        case MasterProposed => h := h.(sync := true, proposed := false);
        case MasterAgreed => h := h.(proposed := false, sync := false, agree := true);
        case MasterSynced =>
          v := v.(rrWhile := 0);
          h := h.(synced := true, sync := false);
        case MasterRetired => h := h.(reRoot := false);
        case MasterForward =>
          v := v.(forward := true, fdWhile := 0);
          h := h.(agreed := e.sendRSTP);
        case MasterLearn => v := v.(learn := true, fdWhile := e.forwardDelay);
        case MasterDiscard =>
          v := v.(learn := false, forward := false, fdWhile := e.forwardDelay);
          h := h.(disputed := false);
        case MasterPort => v := v.(role := RoleMaster);
        case RootProposed => h := h.(sync := true, proposed := false);
        case RootAgreed => h := h.(proposed := false, sync := false, agree := true);
        case RootSynced => h := h.(synced := true, sync := false);
        case ReRoot => h := h.(reRoot := true);
        case RootForward => v := v.(fdWhile := 0, forward := true);
        case RootLearn => v := v.(fdWhile := e.forwardDelay, learn := true);
        case ReRooted => h := h.(reRoot := false);
        case RootPort => v := v.(role := RoleRoot, rrWhile := e.fwdDelay);
        case DesignatedPropose => h := h.(proposing := true);
        case DesignatedAgreed => h := h.(proposed := false, sync := false, agree := true);
        case DesignatedSynced =>
          v := v.(rrWhile := 0);
          h := h.(synced := true, sync := false);
        case DesignatedRetired => h := h.(reRoot := false);
        case DesignatedForward =>
          v := v.(forward := true, fdWhile := 0);
          h := h.(agreed := e.sendRSTP);
        case DesignatedLearn => v := v.(learn := true, fdWhile := e.forwardDelay);
        case DesignatedDiscard =>
          v := v.(learn := false, forward := false, fdWhile := e.forwardDelay);
          h := h.(disputed := false);
        case DesignatedPort => v := v.(role := RoleDesignated);
        case BlockPort => v := v.(role := e.selectedRole, learn := false, forward := false);
        case BackupPort => v := v.(rbWhile := 2 * e.helloTime);
        case AlternateProposed => h := h.(sync := true, proposed := false);
        case AlternateAgreed => h := h.(proposed := false, agree := true);
        case AlternatePort =>
          v := v.(fdWhile := e.forwardDelay, rrWhile := 0);
          h := h.(synced := true, sync := false, reRoot := false);
      }
      return RT.Node(h, v);
    }

    /** What follows a guard of `PRTSM_runr`, unless the depth is reached. */
    method PrtsmTo(p: nat, t: nat, depth: nat, e: RT.Env, s: RoleState)
      requires RM.InRange(State(), p, t) && e == RM.EnvOf(State(), p, t) && RM.Next(State(), p, t) == Some(s)
      modifies this`ports
      ensures State() == RM.Run(old(State()), p, t, depth)
      decreases depth, 0
    {
      hide RM.EnvOf, RT.Next, RM.OwnPort, RM.OtherPort;
      if depth == 0 { return; }
      ghost var b := State();
      var own := PrtsmActions(cfg, e, ports[p], t, s);
      RaiseInTree(p, t, s);
      ports := ports[p := own];
      assert ports == RM.Enter(b, p, t, s).ports;
      var _ := PrtsmRun(p, t, depth - 1, false);
    }

    /** `PRTSM_runr` on a Disabled port. */
    method PrtsmDisabled(p: nat, t: nat, depth: nat, e: RT.Env, dryRun: bool) returns (changes: bool)
      requires RM.InRange(State(), p, t) && e == RM.EnvOf(State(), p, t)
      requires RT.IsDisabledState(ports[p].rv[t].state) && !RT.RoleMustChange(e, RM.NodeOf(ports[p], t))
      modifies this`ports
      ensures dryRun ==> ports == old(ports) && changes == RM.Next(State(), p, t).Some?
      ensures !dryRun ==> State() == RM.Run(old(State()), p, t, depth)
      decreases depth, 1
    {
      hide RM.EnvOf, RT.Next;
      NextOnDisabled(e, RM.NodeOf(ports[p], t));
      var h, v := ports[p].hs[t], ports[p].rv[t];
      if v.state.InitPort? {
        if dryRun { return true; }
        PrtsmTo(p, t, depth, e, DisablePort);
        return false;
      }
      if v.state.DisablePort? && e.active && !e.learning && !e.forwarding {
        if dryRun { return true; }
        PrtsmTo(p, t, depth, e, DisabledPort);
        return false;
      }
      if v.state.DisabledPort? && e.active && (h.sync || h.reRoot || !h.synced || v.fdWhile != e.maxAge) {
        if dryRun { return true; }
        PrtsmTo(p, t, depth, e, DisabledPort);
        return false;
      }
      return false;
    }

    /** `PRTSM_runr` on a Master port. */
    method PrtsmMaster(p: nat, t: nat, depth: nat, e: RT.Env, dryRun: bool) returns (changes: bool)
      requires RM.InRange(State(), p, t) && e == RM.EnvOf(State(), p, t)
      requires RT.IsMasterState(ports[p].rv[t].state) && !RT.RoleMustChange(e, RM.NodeOf(ports[p], t))
      modifies this`ports
      ensures dryRun ==> ports == old(ports) && changes == RM.Next(State(), p, t).Some?
      ensures !dryRun ==> State() == RM.Run(old(State()), p, t, depth)
      decreases depth, 1
    {
      hide RM.EnvOf, RT.Next, RT.AllSynced;
      NextOnMaster(e, RM.NodeOf(ports[p], t));
      var h, v := ports[p].hs[t], ports[p].rv[t];
      if !v.state.MasterPort? {
        if dryRun { return true; }
        PrtsmTo(p, t, depth, e, MasterPort);
        return false;
      }
      if !e.active { return false; }
      var allSynced := RT.AllSynced(e, RM.NodeOf(ports[p], t));
      if h.reRoot && v.rrWhile == 0 {
        if dryRun { return true; }
        PrtsmTo(p, t, depth, e, MasterRetired);
        return false;
      }
      if (!e.learning && !e.forwarding && !h.synced) || (h.agreed && !h.synced) || (e.operEdge && !h.synced)
         || (h.sync && h.synced)
      {
        if dryRun { return true; }
        PrtsmTo(p, t, depth, e, MasterSynced);
        return false;
      }
      if (allSynced && !h.agree) || (h.proposed && h.agree) {
        if dryRun { return true; }
        PrtsmTo(p, t, depth, e, MasterAgreed);
        return false;
      }
      if h.proposed && !h.agree {
        if dryRun { return true; }
        PrtsmTo(p, t, depth, e, MasterProposed);
        return false;
      }
      if (v.fdWhile == 0 || allSynced) && v.learn && !v.forward {
        if dryRun { return true; }
        PrtsmTo(p, t, depth, e, MasterForward);
        return false;
      }
      if (v.fdWhile == 0 || allSynced) && !v.learn {
        if dryRun { return true; }
        PrtsmTo(p, t, depth, e, MasterLearn);
        return false;
      }
      if ((h.sync && !h.synced) || (h.reRoot && v.rrWhile != 0) || h.disputed)
         && !e.operEdge && (v.learn || v.forward)
      {
        if dryRun { return true; }
        PrtsmTo(p, t, depth, e, MasterDiscard);
        return false;
      }
      return false;
    }

    /** `PRTSM_runr` on a Root port. */
    method PrtsmRoot(p: nat, t: nat, depth: nat, e: RT.Env, dryRun: bool) returns (changes: bool)
      requires RM.InRange(State(), p, t) && e == RM.EnvOf(State(), p, t)
      requires RT.IsRootState(ports[p].rv[t].state) && !RT.RoleMustChange(e, RM.NodeOf(ports[p], t))
      modifies this`ports
      ensures dryRun ==> ports == old(ports) && changes == RM.Next(State(), p, t).Some?
      ensures !dryRun ==> State() == RM.Run(old(State()), p, t, depth)
      decreases depth, 1
    {
      hide RM.EnvOf, RT.Next, RT.AllSynced;
      NextOnRoot(e, RM.NodeOf(ports[p], t));
      var h, v := ports[p].hs[t], ports[p].rv[t];
      if !v.state.RootPort? {
        if dryRun { return true; }
        PrtsmTo(p, t, depth, e, RootPort);
        return false;
      }
      if !e.active { return false; }
      var allSynced := RT.AllSynced(e, RM.NodeOf(ports[p], t));
      if !v.forward && !h.reRoot {
        if dryRun { return true; }
        PrtsmTo(p, t, depth, e, ReRoot);
        return false;
      }
      if (h.agreed && !h.synced) || (h.sync && h.synced) {
        if dryRun { return true; }
        PrtsmTo(p, t, depth, e, RootSynced);
        return false;
      }
      if (allSynced && !h.agree) || (h.proposed && h.agree) {
        if dryRun { return true; }
        PrtsmTo(p, t, depth, e, RootAgreed);
        return false;
      }
      if h.proposed && !h.agree {
        if dryRun { return true; }
        PrtsmTo(p, t, depth, e, RootProposed);
        return false;
      }
      if v.fdWhile == 0 || (e.reRooted && v.rbWhile == 0 && e.rstp) {
        if !v.learn {
          if dryRun { return true; }
          PrtsmTo(p, t, depth, e, RootLearn);
          return false;
        }
        if !v.forward {
          if dryRun { return true; }
          PrtsmTo(p, t, depth, e, RootForward);
          return false;
        }
      }
      if h.reRoot && v.forward {
        if dryRun { return true; }
        PrtsmTo(p, t, depth, e, ReRooted);
        return false;
      }
      if v.rrWhile != e.fwdDelay {
        if dryRun { return true; }
        PrtsmTo(p, t, depth, e, RootPort);
        return false;
      }
      return false;
    }

    /** `PRTSM_runr` on a Designated port. */
    method PrtsmDesignated(p: nat, t: nat, depth: nat, e: RT.Env, dryRun: bool) returns (changes: bool)
      requires RM.InRange(State(), p, t) && e == RM.EnvOf(State(), p, t)
      requires RT.IsDesignatedState(ports[p].rv[t].state) && !RT.RoleMustChange(e, RM.NodeOf(ports[p], t))
      modifies this`ports
      ensures dryRun ==> ports == old(ports) && changes == RM.Next(State(), p, t).Some?
      ensures !dryRun ==> State() == RM.Run(old(State()), p, t, depth)
      decreases depth, 1
    {
      hide RM.EnvOf, RT.Next, RT.AllSynced;
      NextOnDesignated(e, RM.NodeOf(ports[p], t));
      var h, v := ports[p].hs[t], ports[p].rv[t];
      if !v.state.DesignatedPort? {
        if dryRun { return true; }
        PrtsmTo(p, t, depth, e, DesignatedPort);
        return false;
      }
      if !e.active { return false; }
      var allSynced := RT.AllSynced(e, RM.NodeOf(ports[p], t));
      if h.reRoot && v.rrWhile == 0 {
        if dryRun { return true; }
        PrtsmTo(p, t, depth, e, DesignatedRetired);
        return false;
      }
      if (!e.learning && !e.forwarding && !h.synced) || (h.agreed && !h.synced) || (e.operEdge && !h.synced)
         || (h.sync && h.synced)
      {
        if dryRun { return true; }
        PrtsmTo(p, t, depth, e, DesignatedSynced);
        return false;
      }
      if allSynced && (h.proposed || !h.agree) {
        if dryRun { return true; }
        PrtsmTo(p, t, depth, e, DesignatedAgreed);
        return false;
      }
      if !v.forward && !h.agreed && !h.proposing && !e.operEdge {
        if dryRun { return true; }
        PrtsmTo(p, t, depth, e, DesignatedPropose);
        return false;
      }
      if (v.fdWhile == 0 || h.agreed || e.operEdge) && (v.rrWhile == 0 || !h.reRoot) && !h.sync && !e.baInconsistent {
        if !v.learn {
          if dryRun { return true; }
          PrtsmTo(p, t, depth, e, DesignatedLearn);
          return false;
        }
        if !v.forward {
          if dryRun { return true; }
          PrtsmTo(p, t, depth, e, DesignatedForward);
          return false;
        }
      }
      if ((h.sync && !h.synced) || (h.reRoot && v.rrWhile != 0) || h.disputed || e.baInconsistent)
         && !e.operEdge && (v.learn || v.forward)
      {
        if dryRun { return true; }
        PrtsmTo(p, t, depth, e, DesignatedDiscard);
        return false;
      }
      return false;
    }

    /** `PRTSM_runr` on a Alternate or Backup port. */
    method PrtsmAlternate(p: nat, t: nat, depth: nat, e: RT.Env, dryRun: bool) returns (changes: bool)
      requires RM.InRange(State(), p, t) && e == RM.EnvOf(State(), p, t)
      requires !RT.IsDisabledState(ports[p].rv[t].state) && !RT.IsMasterState(ports[p].rv[t].state)
      requires !RT.IsRootState(ports[p].rv[t].state) && !RT.IsDesignatedState(ports[p].rv[t].state)
      requires !RT.RoleMustChange(e, RM.NodeOf(ports[p], t))
      modifies this`ports
      ensures dryRun ==> ports == old(ports) && changes == RM.Next(State(), p, t).Some?
      ensures !dryRun ==> State() == RM.Run(old(State()), p, t, depth)
      decreases depth, 1
    {
      hide RM.EnvOf, RT.Next, RT.AllSynced;
      NextOnAlternate(e, RM.NodeOf(ports[p], t));
      var h, v := ports[p].hs[t], ports[p].rv[t];
      if v.state.BlockPort? && !(e.active && !e.learning && !e.forwarding) { return false; }
      if !v.state.AlternatePort? {
        if dryRun { return true; }
        PrtsmTo(p, t, depth, e, AlternatePort);
        return false;
      }
      if !e.active { return false; }
      var allSynced := RT.AllSynced(e, RM.NodeOf(ports[p], t));
      if (allSynced && !h.agree) || (h.proposed && h.agree) {
        if dryRun { return true; }
        PrtsmTo(p, t, depth, e, AlternateAgreed);
        return false;
      }
      if h.proposed && !h.agree {
        if dryRun { return true; }
        PrtsmTo(p, t, depth, e, AlternateProposed);
        return false;
      }
      if v.rbWhile != 2 * e.helloTime && v.role == RoleBackup {
        if dryRun { return true; }
        PrtsmTo(p, t, depth, e, BackupPort);
        return false;
      }
      if v.fdWhile != e.forwardDelay || h.sync || h.reRoot || !h.synced {
        if dryRun { return true; }
        PrtsmTo(p, t, depth, e, AlternatePort);
        return false;
      }
      return false;
    }

    /** `PRTSM_runr`; `depth` bounds the recursion. */
    method PrtsmRun(p: nat, t: nat, depth: nat, dryRun: bool) returns (changes: bool)
      requires RM.InRange(State(), p, t)
      modifies this`ports
      ensures dryRun ==> ports == old(ports) && changes == RM.Next(State(), p, t).Some?
      ensures !dryRun ==> State() == RM.Run(old(State()), p, t, depth)
      decreases depth, 2
    {
      hide RM.EnvOf, RT.Next;
      var e := ReadEnv(p, t);
      var v := ports[p].rv[t];
      if v.role != e.selectedRole && e.active {
        NextOnRoleChange(e, RM.NodeOf(ports[p], t));
        if dryRun { return true; }
        match e.selectedRole {
          case RoleDisabled => PrtsmTo(p, t, depth, e, DisablePort);
          case RoleMaster => PrtsmTo(p, t, depth, e, MasterPort);
          case RoleRoot => PrtsmTo(p, t, depth, e, RootPort);
          case RoleDesignated => PrtsmTo(p, t, depth, e, DesignatedPort);
          case RoleAlternate => PrtsmTo(p, t, depth, e, BlockPort);
          case RoleBackup => PrtsmTo(p, t, depth, e, BlockPort);
        }
        return false;
      }
      if RT.IsDisabledState(v.state) {
        changes := PrtsmDisabled(p, t, depth, e, dryRun);
      } else if RT.IsMasterState(v.state) {
        changes := PrtsmMaster(p, t, depth, e, dryRun);
      } else if RT.IsRootState(v.state) {
        changes := PrtsmRoot(p, t, depth, e, dryRun);
      } else if RT.IsDesignatedState(v.state) {
        changes := PrtsmDesignated(p, t, depth, e, dryRun);
      } else {
        changes := PrtsmAlternate(p, t, depth, e, dryRun);
      }
    }

    // ---- 13.35 Port State Transition ----------------------------------------------------------------

    /** `PSTSM_run`. */
    method PstsmRun(p: nat, t: nat, dryRun: bool) returns (changes: bool)
      requires p < |ports| && t < |ports[p].rv| == |ports[p].fw|
      modifies this`ports
      ensures dryRun ==> ports == old(ports) && changes == PM.NextForwarding(ports[p].rv[t], ports[p].fw[t]).Some?
      ensures !dryRun ==> ports == old(ports)[p := old(ports[p]).(fw := old(ports[p]).fw[t :=
                            PM.RunForwarding(old(ports[p]).cfg.deleted, old(ports[p]).rv[t], old(ports[p]).fw[t])])]
      decreases PM.ForwardingMeasure(ports[p].rv[t], ports[p].fw[t]), 1
    {
      var prt := ports[p];
      var rv, fw, deleted := prt.rv[t], prt.fw[t], prt.cfg.deleted;
      assert prt.fw[t := fw] == prt.fw && ports[p := prt] == ports;
      match fw.state {
        case Discarding =>
          if rv.learn {
            if dryRun { return true; }
            PstsmTo(p, t, ForwardingVars(Learning, true, fw.forwarding, if deleted then fw.brState else BrLearning));
          }
        case Learning =>
          if !rv.learn {
            if dryRun { return true; }
            PstsmTo(p, t, ForwardingVars(Discarding, false, false, if deleted then fw.brState else BrBlocking));
          } else if rv.forward {
            if dryRun { return true; }
            var r := ForwardingVars(Forwarding, fw.learning, true, if deleted then fw.brState else BrForwarding);
            ports := ports[p := prt.(fw := prt.fw[t := r])];
          }
        case Forwarding =>
          if !rv.forward {
            if dryRun { return true; }
            PstsmTo(p, t, ForwardingVars(Discarding, false, false, if deleted then fw.brState else BrBlocking));
          }
      }
      return false;
    }

    /** `PSTSM_to_DISCARDING` and `PSTSM_to_LEARNING`. */
    method PstsmTo(p: nat, t: nat, r: ForwardingVars)
      requires p < |ports| && t < |ports[p].rv| == |ports[p].fw|
      requires PM.NextForwarding(ports[p].rv[t], ports[p].fw[t]) == Some(r.state)
      requires r == PM.EnterForwarding(ports[p].cfg.deleted, ports[p].fw[t], r.state)
      modifies this`ports
      ensures ports == old(ports)[p := old(ports[p]).(fw := old(ports[p]).fw[t :=
                         PM.RunForwarding(old(ports[p]).cfg.deleted, old(ports[p]).rv[t], old(ports[p]).fw[t])])]
      decreases PM.ForwardingMeasure(ports[p].rv[t], ports[p].fw[t]), 0
    {
      var prt := ports[p];
      ports := ports[p := prt.(fw := prt.fw[t := r])];
      var _ := PstsmRun(p, t, false);
      ghost var last := PM.RunForwarding(prt.cfg.deleted, prt.rv[t], r);
      assert prt.fw[t := r][t := last] == prt.fw[t := last];
    }

    // ---- 13.36 Topology Change ----------------------------------------------------------------------

    /** `setTcPropTree`. */
    method SetTcPropTree(p: nat, t: nat)
      requires forall q :: 0 <= q < |ports| ==> t < |ports[q].tc|
      modifies this`ports
      ensures |ports| == |old(ports)|
      ensures forall q :: 0 <= q < |ports| ==>
        ports[q] == if q == p then old(ports)[q] else TC.OtherPort(old(ports)[q], t, true)
    {
      var q := 0;
      while q < |ports|
        invariant 0 <= q <= |ports| == |old(ports)|
        invariant forall i :: 0 <= i < q ==>
          ports[i] == if i == p then old(ports)[i] else TC.OtherPort(old(ports)[i], t, true)
        invariant forall i :: q <= i < |ports| ==> ports[i] == old(ports)[i]
      {
        if q != p {
          ports := ports[q := ports[q].(tc := ports[q].tc[t := ports[q].tc[t].(tcProp := true)])];
        }
        q := q + 1;
      }
    }

    /** The actions of the `TCSM_to_*` functions on the port itself. */
    static method TcsmActions(tree: Tree, prt: Port, t: nat, s: TopologyState) returns (r: Port)
      requires t < |prt.tc| == |prt.hs| == |prt.rv| && 1 <= |prt.info|
      ensures r == TC.OwnPort(tree, prt, t, s)
    {
      var c, h, flags, tx := prt.tc[t].(state := s), prt.hs[t], prt.flags, prt.tx;
      var raise := false;
      // newTcWhile
      if s in {TcDetected, TcNotifiedTcn, TcPropagating} && c.tcWhile == 0 {
        var while' := if prt.mig.sendRSTP then prt.info[0].portTimes.helloTime + 1
                      else tree.rootTimes.maxAge + tree.rootTimes.forwardDelay;
        c := c.(tcWhile := while');
        raise := prt.mig.sendRSTP;
      }
      match s {
        case TcInactive =>
          c := c.(fdbFlush := false, tcWhile := 0);
          if t == 0 { tx := tx.(tcAck := false); }
        case TcLearning =>
          if t == 0 { flags := flags.(rcvdTcn := false, rcvdTcAck := false); }
          h := h.(rcvdTc := false);
          c := c.(tcProp := false);
        case TcDetected => raise := true;
        case TcNotifiedTcn =>
        case TcNotifiedTc =>
          h := h.(rcvdTc := false);
          if t == 0 {
            flags := flags.(rcvdTcn := false);
            if prt.rv[t].role == RoleDesignated { tx := tx.(tcAck := true); }
          }
        case TcPropagating => c := c.(fdbFlush := false, tcProp := false);
        case TcAcknowledged =>
          c := c.(tcWhile := 0);
          flags := flags.(rcvdTcAck := false);
        case TcActive =>
      }
      if raise && t == 0 { tx := tx.(newInfo := true); }
      if raise && t != 0 { tx := tx.(newInfoMsti := true); }
      return prt.(tc := prt.tc[t := c], hs := prt.hs[t := h], flags := flags, tx := tx);
    }

    /** What follows a guard of `TCSM_run`. */
    method TcsmTo(p: nat, t: nat, s: TopologyState)
      requires TC.InRange(State(), p, t) && TC.Next(ports[p], t) == Some(s)
      modifies this`ports
      ensures State() == TC.Run(old(State()), p, t)
      decreases TC.Measure(ports[p], t), 0
    {
      hide TC.Next, TC.Measure, TC.OwnPort, TC.OtherPort;
      TC.TransitionDecreases(trees[t], ports[p], t);
      ghost var b := State();
      var propagate := (s == TcDetected || s == TcNotifiedTc) && !ports[p].cfg.restrictedTcn;
      var own := TcsmActions(trees[t], ports[p], t, s);
      if propagate { SetTcPropTree(p, t); }
      ports := ports[p := own];
      forall q | 0 <= q < |ports| && q != p ensures ports[q] == TC.OtherPort(b.ports[q], t, propagate) {
        if !propagate { NoPropagation(b.ports[q], t); }
      }
      assert ports == TC.Enter(b, p, t, s).ports;
      var _ := TcsmRun(p, t, false);
    }

    /** `TCSM_run`. */
    method TcsmRun(p: nat, t: nat, dryRun: bool) returns (changes: bool)
      requires TC.InRange(State(), p, t)
      modifies this`ports
      ensures dryRun ==> ports == old(ports) && changes == TC.Next(ports[p], t).Some?
      ensures !dryRun ==> State() == TC.Run(old(State()), p, t)
      decreases TC.Measure(ports[p], t), 1
    {
      hide TC.Measure, TC.Enter;
      var prt := ports[p];
      var c, h, v, flags := prt.tc[t], prt.hs[t], prt.rv[t], prt.flags;
      var activePort := v.role == RoleRoot || v.role == RoleDesignated || v.role == RoleMaster;
      match c.state {
        case TcInactive =>
          if v.learn && !c.fdbFlush {
            if dryRun { return true; }
            TcsmTo(p, t, TcLearning);
            return false;
          }
        case TcLearning =>
          if activePort && v.forward && !prt.edge.operEdge {
            if dryRun { return true; }
            TcsmTo(p, t, TcDetected);
            return false;
          }
          if h.rcvdTc || c.tcProp || (t == 0 && (flags.rcvdTcn || flags.rcvdTcAck)) {
            if dryRun { return true; }
            TcsmTo(p, t, TcLearning);
            return false;
          }
          if !activePort && !(v.learn || prt.fw[t].learning) {
            if dryRun { return true; }
            TcsmTo(p, t, TcInactive);
            return false;
          }
        case TcNotifiedTcn =>
          if dryRun { return true; }
          TcsmTo(p, t, TcNotifiedTc);
        case TcActive =>
          if !activePort || prt.edge.operEdge {
            if dryRun { return true; }
            TcsmTo(p, t, TcLearning);
            return false;
          }
          if t == 0 && flags.rcvdTcn {
            if dryRun { return true; }
            TcsmTo(p, t, TcNotifiedTcn);
            return false;
          }
          if h.rcvdTc {
            if dryRun { return true; }
            TcsmTo(p, t, TcNotifiedTc);
            return false;
          }
          if c.tcProp {
            if dryRun { return true; }
            TcsmTo(p, t, TcPropagating);
            return false;
          }
          if t == 0 && flags.rcvdTcAck {
            if dryRun { return true; }
            TcsmTo(p, t, TcAcknowledged);
            return false;
          }
        case _ =>
          if dryRun { return true; }
          TcsmTo(p, t, TcActive);
      }
      return false;
    }

    // ---- A pass -------------------------------------------------------------------------------------

    /** Port Information on all trees of a port. */
    method PismRunAll(p: nat, dryRun: bool) returns (changes: bool)
      requires p < |ports| && PortOk(cfg, ports[p])
      modifies this`ports
      ensures dryRun ==> ports == old(ports) && changes == InformationDue(ports[p])
      ensures !dryRun ==> ports == old(ports)[p := RunInformation(cfg, old(ports[p]), |cfg.mstids|)]
    {
      hide NodeOk, PI.Run, PI.Next;
      ghost var prt := ports[p];
      var t := 0;
      while t < |cfg.mstids|
        invariant 0 <= t <= |cfg.mstids| == |prt.info|
        invariant dryRun ==> ports == old(ports) && forall i :: 0 <= i < t ==> PI.Next(prt, i).None?
        invariant !dryRun ==> ports == old(ports)[p := RunInformation(cfg, prt, t)]
      {
        changes := PismRun(p, t, dryRun);
        if dryRun && changes { return true; }
        t := t + 1;
      }
      return false;
    }

    /** Port State Transition on all trees of a port. */
    method PstsmRunAll(p: nat, dryRun: bool) returns (changes: bool)
      requires p < |ports| && PortOk(cfg, ports[p])
      modifies this`ports
      ensures dryRun ==> ports == old(ports) && changes == ForwardingDue(ports[p])
      ensures !dryRun ==> ports == old(ports)[p := RunForwarding(old(ports[p]))]
    {
      hide NodeOk, PM.RunForwarding, PM.NextForwarding;
      ghost var prt := ports[p];
      var t := 0;
      while t < |cfg.mstids|
        invariant 0 <= t <= |cfg.mstids| == |prt.fw| && |ports| == |old(ports)| && |ports[p].fw| == |prt.fw|
        invariant dryRun ==> ports == old(ports) && forall i :: 0 <= i < t ==>
          PM.NextForwarding(prt.rv[i], prt.fw[i]).None?
        invariant !dryRun ==> ports == old(ports)[p := prt.(fw := ports[p].fw)]
        invariant !dryRun ==> forall i :: 0 <= i < |prt.fw| ==>
          ports[p].fw[i] == if i < t then PM.RunForwarding(prt.cfg.deleted, prt.rv[i], prt.fw[i]) else prt.fw[i]
      {
        changes := PstsmRun(p, t, dryRun);
        if dryRun && changes { return true; }
        t := t + 1;
      }
      assert !dryRun ==> ports[p].fw == RunForwarding(prt).fw;
      return false;
    }

    /** One step of the pass on one port. */
    method RunPort(k: Phase, p: nat, dryRun: bool) returns (changes: bool)
      requires Valid() && p < |ports|
      modifies this`ports
      ensures Valid()
      ensures dryRun ==> ports == old(ports) && changes == PhaseDue(k, cfg, ports[p])
      ensures !dryRun ==> ports == old(ports)[p := RunPhase(k, cfg, old(ports[p]))]
    {
      hide NodeOk, PM.RunReceive, PM.RunMigration, PM.RunEdge, PT.Run, RunInformation, RunForwarding, InformationDue;
      hide ForwardingDue;
      hide PM.NextReceive, PM.NextMigration, PM.NextEdge, PT.Next;
      ghost var prt := ports[p];
      HelloTimeIsFixed(cfg, prt);
      PhaseKeepsPort(k, cfg, prt);
      match k {
        case Assure =>
          changes := AssuranceExpires(ports[p]);
          if changes && !dryRun {
            ports := ports[p := ports[p].(ba := ports[p].ba.(inconsistent := true))];
          }
        case Receive => changes := PrsmRun(p, dryRun);
        case Migrate => changes := PpmsmRun(p, dryRun);
        case DetectEdge => changes := BdsmRun(p, dryRun);
        case Transmit => changes := PtsmRun(p, dryRun);
        case Inform => changes := PismRunAll(p, dryRun);
        case Forward => changes := PstsmRunAll(p, dryRun);
      }
    }

    /** One step of the pass on every port. */
    method RunEveryPort(k: Phase, dryRun: bool) returns (changes: bool)
      requires Valid()
      modifies this`ports
      ensures Valid()
      ensures dryRun ==>
        ports == old(ports) && (changes <==> exists p :: 0 <= p < |ports| && PhaseDue(k, cfg, ports[p]))
      ensures !dryRun ==> State() == RunPorts(k, old(State()))
    {
      hide PortOk, PhaseDue, RunPhase;
      ghost var b := State();
      var p := 0;
      while p < |ports|
        invariant Valid() && 0 <= p <= |ports| == |b.ports|
        invariant dryRun ==> ports == b.ports && forall q :: 0 <= q < p ==> !PhaseDue(k, cfg, ports[q])
        invariant !dryRun ==> forall q :: 0 <= q < p ==> ports[q] == RunPhase(k, cfg, b.ports[q])
        invariant !dryRun ==> forall q :: p <= q < |ports| ==> ports[q] == b.ports[q]
      {
        changes := RunPort(k, p, dryRun);
        if dryRun && changes { return true; }
        p := p + 1;
      }
      assert !dryRun ==> ports == RunPorts(k, b).ports;
      return false;
    }

    /** Port Role Selection on every tree. */
    method SelectEveryTree(dryRun: bool) returns (changes: bool)
      requires Valid()
      modifies this`trees, this`ports
      ensures Valid()
      ensures dryRun ==>
        State() == old(State()) && (changes <==> exists t :: 0 <= t < |trees| && RS.SelectionDue(State(), t))
      ensures !dryRun ==> State() == RunSelections(old(State()), |old(trees)|)
    {
      hide BridgeOk, RS.SelectionDue, RS.RunSelection;
      ghost var b := State();
      ShapeOfOk(b);
      var t := 0;
      while t < |trees|
        invariant Valid() && 0 <= t <= |trees| == |b.trees| && Shape(State())
        invariant dryRun ==> State() == b && forall i :: 0 <= i < t ==> !RS.SelectionDue(State(), i)
        invariant !dryRun ==> State() == RunSelections(b, t)
      {
        changes := PrssmRun(t, dryRun);
        if dryRun && changes { return true; }
        ShapeOfOk(State());
        t := t + 1;
      }
      return false;
    }

    /** Port Role Transitions on every tree of a port. */
    method RunRolesOfPort(p: nat, dryRun: bool) returns (changes: bool)
      requires Valid() && p < |ports|
      modifies this`ports
      ensures Valid()
      ensures dryRun ==>
        ports == old(ports) && Shape(State()) &&
          (changes <==> exists t :: 0 <= t < |trees| && RM.Next(State(), p, t).Some?)
      ensures !dryRun ==> State() == RunRolesOf(old(State()), p, |trees|)
    {
      hide BridgeOk, RM.Next, RM.Run;
      ghost var b := State();
      ShapeOfOk(b);
      var t := 0;
      while t < |trees|
        invariant Valid() && 0 <= t <= |trees| && |ports| == |b.ports| && Shape(State())
        invariant dryRun ==> ports == b.ports && forall i :: 0 <= i < t ==> RM.Next(State(), p, i).None?
        invariant !dryRun ==> State() == RunRolesOf(b, p, t)
      {
        if !dryRun { RolesKeepBridge(State(), p, t); }
        changes := PrtsmRun(p, t, RM.DEPTH, dryRun);
        if dryRun && changes { return true; }
        t := t + 1;
      }
      return false;
    }

    /** Topology Change on every tree of a port. */
    method RunTopologyOfPort(p: nat, dryRun: bool) returns (changes: bool)
      requires Valid() && p < |ports|
      modifies this`ports
      ensures Valid()
      ensures dryRun ==>
        ports == old(ports) && Shape(State()) &&
          (changes <==> exists t :: 0 <= t < |trees| && TC.Next(ports[p], t).Some?)
      ensures !dryRun ==> State() == RunTopologyOf(old(State()), p, |trees|)
    {
      hide BridgeOk, TC.Next, TC.Run;
      ghost var b := State();
      ShapeOfOk(b);
      var t := 0;
      while t < |trees|
        invariant Valid() && 0 <= t <= |trees| && |ports| == |b.ports| && Shape(State())
        invariant dryRun ==> ports == b.ports && forall i :: 0 <= i < t ==> TC.Next(ports[p], i).None?
        invariant !dryRun ==> State() == RunTopologyOf(b, p, t)
      {
        if !dryRun { TopologyKeepsBridge(State(), p, t); }
        changes := TcsmRun(p, t, dryRun);
        if dryRun && changes { return true; }
        t := t + 1;
      }
      return false;
    }

    /** Port Role Transitions on every port. */
    method RunEveryRole(dryRun: bool) returns (changes: bool)
      requires Valid()
      modifies this`ports
      ensures Valid() && Shape(State())
      ensures dryRun ==> ports == old(ports)
      ensures dryRun ==>
        (changes <==> exists p, t :: 0 <= p < |ports| && 0 <= t < |trees| && RM.Next(State(), p, t).Some?)
      ensures !dryRun ==> State() == RunRoles(old(State()), |old(ports)|)
    {
      hide BridgeOk, RM.Next, RunRolesOf;
      ghost var b := State();
      ShapeOfOk(b);
      var p := 0;
      while p < |ports|
        invariant Valid() && 0 <= p <= |ports| == |b.ports| && Shape(State())
        invariant dryRun ==> ports == b.ports && forall q, t :: 0 <= q < p && 0 <= t < |trees| ==>
          RM.Next(State(), q, t).None?
        invariant !dryRun ==> State() == RunRoles(b, p)
      {
        changes := RunRolesOfPort(p, dryRun);
        if dryRun && changes { return true; }
        ShapeOfOk(State());
        p := p + 1;
      }
      return false;
    }

    /** Topology Change on every port. */
    method RunEveryTopology(dryRun: bool) returns (changes: bool)
      requires Valid()
      modifies this`ports
      ensures Valid() && Shape(State())
      ensures dryRun ==> ports == old(ports)
      ensures dryRun ==>
        (changes <==> exists p, t :: 0 <= p < |ports| && 0 <= t < |trees| && TC.Next(ports[p], t).Some?)
      ensures !dryRun ==> State() == RunTopology(old(State()), |old(ports)|)
    {
      hide BridgeOk, TC.Next, RunTopologyOf;
      ghost var b := State();
      ShapeOfOk(b);
      var p := 0;
      while p < |ports|
        invariant Valid() && 0 <= p <= |ports| == |b.ports| && Shape(State())
        invariant dryRun ==> ports == b.ports && forall q, t :: 0 <= q < p && 0 <= t < |trees| ==>
          TC.Next(ports[q], t).None?
        invariant !dryRun ==> State() == RunTopology(b, p)
      {
        changes := RunTopologyOfPort(p, dryRun);
        if dryRun && changes { return true; }
        ShapeOfOk(State());
        p := p + 1;
      }
      return false;
    }

    /** `__br_state_machines_run`: a pass, or in a dry run the answer whether a pass would change anything. */
    method RunPass(dryRun: bool) returns (changes: bool)
      requires Valid()
      modifies this`trees, this`ports
      ensures Valid()
      ensures dryRun ==> State() == old(State()) && changes == !Settled(State())
      ensures !dryRun ==> State() == RunOnce(old(State()))
    {
      hide BridgeOk, PhaseDue, RS.SelectionDue, RM.Next, TC.Next, RunPorts, RunSelections, RunRoles, RunTopology;
      changes := RunEveryPort(Assure, dryRun);
      if dryRun && changes { return true; }
      changes := RunEveryPort(Receive, dryRun);
      if dryRun && changes { return true; }
      changes := RunEveryPort(Migrate, dryRun);
      if dryRun && changes { return true; }
      changes := RunEveryPort(DetectEdge, dryRun);
      if dryRun && changes { return true; }
      changes := RunEveryPort(Transmit, dryRun);
      if dryRun && changes { return true; }
      changes := RunEveryPort(Inform, dryRun);
      if dryRun && changes { return true; }
      changes := SelectEveryTree(dryRun);
      if dryRun && changes { return true; }
      changes := RunEveryRole(dryRun);
      if dryRun && changes { return true; }
      changes := RunEveryPort(Forward, dryRun);
      if dryRun && changes { return true; }
      changes := RunEveryTopology(dryRun);
      if dryRun {
        if !changes { AllPhases(State()); }
        return changes;
      }
      return false;
    }

    /** `br_state_machines_run`: passes until the dry run finds nothing to do; time runs out after `limit`. */
    method RunStateMachines(limit: PassLimit)
      requires Valid()
      modifies this`trees, this`ports
      ensures Valid() && State() == RunMachines(old(State()), limit)
    {
      hide BridgeOk, Settled, RunOnce;
      ghost var b := State();
      var n := 0;
      while n < limit
        invariant Valid() && 0 <= n <= limit && State().cfg == b.cfg
        invariant RunMachines(b, limit) == RunMachines(State(), limit - n)
      {
        var changes := RunPass(true);
        if !changes { return; }
        changes := RunPass(false);
        n := n + 1;
      }
    }

    // ---- Events -------------------------------------------------------------------------------------

    /** `PTSM_tick`. */
    method TickOne(p: nat)
      requires p < |ports|
      modifies this`ports
      ensures ports == old(ports)[p := TickPort(old(ports[p]))]
    {
      var prt := ports[p];
      var info, rv, tc := prt.info, prt.rv, prt.tc;
      var t := 0;
      while t < |info| || t < |rv| || t < |tc|
        invariant 0 <= t && ports == old(ports)
        invariant |info| == |prt.info| && |rv| == |prt.rv| && |tc| == |prt.tc|
        invariant forall i :: 0 <= i < |info| ==> info[i] == if i < t then TickPort(prt).info[i] else prt.info[i]
        invariant forall i :: 0 <= i < |rv| ==> rv[i] == if i < t then TickPort(prt).rv[i] else prt.rv[i]
        invariant forall i :: 0 <= i < |tc| ==> tc[i] == if i < t then TickPort(prt).tc[i] else prt.tc[i]
        decreases |info| + |rv| + |tc| - t
      {
        if t < |rv| {
          rv := rv[t := rv[t].(fdWhile := Dec(rv[t].fdWhile), rrWhile := Dec(rv[t].rrWhile),
              rbWhile := Dec(rv[t].rbWhile))];
        }
        if t < |tc| { tc := tc[t := tc[t].(tcWhile := Dec(tc[t].tcWhile))]; }
        if t < |info| { info := info[t := info[t].(rcvdInfoWhile := Dec(info[t].rcvdInfoWhile))]; }
        t := t + 1;
      }
      assert info == TickPort(prt).info && rv == TickPort(prt).rv && tc == TickPort(prt).tc;
      ports := ports[p := prt.(tx := prt.tx.(helloWhen := Dec(prt.tx.helloWhen), txCount := Dec(prt.tx.txCount)),
                               mig := prt.mig.(mdelayWhile := Dec(prt.mig.mdelayWhile)),
                               rx := prt.rx.(edgeDelayWhile := Dec(prt.rx.edgeDelayWhile)),
                               ba := prt.ba.(rcvdInfoWhile := Dec(prt.ba.rcvdInfoWhile)),
                               info := info, rv := rv, tc := tc)];
    }

    /** `MSTP_IN_one_second`. */
    method OneSecondPasses(limit: PassLimit)
      requires Valid()
      modifies this`trees, this`ports
      ensures Valid() && State() == Advance(old(State()), Step(OneSecond, limit))
    {
      hide TickPort, PortOk, RunMachines;
      ghost var b := State();
      var p := 0;
      while p < |ports|
        invariant 0 <= p <= |ports| == |b.ports| && trees == b.trees
        invariant forall q :: 0 <= q < p ==> ports[q] == TickPort(b.ports[q])
        invariant forall q :: p <= q < |ports| ==> ports[q] == b.ports[q]
      {
        TickOne(p);
        p := p + 1;
      }
      assert ports == Tick(b).ports;
      RunStateMachines(limit);
    }

    /** `MSTP_IN_rx_bpdu` on an enabled bridge. */
    method BpduReceived(p: nat, m: Bpdu, size: nat, limit: PassLimit)
      requires Valid() && p < |ports| && WellSized(m)
      modifies this`trees, this`ports
      ensures Valid()
      ensures State() == if ReceiveBpdu(old(ports[p]), m, size).None? then old(State())
                         else Advance(old(State()), Step(BpduArrives(p, m, size), limit))
    {
      hide NodeOk, RunMachines, AnnouncedMstis;
      var prt := ports[p];
      if prt.cfg.bpduGuard || prt.cfg.bpduFilter || prt.rx.rcvdBpdu { return; }
      if PT.TCN_BPDU_SIZE > size || m.protocolId != 0 { return; }
      var version, numMstis := m.version, prt.rx.numMstis;
      if m.bpduType == BPDU_TYPE_TCN {
        version := PROTO_STP;
      } else if m.bpduType == BPDU_TYPE_CONFIG {
        if PT.CONFIG_BPDU_SIZE > size { return; }
        version := PROTO_STP;
      } else if m.bpduType == BPDU_TYPE_RST {
        if version == PROTO_RSTP {
          if PT.RST_BPDU_SIZE > size { return; }
        } else {
          if version < PROTO_MSTP || PT.CONFIG_BPDU_SIZE > size { return; }
          var mstis := AnnouncedMstis(m, size);
          if mstis.None? {
            version := PROTO_RSTP;
          } else {
            version, numMstis := PROTO_MSTP, mstis.value;
          }
        }
      } else {
        return;
      }
      ReceiveIsOk(cfg, prt, m, size);
      assert m.(version := m.version) == m;
      ports := ports[p := prt.(rx := prt.rx.(bpdu := m.(version := version), numMstis := numMstis, rcvdBpdu := true),
                               ba := Assurance(false, 3 * prt.info[0].portTimes.helloTime))];
      RunStateMachines(limit);
    }
  }

  // The guard table, family by family.

  lemma NextOnRoleChange(e: RT.Env, n: RT.Node)
    requires RT.RoleMustChange(e, n)
    ensures RT.Next(e, n) == Some(RT.EntryState(e.selectedRole))
  {
  }

  lemma NextOnDisabled(e: RT.Env, n: RT.Node)
    requires !RT.RoleMustChange(e, n) && RT.IsDisabledState(n.rv.state)
    ensures RT.Next(e, n) == RT.NextDisabled(e, n)
  {
  }

  lemma NextOnMaster(e: RT.Env, n: RT.Node)
    requires !RT.RoleMustChange(e, n) && RT.IsMasterState(n.rv.state)
    ensures RT.Next(e, n) == if n.rv.state.MasterPort? then RT.NextMaster(e, n) else Some(MasterPort)
  {
  }

  lemma NextOnRoot(e: RT.Env, n: RT.Node)
    requires !RT.RoleMustChange(e, n) && RT.IsRootState(n.rv.state)
    ensures RT.Next(e, n) == if n.rv.state.RootPort? then RT.NextRoot(e, n) else Some(RootPort)
  {
  }

  lemma NextOnDesignated(e: RT.Env, n: RT.Node)
    requires !RT.RoleMustChange(e, n) && RT.IsDesignatedState(n.rv.state)
    ensures RT.Next(e, n) ==
      if n.rv.state.DesignatedPort? then RT.NextDesignated(e, n) else Some(DesignatedPort)
  {
  }

  lemma NextOnAlternate(e: RT.Env, n: RT.Node)
    requires !RT.RoleMustChange(e, n) && !RT.IsDisabledState(n.rv.state) && !RT.IsMasterState(n.rv.state)
    requires !RT.IsRootState(n.rv.state) && !RT.IsDesignatedState(n.rv.state)
    ensures RT.Next(e, n) ==
      if n.rv.state.AlternatePort? then RT.NextAlternate(e, n)
      else if n.rv.state.BlockPort? && !(e.active && !e.learning && !e.forwarding) then None
      else Some(AlternatePort)
  {
  }

  /** `PTSM_to_TRANSMIT_INIT` on a disabled port. */
  lemma TransmitInitOf(cfg: BridgeConfig, prt: Port)
    requires PortShape(cfg, prt) && |cfg.mstids| <= MAX_STANDARD_MSTIS && prt.info[0].portTimes.helloTime > 0
    requires !prt.cfg.portEnabled
    ensures PT.Run(cfg, prt) ==
        prt.(tx := prt.tx.(state := TransmitInit, newInfo := true, newInfoMsti := true, txCount := 0))
  {
  }

  /** The selections of a port once its MSTIs have been marked. */
  ghost function MstisReselected(sel: seq<Selection>): (r: seq<Selection>)
    ensures |r| == |sel|
  {
    seq(|sel|, i requires 0 <= i < |sel| => if i == 0 then sel[i] else sel[i].(reselect := true))
  }

  /** One port with its role selected, the designated vector being in place. */
  ghost function WithRole(tree: Tree, t: nat, prt: Port, isRoot: bool): (r: Port)
    requires t < |prt.info| == |prt.sel| == |prt.rv|
    ensures |r.sel| == |prt.sel|
  {
    var (role, updt) := RS.ChooseRole(tree, t, prt, prt.sel[t].designatedPriority, prt.sel[t].designatedTimes, isRoot);
    var sel := prt.sel[t := prt.sel[t].(selectedRole := role)];
    prt.(info := prt.info[t := prt.info[t].(updtInfo := updt)],
         sel := if RS.WakesMstis(t, prt, role) then MstisReselected(sel) else sel)
  }

  /** One port with the marks of role selection set. */
  ghost function Marked(prt: Port, t: nat, select: bool, keepReselect: bool): (r: Port)
    requires t < |prt.sel|
    ensures |r.sel| == |prt.sel| && r == prt.(sel := r.sel)
  {
    prt.(sel := prt.sel[t := prt.sel[t].(selected := prt.sel[t].selected || select,
        reselect := prt.sel[t].reselect && keepReselect)])
  }

  /** One port with its designated vector set. */
  ghost function Designated(tree: Tree, prt: Port, t: nat): (r: Port)
    requires t < |prt.info| == |prt.sel| == |prt.conf|
    ensures |r.sel| == |prt.sel| && r == prt.(sel := r.sel)
  {
    prt.(sel := prt.sel[t := prt.sel[t].(designatedPriority := RS.DesignatedPriority(tree, t, prt),
                                         designatedTimes := RS.DesignatedTimes(tree, t, prt))])
  }

  /** The stages of role selection on one port, one after the other, are role selection. */
  lemma StagesSelectPort(tree: Tree, t: nat, prt: Port, isRoot: bool, sync: bool)
    requires t < |prt.info| == |prt.sel| == |prt.conf| == |prt.rv|
    ensures var designated := Designated(tree, Marked(prt, t, false, false), t);
      var synced := if sync then designated.(hs := RS.SyncMaster(designated)) else designated;
      Marked(WithRole(tree, t, synced, isRoot), t, true, true) == RS.SelectPort(tree, t, prt, isRoot, sync)
  {
    hide SamePriorityAndTimers, BetterOrSame;
    var cleared := Marked(prt, t, false, false);
    var designated := Designated(tree, cleared, t);
    var synced := if sync then designated.(hs := RS.SyncMaster(designated)) else designated;
    assert RS.SyncMaster(designated) == RS.SyncMaster(prt);
    var des, times := RS.DesignatedPriority(tree, t, prt), RS.DesignatedTimes(tree, t, prt);
    assert RS.ChooseRole(tree, t, synced, des, times, isRoot) == RS.ChooseRole(tree, t, prt, des, times, isRoot);
    hide RS.ChooseRole, RS.SyncMaster, RS.DesignatedPriority, RS.DesignatedTimes;
    assert Marked(WithRole(tree, t, synced, isRoot), t, true, true).sel ==
        RS.SelectPort(tree, t, prt, isRoot, sync).sel;
  }

  /** Clearing the marks leaves the candidates for the root as they are. */
  lemma ClearedShape(b: Bridge, cleared: seq<Port>, t: nat)
    requires Shape(b) && t < |b.trees| && |cleared| == |b.ports|
    requires forall q :: 0 <= q < |cleared| ==> cleared[q] == Marked(b.ports[q], t, false, false)
    ensures PortsShape(b.cfg, cleared)
    ensures RS.NewTree(b.cfg, b.trees[t], t, cleared) == RS.NewTree(b.cfg, b.trees[t], t, b.ports)
    ensures RS.RootIndex(b.cfg, b.trees[t], t, cleared) == RS.RootIndex(b.cfg, b.trees[t], t, b.ports)
  {
    hide RS.Choose;
    RS.ChoiceDependsOnCandidates(b.cfg, b.trees[t], b.trees[t], t, b.ports, cleared, |cleared|);
  }

  lemma NoPropagation(prt: Port, t: nat)
    requires t < |prt.tc|
    ensures TC.OtherPort(prt, t, false) == prt
  {
  }

  /** A pass has no other steps. */
  lemma AllPhases(b: Bridge)
    requires BridgeOk(b)
    requires forall p :: 0 <= p < |b.ports| ==>
      !PhaseDue(Assure, b.cfg, b.ports[p]) && !PhaseDue(Receive, b.cfg, b.ports[p]) &&
        !PhaseDue(Migrate, b.cfg, b.ports[p])
      && !PhaseDue(DetectEdge, b.cfg, b.ports[p]) && !PhaseDue(Transmit, b.cfg, b.ports[p]) &&
        !PhaseDue(Inform, b.cfg, b.ports[p])
      && !PhaseDue(Forward, b.cfg, b.ports[p])
    ensures forall p, k: Phase :: 0 <= p < |b.ports| ==> !PhaseDue(k, b.cfg, b.ports[p])
  {
    hide PhaseDue;
    forall p, k: Phase | 0 <= p < |b.ports| ensures !PhaseDue(k, b.cfg, b.ports[p]) {
      match k
      case Assure => case Receive => case Migrate => case DetectEdge => case Transmit => case Inform => case Forward =>
    }
  }

  lemma RaisedPort(prt: Port, t: nat, s: RoleState)
    requires t < |prt.hs|
    ensures RM.OtherPort(prt, t, s) ==
      prt.(hs := prt.hs[t := prt.hs[t].(sync := RM.SyncsTree(s) || prt.hs[t].sync,
          reRoot := s.ReRoot? || prt.hs[t].reRoot)])
  {
  }
}
