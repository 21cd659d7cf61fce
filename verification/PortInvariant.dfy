/**
 What every state machine of a port keeps true, from the first BEGIN on and whatever happens.
 */
module PortInvariant {
  import opened Types
  import PI = PortInformation
  import PM = PortMachines
  import PT = PortTransmit
  import RS = RoleSelection
  import RT = RoleTransitions
  import RM = RoleMachine
  import TC = TopologyChange

  /** The only Hello Time the engine accepts. */
  const HELLO_TIME: U8 := 2

  /** The state of the Port Information machine tells the origin of the information. */
  predicate OriginOk(i: Info) {
    match i.state
    case InfoDisabled => i.infoIs == IoDisabled
    case InfoAged => i.infoIs == IoAged
    case InfoUpdate => i.infoIs == IoMine
    case InfoSuperior => i.infoIs == IoReceived
    case _ => i.infoIs == IoMine || i.infoIs == IoReceived
  }

  /** How selectedRole, updtInfo and the origin of the information go together on the CIST. */
  predicate RoleFitsInfo(i: Info, s: Selection) {
    match i.infoIs
    case IoDisabled => s.selectedRole == RoleDisabled
    case IoAged => s.selectedRole == RoleDesignated && i.updtInfo
    case IoMine => s.selectedRole == RoleDesignated && (i.updtInfo || i.portPriority == s.designatedPriority)
    case IoReceived =>
      if s.selectedRole == RoleDesignated then i.updtInfo
      else !i.updtInfo && s.selectedRole in {RoleRoot, RoleAlternate, RoleBackup}
  }

  /** Port Information and role selection of one node. */
  predicate InfoOk(i: Info, s: Selection, cist: bool) {
    && OriginOk(i) && (s.selected || s.reselect)
    && (s.selected && i.infoIs == IoDisabled ==> s.selectedRole == RoleDisabled)
    && (cist ==>
        && i.portTimes.helloTime == HELLO_TIME
        && (s.selected ==> s.designatedTimes.helloTime == HELLO_TIME && RoleFitsInfo(i, s)))
  }

  /** Role and state of one node. */
  predicate RoleOk(rv: RoleVars, fw: ForwardingVars) { RT.Safe(rv) && PM.Consistent(fw) }

  predicate NodeOk(prt: Port, t: nat)
    requires t < |prt.info| == |prt.sel| == |prt.rv| == |prt.fw|
  {
    InfoOk(prt.info[t], prt.sel[t], t == 0) && RoleOk(prt.rv[t], prt.fw[t])
  }

  predicate PortOk(cfg: BridgeConfig, prt: Port) {
    && PortShape(cfg, prt) && |cfg.mstids| <= MAX_STANDARD_MSTIS && cfg.helloTime == HELLO_TIME && cfg.migrateTime > 0
    && prt.rx.numMstis <= MAX_STANDARD_MSTIS && prt.tx.txCount <= cfg.holdCount &&
      prt.ba.rcvdInfoWhile <= 3 * HELLO_TIME
    && (forall t :: 0 <= t < |prt.info| ==> NodeOk(prt, t))
  }

  // ---- Port Information -----------------------------------------------------------------------------

  /** The information part of a transition of Port Information. */
  lemma InfoTransitionOk(cfg: BridgeConfig, prt: Port, t: nat)
    requires PortShape(cfg, prt) && t < |prt.info| && InfoOk(prt.info[t], prt.sel[t], t == 0) && PI.Next(prt, t).Some?
    ensures var s := PI.Next(prt, t).value; InfoOk(PI.InfoAfter(cfg, prt, t, s), PI.SelAfter(prt.sel[t], s), t == 0)
  {
    hide PI.MstiMessagePriority, PI.CistMessagePriority, PI.CistMessageTimes, PI.MessageIsDesignated, PI.Classify;
    hide PI.RcvdInfoWhile;
  }

  lemma InformationTransition(cfg: BridgeConfig, prt: Port, t: nat)
    requires PortOk(cfg, prt) && t < |prt.info| && PI.Next(prt, t).Some?
    ensures PortOk(cfg, PI.Enter(cfg, prt, t, PI.Next(prt, t).value))
  {
    assert NodeOk(prt, t);
    hide PI.Enter, PI.Next, PI.InfoAfter, PI.SelAfter, InfoOk, RoleOk;
    InfoTransitionOk(cfg, prt, t);
    var r := PI.Enter(cfg, prt, t, PI.Next(prt, t).value);
    forall i | 0 <= i < |r.info| ensures NodeOk(r, i) {
      assert NodeOk(prt, i);
    }
  }

  lemma {:induction false} InformationKeepsPort(cfg: BridgeConfig, prt: Port, t: nat)
    requires PortOk(cfg, prt) && t < |prt.info|
    ensures PortOk(cfg, PI.Run(cfg, prt, t))
    decreases PI.Measure(prt.cfg.portEnabled, prt.info[t])
  {
    assert PortShape(cfg, prt);
    hide PI.Enter, PI.Next, PI.Measure, PortOk;
    if PI.Next(prt, t).Some? {
      InformationTransition(cfg, prt, t);
      PI.TransitionDecreases(cfg, prt, t);
      InformationKeepsPort(cfg, PI.Enter(cfg, prt, t, PI.Next(prt, t).value), t);
    }
  }

  // ---- The other machines ---------------------------------------------------------------------------

  /** A change to variables the invariant does not mention. */
  lemma UnrelatedChange(cfg: BridgeConfig, prt: Port, r: Port)
    requires PortOk(cfg, prt) && PortShape(cfg, r) && r.sel == prt.sel && r.rv == prt.rv && r.fw == prt.fw
    requires r.tx.txCount <= cfg.holdCount && r.rx.numMstis <= MAX_STANDARD_MSTIS
    requires r.ba.rcvdInfoWhile <= 3 * HELLO_TIME
    requires forall t :: 0 <= t < |r.info| ==>
      r.info[t] == prt.info[t].(rcvdMsg := r.info[t].rcvdMsg, rcvdMsti := r.info[t].rcvdMsti)
    ensures PortOk(cfg, r)
  {
    hide RoleOk;
    forall t | 0 <= t < |r.info| ensures NodeOk(r, t) {
      assert NodeOk(prt, t);
    }
  }

  lemma ReceiveKeepsPort(cfg: BridgeConfig, prt: Port)
    requires PortOk(cfg, prt)
    ensures PortOk(cfg, PM.RunReceive(cfg, prt))
  {
    hide NodeOk, PM.EnterDiscard, PM.EnterReceive, PM.NextReceive, PM.FromSameRegion;
    UnrelatedChange(cfg, prt, PM.RunReceive(cfg, prt));
  }

  lemma MigrationKeepsPort(cfg: BridgeConfig, prt: Port)
    requires PortOk(cfg, prt)
    ensures PortOk(cfg, PM.RunMigration(cfg, prt))
  {
    hide NodeOk, PM.EnterMigration, PM.NextMigration;
    UnrelatedChange(cfg, prt, PM.RunMigration(cfg, prt));
  }

  lemma EdgeKeepsPort(cfg: BridgeConfig, prt: Port)
    requires PortOk(cfg, prt)
    ensures PortOk(cfg, PM.RunEdge(prt))
  {
    hide NodeOk, PM.RunEdge;
    UnrelatedChange(cfg, prt, PM.RunEdge(prt));
  }

  /** One transmission is only started below the hold count. */
  lemma {:induction false} TransmitCount(cfg: BridgeConfig, prt: Port)
    requires PortShape(cfg, prt) && |cfg.mstids| <= MAX_STANDARD_MSTIS && prt.info[0].portTimes.helloTime > 0
    requires prt.tx.txCount <= cfg.holdCount
    ensures PT.Run(cfg, prt).tx.txCount <= cfg.holdCount
    decreases PT.Measure(cfg, prt)
  {
    hide PT.Measure;
    if PT.Next(cfg, prt).Some? {
      PT.TransitionDecreases(cfg, prt);
      TransmitCount(cfg, PT.Enter(cfg, prt, PT.Next(cfg, prt).value));
    }
  }

  /** The Hello Time of a port never leaves the bridge's value, so the Port Transmit machine terminates. */
  lemma HelloTimeIsFixed(cfg: BridgeConfig, prt: Port)
    requires PortOk(cfg, prt)
    ensures prt.info[0].portTimes.helloTime == HELLO_TIME
  {
    assert NodeOk(prt, 0);
  }

  lemma TransmitKeepsPort(cfg: BridgeConfig, prt: Port)
    requires PortOk(cfg, prt) && prt.info[0].portTimes.helloTime > 0
    ensures PortOk(cfg, PT.Run(cfg, prt))
  {
    hide NodeOk, PT.Run;
    TransmitCount(cfg, prt);
    UnrelatedChange(cfg, prt, PT.Run(cfg, prt));
  }

  lemma ForwardingKeepsPort(cfg: BridgeConfig, prt: Port, r: Port)
    requires PortOk(cfg, prt) && |r.fw| == |prt.fw| && r == prt.(fw := r.fw)
    requires forall t :: 0 <= t < |prt.fw| ==> r.fw[t] == PM.RunForwarding(prt.cfg.deleted, prt.rv[t], prt.fw[t])
    ensures PortOk(cfg, r)
    ensures forall t :: 0 <= t < |prt.fw| ==>
      r.fw[t].learning == prt.rv[t].learn && r.fw[t].forwarding == prt.rv[t].forward
  {
    hide InfoOk, PM.RunForwarding;
    forall t | 0 <= t < |r.info|
      ensures NodeOk(r, t) && r.fw[t].learning == prt.rv[t].learn && r.fw[t].forwarding == prt.rv[t].forward
    {
      assert NodeOk(prt, t);
      PM.ForwardingFollowsRole(prt.cfg.deleted, prt.rv[t], prt.fw[t]);
    }
  }

  /** Role selection puts the node it selects in order, and only marks others for reselection. */
  lemma SelectionNode(tree: Tree, t: nat, prt: Port, isRoot: bool, sync: bool)
    requires t < |prt.info| == |prt.sel| == |prt.conf| == |prt.rv| && InfoOk(prt.info[t], prt.sel[t], t == 0)
    ensures var r := RS.SelectPort(tree, t, prt, isRoot, sync); InfoOk(r.info[t], r.sel[t], t == 0)
  {
    hide RS.WakesMstis, RS.SyncMaster;
    if t == 0 {
      hide RS.DesignatedPriority;
    } else {
      hide RS.DesignatedPriority, RS.DesignatedTimes, RS.ChooseRole;
    }
  }

  lemma SelectionKeepsPort(cfg: BridgeConfig, tree: Tree, t: nat, prt: Port, isRoot: bool, sync: bool)
    requires PortOk(cfg, prt) && t < |prt.info|
    ensures PortOk(cfg, RS.SelectPort(tree, t, prt, isRoot, sync))
  {
    var r := RS.SelectPort(tree, t, prt, isRoot, sync);
    assert forall i :: 0 <= i < |r.info| && i != t ==>
      r.info[i] == prt.info[i] && r.sel[i] == prt.sel[i].(reselect := r.sel[i].reselect) &&
        (prt.sel[i].reselect ==> r.sel[i].reselect);
    hide RS.SelectPort, RoleOk;
    forall i | 0 <= i < |r.info| ensures NodeOk(r, i) {
      assert NodeOk(prt, i);
      if i == t { SelectionNode(tree, t, prt, isRoot, sync); }
    }
  }

  /** A call of the role machine of another node, or of its own, on this port. */
  lemma RolesKeepPort(cfg: BridgeConfig, prt: Port, r: Port, own: bool, t: nat)
    requires PortOk(cfg, prt) && t < |prt.hs| && RM.PortFrame(prt, r, own, t) && RT.Safe(r.rv[t])
    ensures PortOk(cfg, r)
  {
    hide InfoOk, RT.Safe, PM.Consistent;
    forall i | 0 <= i < |r.info| ensures NodeOk(r, i) {
      assert NodeOk(prt, i);
    }
  }

  lemma TopologyKeepsPort(cfg: BridgeConfig, prt: Port, r: Port, own: bool, t: nat)
    requires PortOk(cfg, prt) && t < |prt.tc| && TC.PortFrame(prt, r, own, t)
    ensures PortOk(cfg, r)
  {
    hide NodeOk;
    UnrelatedChange(cfg, prt, r);
  }
}
