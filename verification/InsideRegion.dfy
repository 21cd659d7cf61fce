/**
 Two events that may change what role selection reads without asking for it: a BPDU that makes a port internal or
 external (mstp.c:2921-2934), and a BPDU or a migration check after which a port sends another kind of BPDUs
 (mstp.c:3017-3066).  For each of them, exactly when the roles are still those that role selection would choose.
 */
module InsideRegion {
  import opened Types
  import opened PortInvariant
  import opened BridgeRun
  import opened Events
  import opened Passes
  import opened Freshness
  import opened Unnoticed
  import PI = PortInformation
  import PM = PortMachines
  import PT = PortTransmit
  import RS = RoleSelection
  import RM = RoleMachine
  import RT = RoleTransitions
  import TC = TopologyChange
  import NR = NetworkAtRest
  import SB = SettledBridge
  import SI = StaleInformation
  import ST = StaleBridge
  import Priority

  // ---- A port that waits for nothing but a message --------------------------------------------------

  /** The CIST message of this BPDU would be recorded, and role selection asked for. */
  predicate IsNews(cfg: BridgeConfig, prt: Port, m: Bpdu)
    requires PortShape(cfg, prt) && WellSized(m)
  {
    PI.RcvInfo(cfg, prt.(rx := prt.rx.(bpdu := m)), 0).rcvdInfo == SuperiorDesignatedInfo
  }

  /** On the CIST the port waits for nothing but a message. */
  predicate Calm(prt: Port)
    requires 1 <= |prt.info| == |prt.sel|
  {
    var i := prt.info[0];
    && prt.sel[0].selected && !prt.sel[0].reselect
    && if prt.cfg.portEnabled then
         i.state == InfoCurrent && i.infoIs != IoDisabled && !i.updtInfo
         && (i.infoIs == IoReceived ==> i.rcvdInfoWhile > 0)
       else i.state == InfoDisabled && i.infoIs == IoDisabled && !i.rcvdMsg
  }

  /** Port `first` of a settled bridge has become `prt`.  If `own`, it is the port of the event and has heard `m`. */
  predicate Traced(cfg: BridgeConfig, first: Port, prt: Port, own: bool, m: Option<Bpdu>)
    requires PortShape(cfg, first) && (m.Some? ==> WellSized(m.value))
  {
    && PortOk(cfg, prt) && prt.cfg == first.cfg && prt.conf == first.conf && Calm(prt) && SamePort(first, prt, own)
    && (m.Some? ==> own && prt.cfg.portEnabled) && (prt.rx.rcvdBpdu || prt.info[0].rcvdMsg ==> m == Some(prt.rx.bpdu))
    && !(prt.rx.rcvdBpdu && prt.info[0].rcvdMsg)
    && (m.None? || prt.rx.rcvdBpdu ==> SamePath(first, prt))
    && (!own || prt.rx.rcvdBpdu ==> PM.NextMigration(cfg, prt).None? && prt.mig.sendRSTP == first.mig.sendRSTP)
    && (m.Some? && !prt.rx.rcvdBpdu && !prt.info[0].rcvdMsg ==> !IsNews(cfg, first, m.value))
  }

  /** What a message says depends on the information the port holds. */
  lemma SameNews(cfg: BridgeConfig, first: Port, prt: Port, m: Bpdu)
    requires PortShape(cfg, first) && PortShape(cfg, prt) && WellSized(m) && SameInformation(first.info[0], prt.info[0])
    ensures IsNews(cfg, prt, m) == IsNews(cfg, first, m)
  {
    hide PI.CistMessagePriority, PI.CistMessageTimes;
  }

  lemma TracedReceive(cfg: BridgeConfig, first: Port, prt: Port, own: bool, m: Option<Bpdu>)
    requires PortShape(cfg, first) && (m.Some? ==> WellSized(m.value)) && Traced(cfg, first, prt, own, m)
    ensures Traced(cfg, first, RunPhase(Receive, cfg, prt), own, m)
  {
    PhaseKeepsPort(Receive, cfg, prt);
    hide NodeOk, PM.FromSameRegion, IsNews, PM.EnterReceive;
  }

  lemma TracedMigrate(cfg: BridgeConfig, first: Port, prt: Port, own: bool, m: Option<Bpdu>)
    requires PortShape(cfg, first) && (m.Some? ==> WellSized(m.value)) && Traced(cfg, first, prt, own, m)
    ensures Traced(cfg, first, RunPhase(Migrate, cfg, prt), own, m)
    ensures PM.NextMigration(cfg, RunPhase(Migrate, cfg, prt)).None?
  {
    PhaseKeepsPort(Migrate, cfg, prt);
    hide NodeOk, PM.EnterMigration, IsNews;
    if PM.NextMigration(cfg, prt).Some? { hide PM.NextMigration; }
  }

  lemma TracedPhase(k: Phase, cfg: BridgeConfig, first: Port, prt: Port, own: bool, m: Option<Bpdu>)
    requires PortShape(cfg, first) && (m.Some? ==> WellSized(m.value)) && Traced(cfg, first, prt, own, m)
    requires k.Assure? || k.DetectEdge? || k.Transmit?
    ensures Traced(cfg, first, RunPhase(k, cfg, prt), own, m)
    ensures PM.NextMigration(cfg, RunPhase(k, cfg, prt)) == PM.NextMigration(cfg, prt)
  {
    HelloTimeIsFixed(cfg, prt);
    PhaseKeepsPort(k, cfg, prt);
    hide NodeOk, PM.RunEdge, PT.Run, IsNews;
  }

  // ---- Port Information -----------------------------------------------------------------------------

  /** A message that is no news leaves the information as it was. */
  lemma OldNews(cfg: BridgeConfig, prt: Port)
    requires PortOk(cfg, prt) && Calm(prt) && prt.cfg.portEnabled && prt.info[0].rcvdMsg
    requires !IsNews(cfg, prt, prt.rx.bpdu)
    ensures var r := PI.Run(cfg, prt, 0);
      SameInformation(prt.info[0], r.info[0]) && Calm(r) && !r.info[0].rcvdMsg && r.sel == prt.sel
  {
    hide NodeOk, PI.Enter, PI.RcvInfo;
    assert prt.rx.(bpdu := prt.rx.bpdu) == prt.rx && prt.(rx := prt.rx) == prt;
    var c := PI.Enter(cfg, prt, 0, InfoReceive);
    RecordedOnly(cfg, prt);
    var s := PI.ReceivedState(c.info[0].rcvdInfo);
    var d := PI.Enter(cfg, c, 0, s);
    var r := PI.Enter(cfg, d, 0, InfoCurrent);
    assert PI.Run(cfg, prt, 0) == PI.Run(cfg, c, 0) == PI.Run(cfg, d, 0) == PI.Run(cfg, r, 0) == r;
  }

  lemma RecordedOnly(cfg: BridgeConfig, prt: Port)
    requires PortShape(cfg, prt)
    ensures var i, j := prt.info[0], PI.RcvInfo(cfg, prt, 0);
      j == i.(rcvdInfo := j.rcvdInfo, msgPriority := j.msgPriority, msgTimes := j.msgTimes) &&
        j.rcvdInfo != RepeatedDesignatedInfo
  {
    hide PI.MessageIsDesignated, PI.CistMessagePriority, PI.CistMessageTimes, Priority.BetterOrSame;
  }

  /** News asks for role selection. */
  lemma News(cfg: BridgeConfig, prt: Port)
    requires PortOk(cfg, prt) && Calm(prt) && prt.cfg.portEnabled && prt.info[0].rcvdMsg
    requires IsNews(cfg, prt, prt.rx.bpdu)
    ensures PI.Run(cfg, prt, 0).sel[0].reselect
  {
    hide NodeOk, PI.Enter, PI.RcvInfo;
    assert prt.rx.(bpdu := prt.rx.bpdu) == prt.rx && prt.(rx := prt.rx) == prt;
    var c := PI.Enter(cfg, prt, 0, InfoReceive);
    InformationTransition(cfg, prt, 0);
    RecordedOnly(cfg, prt);
    var d := PI.Enter(cfg, c, 0, InfoSuperior);
    InformationTransition(cfg, c, 0);
    hide PI.Run;
    InformationRunAsks(Terms(false, false, false), cfg, d, 0);
    assert PI.Run(cfg, prt, 0) == PI.Run(cfg, c, 0) == PI.Run(cfg, d, 0) by { NewsRun(cfg, prt); }
  }

  lemma NewsRun(cfg: BridgeConfig, prt: Port)
    requires PortOk(cfg, prt) && PI.Next(prt, 0) == Some(InfoReceive)
    ensures var c := PI.Enter(cfg, prt, 0, InfoReceive);
      PI.Run(cfg, prt, 0) == PI.Run(cfg, c, 0)
      && (PI.Next(c, 0) == Some(InfoSuperior) ==>
        PI.Run(cfg, c, 0) == PI.Run(cfg, PI.Enter(cfg, c, 0, InfoSuperior), 0))
  {
    hide NodeOk, PI.Enter, PI.Next;
  }

  /** The MSTIs leave the CIST alone. */
  lemma {:induction false} MstisLeaveCist(cfg: BridgeConfig, prt: Port, n: nat)
    requires PortOk(cfg, prt) && 1 <= n <= |cfg.mstids|
    ensures var c, r := PI.Run(cfg, prt, 0), RunInformation(cfg, prt, n); r.info[0] == c.info[0] && r.sel[0] == c.sel[0]
    ensures SameOutside(prt, RunInformation(cfg, prt, n))
  {
    hide NodeOk, PI.Run;
    InformationAsks(Terms(false, false, false), cfg, prt, n);
    assert RunInformation(cfg, prt, 0) == prt;
    if n > 1 {
      MstisLeaveCist(cfg, prt, n - 1);
      SI.OtherTreesKeepCist(cfg, RunInformation(cfg, prt, n - 1), n - 1);
    }
  }

  /** What Port Information leaves on the CIST. */
  lemma InformedPort(cfg: BridgeConfig, prt: Port)
    requires PortOk(cfg, prt)
    ensures var c, r := PI.Run(cfg, prt, 0), RunPhase(Inform, cfg, prt);
      && PortOk(cfg, r) && r.info[0] == c.info[0] && r.sel[0] == c.sel[0] && SameOutside(prt, r)
      && PM.NextMigration(cfg, r) == PM.NextMigration(cfg, prt)
  {
    PhaseKeepsPort(Inform, cfg, prt);
    MstisLeaveCist(cfg, prt, |cfg.mstids|);
    hide PI.Run, NodeOk, RunInformation;
  }

  lemma TracedInform(cfg: BridgeConfig, first: Port, prt: Port, own: bool, m: Option<Bpdu>)
    requires PortShape(cfg, first) && (m.Some? ==> WellSized(m.value)) && Traced(cfg, first, prt, own, m)
    ensures var r := RunPhase(Inform, cfg, prt);
      if Traced(cfg, first, r, own, m) then !r.info[0].rcvdMsg
      else m.Some? && IsNews(cfg, first, m.value) && r.sel[0].reselect && !r.rx.rcvdBpdu
    ensures PM.NextMigration(cfg, RunPhase(Inform, cfg, prt)) == PM.NextMigration(cfg, prt)
  {
    hide PI.Run, NodeOk, IsNews, RunPhase, PM.NextMigration;
    InformedPort(cfg, prt);
    if prt.info[0].rcvdMsg {
      SameNews(cfg, first, prt, prt.rx.bpdu);
      if IsNews(cfg, prt, prt.rx.bpdu) { News(cfg, prt); } else { OldNews(cfg, prt); }
    } else {
      NoNews(cfg, prt);
    }
  }

  lemma NoNews(cfg: BridgeConfig, prt: Port)
    requires PortShape(cfg, prt) && Calm(prt) && !prt.info[0].rcvdMsg
    ensures PI.Run(cfg, prt, 0) == prt
  {
    hide PI.Enter, PI.Measure;
    assert PI.Next(prt, 0).None?;
  }

  // ---- The bridge -----------------------------------------------------------------------------------

  /** The BPDU, on its port. */
  function For(m: Option<Bpdu>, own: bool): Option<Bpdu> { if own then m else None }

  /** Between passes: no tree was selected and no message is left since the bridge was `b`. */
  predicate AllTraced(b: Bridge, c: Bridge, p: nat, m: Option<Bpdu>)
    requires BridgeOk(b) && BridgeOk(c) && (m.Some? ==> WellSized(m.value))
  {
    && c.cfg == b.cfg && |c.ports| == |b.ports| && c.trees[0] == b.trees[0] && b.trees[0].state == RoleSelection
    && forall q :: 0 <= q < |b.ports| ==>
      Traced(b.cfg, b.ports[q], c.ports[q], q == p, For(m, q == p)) && !c.ports[q].info[0].rcvdMsg
  }

  /** No BPDU waits, and no port is about to send another kind of BPDUs. */
  predicate Unheard(b: Bridge)
    requires BridgeOk(b)
  {
    forall q :: 0 <= q < |b.ports| ==> !b.ports[q].rx.rcvdBpdu && PM.NextMigration(b.cfg, b.ports[q]).None?
  }

  /** The steps of a pass on one port. */
  lemma TracedPort(b: Bridge, c: Bridge, p: nat, m: Option<Bpdu>, q: nat)
    requires BridgeOk(b) && BridgeOk(c) && (m.Some? ==> WellSized(m.value)) && AllTraced(b, c, p, m) && q < |b.ports|
    ensures var r := RunPortMachines(c).ports[q];
      && PM.NextMigration(b.cfg, r).None? && PortShape(b.cfg, b.ports[q])
      && if Traced(b.cfg, b.ports[q], r, q == p, For(m, q == p)) then !r.info[0].rcvdMsg
         else
           && q == p && m.Some? && IsNews(b.cfg, b.ports[q], m.value)
           && |r.sel| > 0 && r.sel[0].reselect && !r.rx.rcvdBpdu
  {
    hide NodeOk, RunPhase, Traced, IsNews, PM.NextMigration;
    var first, own, n := b.ports[q], q == p, For(m, q == p);
    var c1 := RunPorts(Assure, c);
    TracedPhase(Assure, b.cfg, first, c.ports[q], own, n);
    var c2 := RunPorts(Receive, c1);
    TracedReceive(b.cfg, first, c1.ports[q], own, n);
    var c3 := RunPorts(Migrate, c2);
    TracedMigrate(b.cfg, first, c2.ports[q], own, n);
    var c4 := RunPorts(DetectEdge, c3);
    TracedPhase(DetectEdge, b.cfg, first, c3.ports[q], own, n);
    var c5 := RunPorts(Transmit, c4);
    TracedPhase(Transmit, b.cfg, first, c4.ports[q], own, n);
    TracedInform(b.cfg, first, c5.ports[q], own, n);
  }

  /** Information and selection of the CIST are the same. */
  predicate LeftAlone(prt: Port, r: Port) {
    && |r.info| == |prt.info| > 0 && |r.sel| == |prt.sel| > 0 && r.info[0] == prt.info[0] && r.sel[0] == prt.sel[0]
  }

  /** Role selection on the MSTIs leaves the CIST alone. */
  lemma {:induction false} MstiSelectionsLeaveCist(b: Bridge, n: nat)
    requires BridgeOk(b) && n <= |b.trees| && b.trees[0].state == RoleSelection
    requires forall q :: 0 <= q < |b.ports| ==> LeftAlone(b.ports[q], b.ports[q]) && !b.ports[q].sel[0].reselect
    ensures var r := RunSelections(b, n);
      r.trees[0] == b.trees[0] && forall q :: 0 <= q < |b.ports| ==> LeftAlone(b.ports[q], r.ports[q])
  {
    hide PortOk, RS.EnterSelection;
    if n > 0 {
      MstiSelectionsLeaveCist(b, n - 1);
      var c := RunSelections(b, n - 1);
      ShapeOfOk(c);
      SelectionKeepsBridge(c, n - 1);
      if n > 1 && RS.SelectionDue(c, n - 1) {
        ST.MstiSelectionKeepsCist(c, n - 1);
        forall q | 0 <= q < |b.ports| ensures LeftAlone(b.ports[q], RS.EnterSelection(c, n - 1).ports[q]) {
          assert LeftAlone(b.ports[q], c.ports[q]);
          assert ST.SameCistPort(c.ports[q], RS.EnterSelection(c, n - 1).ports[q]);
        }
      }
    }
  }

  /** What the machines from role selection on leave of a port whose CIST is not selected. */
  predicate LeftSo(prt: Port, r: Port) {
    && LeftAlone(prt, r) && r.cfg == prt.cfg && r.conf == prt.conf && r.mig == prt.mig
    && r.rx == prt.rx.(edgeDelayWhile := r.rx.edgeDelayWhile)
  }

  lemma TracedAfter(cfg: BridgeConfig, first: Port, prt: Port, r: Port, own: bool, m: Option<Bpdu>)
    requires PortShape(cfg, first) && (m.Some? ==> WellSized(m.value)) && Traced(cfg, first, prt, own, m)
    requires PortOk(cfg, r) && LeftSo(prt, r)
    ensures Traced(cfg, first, r, own, m) && r.info[0].rcvdMsg == prt.info[0].rcvdMsg
  {
    hide NodeOk, IsNews;
  }

  /** The machines from role selection on, when the CIST is not selected. */
  lemma LaterMachines(d: Bridge)
    requires BridgeOk(d) && d.trees[0].state == RoleSelection
    requires forall q :: 0 <= q < |d.ports| ==> LeftAlone(d.ports[q], d.ports[q]) && !d.ports[q].sel[0].reselect
    ensures var r := LateMachines(RunSelections(d, |d.trees|));
      && r.trees[0] == d.trees[0] && r.cfg == d.cfg && |r.ports| == |d.ports|
      && forall q :: 0 <= q < |d.ports| ==> LeftSo(d.ports[q], r.ports[q])
  {
    hide PortOk, RunSelections, LateMachines;
    var e := RunSelections(d, |d.trees|);
    MstiSelectionsLeaveCist(d, |d.trees|);
    SelectionsFrames(d, |d.trees|);
    LateMachinesFrame(e);
    forall q | 0 <= q < |d.ports| ensures LeftSo(d.ports[q], LateMachines(e).ports[q]) {
      assert LeftAlone(d.ports[q], e.ports[q]) && SelectionFrame(d.ports[q], e.ports[q]);
      assert LateFrame(e.ports[q], LateMachines(e).ports[q]);
    }
  }

  /** A pass: nothing has changed, or the BPDU was news and role selection has run. */
  lemma TracedPass(b: Bridge, c: Bridge, p: nat, m: Option<Bpdu>)
    requires BridgeOk(b) && BridgeOk(c) && (m.Some? ==> WellSized(m.value)) && AllTraced(b, c, p, m)
    requires p < |b.ports| && PortShape(b.cfg, b.ports[p])
    ensures AllTraced(b, RunOnce(c), p, m) || (m.Some? && IsNews(b.cfg, b.ports[p], m.value) && Selected(RunOnce(c)))
  {
    hide PortOk, RunPortMachines, RunSelections, LateMachines, Traced, IsNews, PM.NextMigration, Fresh, Unsure, LeftSo;
    var d := RunPortMachines(c);
    forall q | 0 <= q < |b.ports| ensures PortShape(b.cfg, d.ports[q]) && PortShape(b.cfg, b.ports[q]) {
      ShapeOfPort(b, q);
      ShapeOfPort(d, q);
    }
    TracedPort(b, c, p, m, p);
    if Traced(b.cfg, b.ports[p], d.ports[p], true, m) {
      forall q | 0 <= q < |b.ports|
        ensures Traced(b.cfg, b.ports[q], d.ports[q], q == p, For(m, q == p)) && !d.ports[q].info[0].rcvdMsg
        ensures LeftAlone(d.ports[q], d.ports[q]) && !d.ports[q].sel[0].reselect
      {
        TracedPort(b, c, p, m, q);
        TracedIsCalm(b.cfg, b.ports[q], d.ports[q], q == p, For(m, q == p));
      }
      LaterMachines(d);
      forall q | 0 <= q < |b.ports|
        ensures Traced(b.cfg, b.ports[q], RunOnce(c).ports[q], q == p, For(m, q == p))
        ensures |RunOnce(c).ports[q].info| > 0 && !RunOnce(c).ports[q].info[0].rcvdMsg
      {
        ShapeOfPort(RunOnce(c), q);
        TracedAfter(b.cfg, b.ports[q], d.ports[q], RunOnce(c).ports[q], q == p, For(m, q == p));
      }
    } else {
      forall q | 0 <= q < |b.ports|
        ensures !d.ports[q].rx.rcvdBpdu && PM.NextMigration(b.cfg, d.ports[q]).None?
      {
        TracedPort(b, c, p, m, q);
        if q != p { TracedIsCalm(b.cfg, b.ports[q], d.ports[q], false, None); }
      }
      SelectedAfter(d, p);
    }
  }

  lemma TracedIsCalm(cfg: BridgeConfig, first: Port, prt: Port, own: bool, m: Option<Bpdu>)
    requires PortShape(cfg, first) && (m.Some? ==> WellSized(m.value)) && Traced(cfg, first, prt, own, m)
    ensures LeftAlone(prt, prt) && !prt.sel[0].reselect && (m.None? ==> !prt.rx.rcvdBpdu)
  {
    hide NodeOk, IsNews, PM.NextMigration;
  }

  /** Role selection is up to date or asked for, and nothing will change that. */
  predicate Selected(b: Bridge)
    requires BridgeOk(b)
  {
    Shape(b) && Fresh(b) && Unheard(b)
  }

  /** Role selection runs once it is asked for. */
  lemma SelectedAfter(d: Bridge, p: nat)
    requires BridgeOk(d) && p < |d.ports| && |d.ports[p].sel| > 0 && d.ports[p].sel[0].reselect && Unheard(d)
    ensures Selected(LateMachines(RunSelections(d, |d.trees|)))
  {
    hide PortOk, RunSelections, LateMachines, UpToDate, PM.NextMigration;
    ShapeOfOk(d);
    assert Fresh(d);
    hide Fresh;
    SelectionsAreFresh(d, |d.trees|);
    LateIsFresh(RunSelections(d, |d.trees|));
    StaysUnheard(d);
  }

  lemma StaysUnheard(d: Bridge)
    requires BridgeOk(d) && Unheard(d)
    ensures Unheard(LateMachines(RunSelections(d, |d.trees|)))
  {
    hide PortOk, RunSelections, LateMachines;
    var e := RunSelections(d, |d.trees|);
    SelectionsFrames(d, |d.trees|);
    LateMachinesFrame(e);
    forall q | 0 <= q < |d.ports|
      ensures !LateMachines(e).ports[q].rx.rcvdBpdu && PM.NextMigration(d.cfg, LateMachines(e).ports[q]).None?
    {
      assert SelectionFrame(d.ports[q], e.ports[q]) && LateFrame(e.ports[q], LateMachines(e).ports[q]);
    }
  }

  /** A port on which no BPDU waits stays what it is to role selection. */
  lemma UnheardPhase(k: Phase, cfg: BridgeConfig, prt: Port)
    requires PortOk(cfg, prt) && !prt.rx.rcvdBpdu && PM.NextMigration(cfg, prt).None?
    ensures var r := RunPhase(k, cfg, prt);
      PortOk(cfg, r) && !r.rx.rcvdBpdu && PM.NextMigration(cfg, r).None? && CarefulPort(k, false, cfg, prt)
  {
    HelloTimeIsFixed(cfg, prt);
    PhaseKeepsPort(k, cfg, prt);
    if k.Inform? { InformedPort(cfg, prt); }
    hide NodeOk, PM.EnterReceive, PM.RunEdge, PT.Run, RunInformation, PI.Run;
  }

  lemma UnheardStep(k: Phase, b: Bridge)
    requires BridgeOk(b) && Unheard(b)
    ensures Shape(b) && Unheard(RunPorts(k, b)) && CarefulStep(k, b)
  {
    hide PortOk, RunPhase, PM.NextMigration, CarefulPort, Unsure;
    ShapeOfOk(b);
    forall q | 0 <= q < |b.ports|
      ensures !RunPhase(k, b.cfg, b.ports[q]).rx.rcvdBpdu
      ensures PM.NextMigration(b.cfg, RunPhase(k, b.cfg, b.ports[q])).None?
      ensures CarefulPort(k, AtHome(b), b.cfg, b.ports[q])
    {
      UnheardPhase(k, b.cfg, b.ports[q]);
      AtHomeOrNot(k, AtHome(b), b.cfg, b.ports[q]);
    }
  }

  lemma AtHomeOrNot(k: Phase, home: bool, cfg: BridgeConfig, prt: Port)
    requires PortOk(cfg, prt) && CarefulPort(k, false, cfg, prt)
    ensures CarefulPort(k, home, cfg, prt)
  {
  }

  /** Where no BPDU waits, every pass is careful. */
  lemma {:induction false} SelectedRun(b: Bridge, limit: nat)
    requires BridgeOk(b) && Selected(b)
    ensures Selected(RunMachines(b, limit))
    decreases limit
  {
    hide BridgeOk, Fresh, Shape, Unheard, CarefulPass, RunOnce, Settled;
    if limit > 0 && !Settled(b) {
      UnheardPass(b);
      PassIsFresh(b);
      SelectedRun(RunOnce(b), limit - 1);
    }
  }

  lemma UnheardPass(b: Bridge)
    requires BridgeOk(b) && Unheard(b)
    ensures CarefulPass(b) && Unheard(RunOnce(b))
  {
    hide BridgeOk, Unheard, CarefulStep, RunSelections, LateMachines;
    UnheardStep(Assure, b);
    var b1 := RunPorts(Assure, b);
    UnheardStep(Receive, b1);
    var b2 := RunPorts(Receive, b1);
    UnheardStep(Migrate, b2);
    var b3 := RunPorts(Migrate, b2);
    UnheardStep(DetectEdge, b3);
    var b4 := RunPorts(DetectEdge, b3);
    UnheardStep(Transmit, b4);
    var b5 := RunPorts(Transmit, b4);
    UnheardStep(Inform, b5);
    StaysUnheard(RunPorts(Inform, b5));
  }

  /** However many passes. */
  lemma {:induction false} TracedRun(b: Bridge, c: Bridge, p: nat, m: Option<Bpdu>, limit: nat)
    requires BridgeOk(b) && BridgeOk(c) && (m.Some? ==> WellSized(m.value)) && AllTraced(b, c, p, m)
    requires p < |b.ports| && PortShape(b.cfg, b.ports[p])
    ensures var r := RunMachines(c, limit);
      AllTraced(b, r, p, m) || (m.Some? && IsNews(b.cfg, b.ports[p], m.value) && Selected(r))
    decreases limit
  {
    hide BridgeOk, AllTraced, IsNews, Selected, RunOnce, Settled;
    if limit > 0 && !Settled(c) {
      TracedPass(b, c, p, m);
      if AllTraced(b, RunOnce(c), p, m) {
        TracedRun(b, RunOnce(c), p, m, limit - 1);
      } else {
        SelectedRun(RunOnce(c), limit - 1);
      }
    }
  }

  // ---- From rest to rest ----------------------------------------------------------------------------

  /** In a settled bridge every port is calm. */
  lemma SettledIsTraced(b: Bridge, q: nat, own: bool)
    requires BridgeOk(b) && Settled(b) && q < |b.ports| && !b.ports[q].rx.rcvdBpdu
    ensures PortShape(b.cfg, b.ports[q]) && Traced(b.cfg, b.ports[q], b.ports[q], own, None)
    ensures !b.ports[q].info[0].rcvdMsg && b.trees[0].state == RoleSelection
    ensures PM.NextMigration(b.cfg, b.ports[q]).None?
  {
    var prt := b.ports[q];
    ShapeOfPort(b, q);
    ShapeOfOk(b);
    assert NodeOk(prt, 0);
    assert !RS.SelectionDue(b, 0);
    SB.SettledShape(b, q);
    assert !PhaseDue(Inform, b.cfg, prt) && !PhaseDue(Migrate, b.cfg, prt);
    assert PI.Next(prt, 0).None?;
    hide Settled, PortOk, RoleOk, InformationDue;
    CalmAtRest(prt);
  }

  lemma CalmAtRest(prt: Port)
    requires 1 <= |prt.info| && |prt.info| == |prt.sel| == |prt.rv| == |prt.fw| && NodeOk(prt, 0)
    requires SB.CistAtRest(prt) && PI.Next(prt, 0).None?
    ensures Calm(prt)
  {
  }

  /** No BPDU waits on any port. */
  predicate NoneWaits(b: Bridge) { forall q :: 0 <= q < |b.ports| ==> !b.ports[q].rx.rcvdBpdu }

  /** The event leaves all ports but its own alone, and its own as it can be traced. */
  lemma EventIsTraced(b: Bridge, c: Bridge, p: nat, m: Option<Bpdu>)
    requires BridgeOk(b) && BridgeOk(c) && Settled(b) && NoneWaits(b) && p < |b.ports|
    requires (m.Some? ==> WellSized(m.value))
    requires |c.ports| == |b.ports| && c == b.(ports := b.ports[p := c.ports[p]])
    requires PortShape(b.cfg, b.ports[p]) && Traced(b.cfg, b.ports[p], c.ports[p], true, m)
    requires |c.ports[p].info| > 0 && !c.ports[p].info[0].rcvdMsg
    ensures AllTraced(b, c, p, m)
  {
    hide Settled, PortOk, Traced;
    SettledIsTraced(b, p, true);
    forall q | 0 <= q < |b.ports|
      ensures PortShape(b.cfg, b.ports[q]) && |c.ports[q].info| > 0 && !c.ports[q].info[0].rcvdMsg
      ensures Traced(b.cfg, b.ports[q], c.ports[q], q == p, For(m, q == p))
    {
      SettledIsTraced(b, q, false);
    }
  }

  /** What is traced is the same but for port `p`, and the same on that port too while it has heard nothing. */
  lemma TracedIsSame(b: Bridge, r: Bridge, p: nat, m: Option<Bpdu>)
    requires BridgeOk(b) && BridgeOk(r) && (m.Some? ==> WellSized(m.value)) && AllTraced(b, r, p, m) && p < |b.ports|
    ensures Shape(b) && Shape(r) && SameBut(b, r, p)
    ensures m.None? || r.ports[p].rx.rcvdBpdu ==> SamePath(b.ports[p], r.ports[p])
    ensures r.ports[p].rx.rcvdBpdu ==> r.ports[p].mig.sendRSTP == b.ports[p].mig.sendRSTP
    ensures m.Some? && !r.ports[p].rx.rcvdBpdu ==> !IsNews(b.cfg, b.ports[p], m.value)
  {
    ShapeOfOk(b);
    ShapeOfOk(r);
    hide NodeOk, IsNews, PM.NextMigration, Calm;
    forall q | 0 <= q < |b.ports| ensures SamePort(b.ports[q], r.ports[q], q == p) {
      assert Traced(b.cfg, b.ports[q], r.ports[q], q == p, For(m, q == p));
    }
    assert Traced(b.cfg, b.ports[p], r.ports[p], true, m);
  }

  /** With the same path the port is as good as it was. */
  lemma SamePathIsStillBest(b: Bridge, r: Bridge, p: nat)
    requires Steady(b) && Shape(r) && SameBut(b, r, p) && p < |b.ports| && SamePath(b.ports[p], r.ports[p])
    ensures StillBest(b, p, r.ports[p])
  {
    hide BridgeOk, Settled, RS.Current, RS.Choose, Priority.BetterOrSame;
    UnchangedIsStillBest(b, p);
    assert SamePort(b.ports[p], r.ports[p], true);
  }

  /** The BPDU as it is taken, with the version it is treated as. */
  function Taken(prt: Port, m: Bpdu, size: nat): Bpdu {
    match Validate(m, size, prt.rx.numMstis)
    case None => m
    case Some((valid, _)) => valid
  }

  /** A BPDU at a steady bridge.  Once the bridge has settled, its roles are those role selection would choose if and
      only if the BPDU is news, or the port is still the best or still not and sends the same kind of BPDUs as before
      or need not care. */
  lemma HeardExactly(b: Bridge, p: nat, m: Bpdu, size: nat, limit: PassLimit)
    requires Steady(b) && NoneWaits(b) && Acceptable(b, BpduArrives(p, m, size)) && Runs(b, BpduArrives(p, m, size))
    requires b.ports[p].cfg.portEnabled && Settled(Advance(b, Step(BpduArrives(p, m, size), limit)))
    ensures var r := Advance(b, Step(BpduArrives(p, m, size), limit));
      && Shape(r) && PortShape(b.cfg, b.ports[p]) && PortShape(b.cfg, r.ports[p]) &&
        WellSized(Taken(b.ports[p], m, size))
      && (RS.Current(r) <==>
            || IsNews(b.cfg, b.ports[p], Taken(b.ports[p], m, size))
            || (StillBest(b, p, r.ports[p]) && (AtHome(b) || r.ports[p].mig.sendRSTP == b.ports[p].mig.sendRSTP)))
  {
    hide PortOk, Settled, RS.Current, UpToDate, StillBest, IsNews, RunMachines, Validate, AllTraced, Traced;
    var e, taken := BpduArrives(p, m, size), Taken(b.ports[p], m, size);
    var c, r := Apply(b, e), Advance(b, Step(e, limit));
    ShapeOfPort(b, p);
    ShapeOfOk(r);
    SettledIsTraced(b, p, true);
    ArrivalIsTraced(b.cfg, b.ports[p], m, size);
    EventIsTraced(b, c, p, Some(taken));
    TracedRun(b, c, p, Some(taken), limit);
    if AllTraced(b, r, p, Some(taken)) {
      TracedIsSame(b, r, p, Some(taken));
      CurrentExactly(b, r, p);
      if r.ports[p].rx.rcvdBpdu { SamePathIsStillBest(b, r, p); }
    } else {
      SettledIsSure(r);
      CurrentIsUpToDate(r);
    }
  }

  lemma ArrivalIsTraced(cfg: BridgeConfig, prt: Port, m: Bpdu, size: nat)
    requires PortShape(cfg, prt) && WellSized(m) && ReceiveBpdu(prt, m, size).Some? && prt.cfg.portEnabled
    requires Traced(cfg, prt, prt, true, None) && PM.NextMigration(cfg, prt).None? && !prt.info[0].rcvdMsg
    ensures var r, taken := ReceiveBpdu(prt, m, size).value, Taken(prt, m, size);
      WellSized(taken) && Traced(cfg, prt, r, true, Some(taken)) && |r.info| > 0 && !r.info[0].rcvdMsg
  {
    ReceiveIsOk(cfg, prt, m, size);
    hide NodeOk, IsNews, AnnouncedMstis;
  }

  /** A migration check at a steady bridge.  Once the bridge has settled, its roles are those role selection would
      choose if and only if it is its own regional root, or the port sends the same kind of BPDUs as before. */
  lemma CheckExactly(b: Bridge, p: nat, limit: PassLimit)
    requires Steady(b) && NoneWaits(b) && p < |b.ports| && Settled(Advance(b, Step(MigrationCheck(p), limit)))
    ensures var r := Advance(b, Step(MigrationCheck(p), limit));
      Shape(r) && (RS.Current(r) <==> AtHome(b) || r.ports[p].mig.sendRSTP == b.ports[p].mig.sendRSTP)
  {
    hide PortOk, Settled, RS.Current, UpToDate, StillBest, IsNews, RunMachines, AllTraced, Traced;
    var c, r := Apply(b, MigrationCheck(p)), Advance(b, Step(MigrationCheck(p), limit));
    ShapeOfPort(b, p);
    ShapeOfOk(r);
    if CheckHeeded(b, p) {
      SettledIsTraced(b, p, true);
      CheckIsTraced(b.cfg, b.ports[p]);
      EventIsTraced(b, c, p, None);
      TracedRun(b, c, p, None, limit);
      TracedIsSame(b, r, p, None);
      CurrentExactly(b, r, p);
      SamePathIsStillBest(b, r, p);
    }
  }

  lemma CheckIsTraced(cfg: BridgeConfig, prt: Port)
    requires PortShape(cfg, prt) && Traced(cfg, prt, prt, true, None) && !prt.info[0].rcvdMsg
    ensures Traced(cfg, prt, Check(prt), true, None) && |Check(prt).info| > 0 && !Check(prt).info[0].rcvdMsg
  {
    CheckIsOk(cfg, prt);
    hide NodeOk, IsNews;
  }

  // ---- A migration check that goes unnoticed --------------------------------------------------------

  const CONFIG := BridgeConfig(PROTO_MSTP, 20, 15, 20, 2, 6, 3, ConfigId(0, [], 0, [1]), [0])
  const OWN_ID: BridgeId := 0x8000_0000_0000_0001
  const ROOT_ID: BridgeId := 0x1000_0000_0000_0009
  const TIMES := Times(20, 15, 20, 0, 2)

  /** The root port of a bridge inside the region of its root; it sends STP BPDUs while `mig` says so. */
  function InnerPort(mig: Migration, proposing: bool): (r: Port)
    ensures r.cfg.portEnabled && r.mig == mig && !r.rx.rcvdBpdu
  {
    var heard := Vector(ROOT_ID, 0, ROOT_ID, 0, ROOT_ID, 0x8001);
    Port(PortConfig(true, true, false, false, 20000, false, true, false, false, false, false, false),
         [PtpConfig(0x8001, 20000)], Rx(RxReceive, false, false, false, true, PT.BlankBpdu(), 0, 3), mig,
         EdgeVars(NotEdge, false), Tx(TransmitIdle, 0, 2, false, false, false, []), PortFlags(true, false, false),
         Assurance(false,
             0), [Info(InfoCurrent, IoReceived, OtherInfo, false, false, 6, 0, heard, TIMES, heard, TIMES)],
         [Selection(true, false, RoleRoot, Vector(ROOT_ID, 0, OWN_ID, 20000, OWN_ID, 0x8001),
             TIMES.(remainingHops := 19))],
         [Handshake(false, proposing, true, false, false, false, true, false, false, false, false)],
         [RoleVars(RootPort, RoleRoot, true, true, 0, 15, 0)],
         [ForwardingVars(Forwarding, true, true, BrForwarding)], [Topology(TcActive, 0, false, false)])
  }

  function Inner(mig: Migration, proposing: bool): Bridge {
    Bridge(CONFIG,
           [Tree(0, OWN_ID, NR.OwnVector(OWN_ID), TIMES, Vector(ROOT_ID, 0, ROOT_ID, 20000, ROOT_ID, 0x8001), 0x8001,
                 TIMES.(remainingHops := 19), RoleSelection)],
           [InnerPort(mig, proposing)])
  }

  const LEGACY := Migration(Sensing, 0, false, false)
  const CHECKING := Migration(CheckingRstp, 3, false, true)

  lemma InnerPortRests(mig: Migration, proposing: bool)
    requires mig == LEGACY || mig == LEGACY.(mcheck := true) || mig == CHECKING
    ensures PortOk(CONFIG, InnerPort(mig, proposing))
    ensures forall k: Phase :: !k.Migrate? ==> !PhaseDue(k, CONFIG, InnerPort(mig, proposing))
    ensures PM.NextMigration(CONFIG, InnerPort(mig, proposing)) == if mig.mcheck then Some(CheckingRstp) else None
  {
    hide PT.BlankBpdu;
    assert NodeOk(InnerPort(mig, proposing), 0);
    hide NodeOk;
    assert PortOk(CONFIG, InnerPort(mig, proposing));
    forall k: Phase | !k.Migrate? ensures !PhaseDue(k, CONFIG, InnerPort(mig, proposing)) { }
  }

  lemma InnerIsSettled(mig: Migration, proposing: bool)
    requires mig == LEGACY || mig == CHECKING
    ensures BridgeOk(Inner(mig, proposing)) && Settled(Inner(mig, proposing)) && Shape(Inner(mig, proposing))
  {
    InnerPortRests(mig, proposing);
    hide PT.BlankBpdu, PortOk, RT.NextAlternate, RT.NextDesignated, RT.NextDisabled, RT.NextMaster;
    var b := Inner(mig, proposing);
    ShapeOfOk(b);
    assert RM.Next(b, 0, 0).None? && TC.Next(b.ports[0], 0).None? && !RS.SelectionDue(b, 0);
    hide RM.Next, TC.Next;
    assert !PhaseDue(Migrate, CONFIG, InnerPort(mig, proposing));
    forall k: Phase ensures !PhaseDue(k, CONFIG, InnerPort(mig, proposing)) { }
  }

  lemma InnerIsSteady()
    ensures Steady(Inner(LEGACY, false)) && NoneWaits(Inner(LEGACY, false)) && !AtHome(Inner(LEGACY, false))
  {
    InnerIsSettled(LEGACY, false);
    hide PT.BlankBpdu, Settled, BridgeOk;
    var b, prt := Inner(LEGACY, false), InnerPort(LEGACY, false);
    var tree := b.trees[0];
    assert RS.Candidate(tree, 0, prt) && RS.RootPath(tree, 0, prt) == tree.rootPriority;
    assert RS.Choose(CONFIG, tree, 0, b.ports, 0) == RS.Best(tree.bridgePriority, 0, None);
    assert RS.NewTree(CONFIG, tree, 0, b.ports) == tree && RS.RootIndex(CONFIG, tree, 0, b.ports) == Some(0);
    hide RS.Choose;
    assert RS.SelectPort(tree, 0, prt, true, false).sel == prt.sel;
    assert RS.SelectPort(tree, 0, prt, true, false) == prt;
    RS.CurrentByPorts(b);
  }

  lemma InnerPass()
    ensures BridgeOk(Inner(LEGACY.(mcheck := true), true))
    ensures RunOnce(Inner(LEGACY.(mcheck := true), true)) == Inner(CHECKING, true)
  {
    hide PT.BlankBpdu, PortOk, PhaseDue, Settled, LateMachines, SB.NodesIdle, PM.NextMigration;
    InnerPortRests(LEGACY.(mcheck := true), true);
    InnerPortRests(CHECKING, true);
    InnerIsSettled(CHECKING, true);
    var b, r := Inner(LEGACY.(mcheck := true), true), Inner(CHECKING, true);
    SB.PortsAreIdle(Assure, b);
    SB.PortsAreIdle(Receive, b);
    assert RunPorts(Migrate, b).ports == r.ports;
    SB.PortsAreIdle(DetectEdge, r);
    SB.PortsAreIdle(Transmit, r);
    SB.PortsAreIdle(Inform, r);
    SB.SelectionsAreIdle(r, 1);
    SB.SettledParts(r);
    SB.LateMachinesAreIdle(r);
  }

  /** Inside the region of its root, a port that has sent STP BPDUs is told to check: it sends RST BPDUs again, under a
      regional root that its designated vector does not name. */
  lemma CheckGoesUnnoticed(limit: PassLimit)
    ensures Steady(Inner(LEGACY, false))
    ensures var r := Advance(Inner(LEGACY, false), Step(MigrationCheck(0), limit));
      Shape(r) && Settled(r) && !RS.Current(r)
  {
    hide PT.BlankBpdu, PortOk, Settled, RS.Current, RunOnce, RunMachines;
    InnerIsSteady();
    InnerPass();
    InnerIsSettled(CHECKING, true);
    var b := Inner(LEGACY, false);
    var checked := LEGACY.(mcheck := true);
    assert Check(InnerPort(LEGACY, false)).hs == InnerPort(checked, true).hs;
    assert Apply(b, MigrationCheck(0)).ports == [InnerPort(checked, true)];
    SB.OnePassToRest(Apply(b, MigrationCheck(0)), Inner(CHECKING, true), limit);
    CheckExactly(b, 0, limit);
  }
}
