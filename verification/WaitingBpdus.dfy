/**
 BPDUs that a settled bridge leaves unread.  Port Receive takes no BPDU while a message waits at some tree
 (mstp.c:2946-2963), and at the boundary of a region an MSTI whose information has aged takes no message while it
 holds its own designated vector already (mstp.c:2748-2775 and 3505-3512).
 */
module WaitingBpdus {
  import opened Types
  import opened PortInvariant
  import opened BridgeRun
  import opened Events
  import opened Passes
  import opened Freshness
  import PI = PortInformation
  import PM = PortMachines
  import PT = PortTransmit
  import RS = RoleSelection
  import RT = RoleTransitions
  import RM = RoleMachine
  import TC = TopologyChange
  import SB = SettledBridge
  import SI = StaleInformation
  import Priority

  // ---- When it happens ------------------------------------------------------------------------------

  /** Some MSTI of the port has aged, and a message waits for it. */
  predicate AgedMstiWaits(prt: Port) {
    exists t :: 1 <= t < |prt.info| && prt.info[t].rcvdMsg && prt.info[t].infoIs == IoAged
  }

  /** A message can only be waiting in a settled bridge for an MSTI that has aged. */
  lemma SettledMessageWaits(b: Bridge, p: nat)
    requires BridgeOk(b) && Settled(b) && p < |b.ports|
    ensures PM.RcvdAnyMsg(b.ports[p]) <==> AgedMstiWaits(b.ports[p])
  {
    var prt := b.ports[p];
    ShapeOfOk(b);
    SB.SettledShape(b, p);
    assert !PhaseDue(Inform, b.cfg, prt);
    forall t | 1 <= t < |prt.info| && prt.info[t].rcvdMsg ensures prt.info[t].infoIs == IoAged {
      assert NodeOk(prt, t) && PI.Next(prt, t).None?;
      assert !RS.SelectionDue(b, t) && !b.ports[p].sel[t].reselect;
      SB.SettledMsti(prt, t);
    }
  }

  /** No tree of the port has anything to do about information or roles, and no BPDU is read. */
  predicate Halts(cfg: BridgeConfig, prt: Port) {
    && PortOk(cfg, prt) && (prt.cfg.portEnabled ==> PM.NextReceive(cfg, prt).None?)
    && forall t :: 0 <= t < |prt.info| ==> PI.Next(prt, t).None? && !prt.sel[t].reselect
  }

  /** What is waiting on an enabled port goes on waiting. */
  predicate StillWaits(prt: Port, r: Port) {
    && r.cfg == prt.cfg && |r.info| == |prt.info|
    && (prt.cfg.portEnabled ==> r.info == prt.info && r.rx.rcvdBpdu == prt.rx.rcvdBpdu && r.rx.state == prt.rx.state)
  }

  lemma HaltedPhase(k: Phase, cfg: BridgeConfig, prt: Port)
    requires Halts(cfg, prt) && !k.Forward? && !k.Receive?
    ensures Halts(cfg, RunPhase(k, cfg, prt)) && StillWaits(prt, RunPhase(k, cfg, prt))
  {
    HelloTimeIsFixed(cfg, prt);
    PhaseKeepsPort(k, cfg, prt);
    if k.Inform? { SB.InformationIsIdle(cfg, prt, |cfg.mstids|) by { assert !InformationDue(prt); } }
    hide NodeOk, PM.RunMigration, PM.RunEdge, PT.Run, RunInformation, PM.RcvdAnyMsg, PI.Next;
    HaltsAsBefore(cfg, prt, RunPhase(k, cfg, prt));
  }

  lemma HaltsAsBefore(cfg: BridgeConfig, prt: Port, r: Port)
    requires Halts(cfg, prt) && PortOk(cfg, r) && r.cfg == prt.cfg && r.info == prt.info && r.sel == prt.sel
    requires r.rx.rcvdBpdu == prt.rx.rcvdBpdu && r.rx.state == prt.rx.state
    ensures Halts(cfg, r)
  {
    SameMessages(prt, r);
    hide NodeOk, PM.RcvdAnyMsg;
    assert forall t :: 0 <= t < |prt.info| ==> PI.Next(r, t) == PI.Next(prt, t);
  }

  lemma HaltedReceive(cfg: BridgeConfig, prt: Port)
    requires Halts(cfg, prt)
    ensures Halts(cfg, RunPhase(Receive, cfg, prt)) && StillWaits(prt, RunPhase(Receive, cfg, prt))
  {
    PhaseKeepsPort(Receive, cfg, prt);
    assert forall t :: 0 <= t < |prt.info| ==> NodeOk(prt, t);
    hide RoleOk, PM.EnterReceive, PM.RcvdAnyMsg, PortOk;
    if !prt.cfg.portEnabled {
      forall t | 0 <= t < |prt.info| ensures PI.Next(RunPhase(Receive, cfg, prt), t).None? {
        assert NodeOk(prt, t) && PI.Next(prt, t).None?;
      }
    }
  }

  lemma SameMessages(prt: Port, r: Port)
    requires r.info == prt.info
    ensures PM.RcvdAnyMsg(r) == PM.RcvdAnyMsg(prt)
  {
  }

  /** Nothing is read and nothing is selected anywhere. */
  predicate AllHalt(b: Bridge)
    requires BridgeOk(b)
  {
    && (forall t :: 0 <= t < |b.trees| ==> b.trees[t].state == RoleSelection)
    && forall q :: 0 <= q < |b.ports| ==> Halts(b.cfg, b.ports[q])
  }

  lemma {:induction false} NothingIsSelected(b: Bridge, n: nat)
    requires BridgeOk(b) && AllHalt(b) && n <= |b.trees|
    ensures RunSelections(b, n) == b
  {
    hide NodeOk, PI.Next, PM.NextReceive, RS.EnterSelection;
    if n > 0 {
      NothingIsSelected(b, n - 1);
      ShapeOfOk(b);
      assert forall q :: 0 <= q < |b.ports| ==> Halts(b.cfg, b.ports[q]) && !b.ports[q].sel[n - 1].reselect;
    }
  }

  lemma HaltedPass(b: Bridge, p: nat)
    requires BridgeOk(b) && AllHalt(b) && p < |b.ports|
    ensures AllHalt(RunOnce(b)) && StillWaits(b.ports[p], RunOnce(b).ports[p])
  {
    hide PortOk, Halts, RunPhase, RunSelections, LateMachines;
    var b1 := RunPorts(Assure, b);
    var b2 := RunPorts(Receive, b1);
    var b3 := RunPorts(Migrate, b2);
    var b4 := RunPorts(DetectEdge, b3);
    var b5 := RunPorts(Transmit, b4);
    var d := RunPorts(Inform, b5);
    forall q | 0 <= q < |b.ports| ensures Halts(b.cfg, d.ports[q]) && StillWaits(b.ports[q], d.ports[q]) {
      HaltedPhase(Assure, b.cfg, b.ports[q]);
      HaltedReceive(b.cfg, b1.ports[q]);
      HaltedPhase(Migrate, b.cfg, b2.ports[q]);
      HaltedPhase(DetectEdge, b.cfg, b3.ports[q]);
      HaltedPhase(Transmit, b.cfg, b4.ports[q]);
      HaltedPhase(Inform, b.cfg, b5.ports[q]);
    }
    NothingIsSelected(d, |d.trees|);
    LateMachinesFrame(d);
    forall q | 0 <= q < |b.ports|
      ensures Halts(b.cfg, RunOnce(b).ports[q]) && StillWaits(b.ports[q], RunOnce(b).ports[q])
    {
      assert LateFrame(d.ports[q], LateMachines(d).ports[q]);
      ShapeOfPort(RunOnce(b), q);
      HaltsAsBefore(b.cfg, d.ports[q], RunOnce(b).ports[q]);
    }
  }

  lemma {:induction false} HaltedRun(b: Bridge, p: nat, limit: nat)
    requires BridgeOk(b) && AllHalt(b) && p < |b.ports|
    ensures StillWaits(b.ports[p], RunMachines(b, limit).ports[p])
    decreases limit
  {
    hide BridgeOk, AllHalt, RunOnce, Settled;
    if limit > 0 && !Settled(b) {
      HaltedPass(b, p);
      HaltedRun(RunOnce(b), p, limit - 1);
    }
  }

  /** A BPDU that has been read, or is about to be, does not come back. */
  lemma ReadPhase(k: Phase, cfg: BridgeConfig, prt: Port)
    requires PortOk(cfg, prt) && (prt.rx.rcvdBpdu ==> k.Receive? && PM.NextReceive(cfg, prt).Some?)
    ensures !RunPhase(k, cfg, prt).rx.rcvdBpdu
  {
    HelloTimeIsFixed(cfg, prt);
    if k.Inform? { InformationAsks(Terms(false, false, false), cfg, prt, |cfg.mstids|); }
    hide NodeOk, PM.EnterReceive, PM.RunMigration, PM.RunEdge, PT.Run, RunInformation, PM.RcvdAnyMsg;
  }

  lemma ReadPass(b: Bridge, p: nat)
    requires BridgeOk(b) && p < |b.ports| && (b.ports[p].rx.rcvdBpdu ==> PhaseDue(Receive, b.cfg, b.ports[p]))
    ensures !RunOnce(b).ports[p].rx.rcvdBpdu
  {
    hide NodeOk, RunPhase, RunSelections, LateMachines, PM.NextReceive;
    var b1 := RunPorts(Assure, b);
    AssuranceReadsNothing(b.cfg, b.ports[p]);
    var b2 := RunPorts(Receive, b1);
    ReadPhase(Receive, b.cfg, b1.ports[p]);
    var b3 := RunPorts(Migrate, b2);
    ReadPhase(Migrate, b.cfg, b2.ports[p]);
    var b4 := RunPorts(DetectEdge, b3);
    ReadPhase(DetectEdge, b.cfg, b3.ports[p]);
    var b5 := RunPorts(Transmit, b4);
    ReadPhase(Transmit, b.cfg, b4.ports[p]);
    var d := RunPorts(Inform, b5);
    ReadPhase(Inform, b.cfg, b5.ports[p]);
    SelectionsFrames(d, |d.trees|);
    assert SelectionFrame(d.ports[p], RunSelections(d, |d.trees|).ports[p]);
    LateMachinesFrame(RunSelections(d, |d.trees|));
    assert LateFrame(RunSelections(d, |d.trees|).ports[p], RunOnce(b).ports[p]);
  }

  lemma AssuranceReadsNothing(cfg: BridgeConfig, prt: Port)
    requires PortOk(cfg, prt)
    ensures PortOk(cfg, RunPhase(Assure, cfg, prt)) && RunPhase(Assure, cfg, prt).rx == prt.rx
    ensures PM.NextReceive(cfg, RunPhase(Assure, cfg, prt)) == PM.NextReceive(cfg, prt)
  {
    PhaseKeepsPort(Assure, cfg, prt);
    SameMessages(prt, RunAssurance(prt));
    hide NodeOk, PM.RcvdAnyMsg;
  }

  lemma {:induction false} ReadRun(b: Bridge, p: nat, limit: nat)
    requires BridgeOk(b) && p < |b.ports| && !b.ports[p].rx.rcvdBpdu
    ensures !RunMachines(b, limit).ports[p].rx.rcvdBpdu
    decreases limit
  {
    hide BridgeOk, RunOnce, Settled, PhaseDue;
    if limit > 0 && !Settled(b) {
      ReadPass(b, p);
      ReadRun(RunOnce(b), p, limit - 1);
    }
  }

  /** A BPDU that arrives at a settled bridge on an enabled port is left unread, however many passes follow, exactly if
      a message waits for an aged MSTI of the port. */
  lemma LeftUnreadExactly(b: Bridge, p: nat, m: Bpdu, size: nat, limit: PassLimit)
    requires BridgeOk(b) && Settled(b) && Acceptable(b, BpduArrives(p, m, size)) && b.ports[p].cfg.portEnabled
    requires Runs(b, BpduArrives(p, m, size))
    ensures Advance(b, Step(BpduArrives(p, m, size), limit)).ports[p].rx.rcvdBpdu <==>
      b.ports[p].rx.state == RxReceive && AgedMstiWaits(b.ports[p])
  {
    hide Settled, PortOk, AgedMstiWaits, RunMachines, RunOnce, PhaseDue, ReceiveBpdu;
    var c := Apply(b, BpduArrives(p, m, size));
    DueOnArrival(b, p, m, size);
    if b.ports[p].rx.state == RxReceive && AgedMstiWaits(b.ports[p]) {
      ArrivalHalts(b, p, m, size);
      HaltedRun(c, p, limit);
    } else {
      ReadPass(c, p);
      assert !Settled(c) by { if Settled(c) { SettledIsNotDue(c, p); } }
      assert RunMachines(c, limit) == RunMachines(RunOnce(c), limit - 1) by { UnfoldRun(c, limit); }
      ReadRun(RunOnce(c), p, limit - 1);
    }
  }

  lemma SettledIsNotDue(b: Bridge, p: nat)
    requires BridgeOk(b) && Settled(b) && p < |b.ports|
    ensures !PhaseDue(Receive, b.cfg, b.ports[p])
  {
    SB.SettledParts(b);
  }

  lemma UnfoldRun(b: Bridge, limit: PassLimit)
    requires BridgeOk(b) && !Settled(b)
    ensures RunMachines(b, limit) == RunMachines(RunOnce(b), limit - 1)
  {
    hide BridgeOk, Settled, RunOnce;
  }

  lemma DueOnArrival(b: Bridge, p: nat, m: Bpdu, size: nat)
    requires BridgeOk(b) && Settled(b) && Acceptable(b, BpduArrives(p, m, size)) && b.ports[p].cfg.portEnabled
    requires Runs(b, BpduArrives(p, m, size))
    ensures var r := Apply(b, BpduArrives(p, m, size)).ports[p];
      && r.rx.rcvdBpdu && r.rx.state == b.ports[p].rx.state && r.cfg == b.ports[p].cfg
      && (!PhaseDue(Receive, b.cfg, r) <==> b.ports[p].rx.state == RxReceive && AgedMstiWaits(b.ports[p]))
  {
    hide Settled, NodeOk, Validate, AgedMstiWaits;
    SettledMessageWaits(b, p);
    var r := Apply(b, BpduArrives(p, m, size)).ports[p];
    SameMessages(b.ports[p], r);
  }

  lemma ArrivalHalts(b: Bridge, p: nat, m: Bpdu, size: nat)
    requires BridgeOk(b) && Settled(b) && Acceptable(b, BpduArrives(p, m, size)) && b.ports[p].cfg.portEnabled
    requires Runs(b, BpduArrives(p, m, size)) && b.ports[p].rx.state == RxReceive && AgedMstiWaits(b.ports[p])
    ensures AllHalt(Apply(b, BpduArrives(p, m, size)))
  {
    DueOnArrival(b, p, m, size);
    var c := Apply(b, BpduArrives(p, m, size));
    ShapeOfOk(b);
    forall t | 0 <= t < |b.trees| ensures c.trees[t].state == RoleSelection { assert !RS.SelectionDue(b, t); }
    forall q | 0 <= q < |b.ports| ensures Halts(b.cfg, c.ports[q]) {
      SettledHalts(b, q);
      if q == p { ArrivedHalts(b.cfg, b.ports[p], c.ports[p]) by { ArrivesOn(b, p, m, size); } }
    }
  }

  lemma SettledHalts(b: Bridge, q: nat)
    requires BridgeOk(b) && Settled(b) && q < |b.ports|
    ensures Halts(b.cfg, b.ports[q])
  {
    ShapeOfOk(b);
    assert !PhaseDue(Receive, b.cfg, b.ports[q]) && !PhaseDue(Inform, b.cfg, b.ports[q]);
    forall t | 0 <= t < |b.ports[q].info| ensures !b.ports[q].sel[t].reselect { assert !RS.SelectionDue(b, t); }
    hide Settled, NodeOk, PI.Next;
  }

  lemma ArrivesOn(b: Bridge, p: nat, m: Bpdu, size: nat)
    requires BridgeOk(b) && Acceptable(b, BpduArrives(p, m, size)) && Runs(b, BpduArrives(p, m, size))
    ensures var prt, r := b.ports[p], Apply(b, BpduArrives(p, m, size)).ports[p];
      && PortOk(b.cfg, r) && r.cfg == prt.cfg && r.info == prt.info && r.sel == prt.sel && r.rx.state == prt.rx.state
  {
    hide NodeOk, Validate;
  }

  lemma ArrivedHalts(cfg: BridgeConfig, prt: Port, r: Port)
    requires Halts(cfg, prt) && PortOk(cfg, r) && r.cfg == prt.cfg && r.info == prt.info && r.sel == prt.sel
    requires PM.NextReceive(cfg, r).None?
    ensures Halts(cfg, r)
  {
    hide NodeOk, PM.NextReceive;
    assert forall t :: 0 <= t < |prt.info| ==> PI.Next(r, t) == PI.Next(prt, t);
  }

  /** The only BPDUs in a settled bridge are those left unread. */
  lemma PendingBpduExactly(b: Bridge, p: nat)
    requires BridgeOk(b) && Settled(b) && p < |b.ports| && b.ports[p].rx.rcvdBpdu
    ensures b.ports[p].cfg.portEnabled && b.ports[p].rx.state == RxReceive && AgedMstiWaits(b.ports[p])
  {
    SettledMessageWaits(b, p);
    assert !PhaseDue(Receive, b.cfg, b.ports[p]);
    hide Settled, NodeOk, AgedMstiWaits;
  }

  /** A bridge without MSTIs reads every BPDU. */
  lemma SingleTreeReadsAll(b: Bridge, p: nat)
    requires BridgeOk(b) && Settled(b) && |b.trees| == 1 && p < |b.ports|
    ensures !b.ports[p].rx.rcvdBpdu
  {
    hide Settled, NodeOk;
    if b.ports[p].rx.rcvdBpdu { PendingBpduExactly(b, p); }
  }

  /** So does one that hears other regions only. */
  lemma OutsideReadsAll(b: Bridge, history: seq<Step>, p: nat)
    requires BridgeOk(b) && Shape(b) && Fresh(b) && Grounded(b) && Outside(b) && OuterHistory(b, history)
    requires Settled(After(b, history)) && p < |b.ports|
    ensures !After(b, history).ports[p].rx.rcvdBpdu
  {
    hide Settled, NodeOk, After, CarefulHistory, OuterHistory, UpToDate;
    var r := After(b, history);
    OuterIsCareful(b, history);
    assert SI.External(r.cfg, r.ports[p]);
    if r.ports[p].rx.rcvdBpdu { PendingBpduExactly(r, p); }
  }

  // ---- A history that leads there -------------------------------------------------------------------

  const REGION := ConfigId(0, [], 0, [1])
  const CONFIG := BridgeConfig(PROTO_MSTP, 20, 15, 20, 2, 6, 3, REGION, [0, 1])
  const OWN_ID: BridgeId := 0x8000_0000_0000_0001
  const MSTI_ID: BridgeId := 0x8001_0000_0000_0001
  const ROOT_ID: BridgeId := 0x1000_0000_0000_0009
  const OWN_TIMES := Times(20, 15, 20, 0, 2)
  const ROOT_TIMES := Times(20, 15, 20, 1, 2)
  const OWN_MSTI := Vector(MSTI_ID, 0, MSTI_ID, 0, MSTI_ID, 0x8001)

  function CistTree(): Tree {
    Tree(0, OWN_ID, Vector(OWN_ID, 0, OWN_ID, 0, OWN_ID, 0), OWN_TIMES,
         Vector(ROOT_ID, 20000, OWN_ID, 0, ROOT_ID, 0x8001), 0x8001, ROOT_TIMES, RoleSelection)
  }

  function MstiTree(): Tree {
    Tree(1, MSTI_ID, Vector(MSTI_ID, 0, MSTI_ID, 0, MSTI_ID, 0), OWN_TIMES,
         Vector(MSTI_ID, 0, MSTI_ID, 0, MSTI_ID, 0), 0, OWN_TIMES, RoleSelection)
  }

  /** The CIST node hears the root from another region. */
  function CistInfo(while': nat): Info {
    var heard := Vector(ROOT_ID, 0, ROOT_ID, 0, ROOT_ID, 0x8001);
    Info(InfoCurrent, IoReceived, OtherInfo, false, false, while', 0, heard, OWN_TIMES, heard, OWN_TIMES)
  }

  /** The MSTI node holds the vector the bridge itself sends, as on a segment where it has heard its own BPDUs. */
  function MstiInfo(state: InfoState, infoIs: InfoIs, while': nat, waits: bool): Info {
    Info(state, infoIs, OtherInfo, waits, false, while', 0, OWN_MSTI, OWN_TIMES, OWN_MSTI, OWN_TIMES)
  }

  function MstiSelection(selected: bool): Selection { Selection(selected, !selected, RoleMaster, OWN_MSTI, OWN_TIMES) }

  /** The Root port of the bridge, a boundary port. */
  function BoundaryPort(rx: Rx, helloWhen: nat, ba: Assurance, rrWhile: nat, cist: Info, msti: Info,
                        sel: Selection): (r: Port)
    ensures r.rx == rx && |r.info| == |r.sel| == |r.rv| == |r.fw| == |r.tc| == |r.hs| == |r.conf| == 2
  {
    Port(PortConfig(true, true, false, false, 20000, false, true, false, false, false, false, false),
         [PtpConfig(0x8001, 20000), PtpConfig(0x8001, 20000)], rx,
         Migration(Sensing, 0, false, true), EdgeVars(NotEdge, false),
         Tx(TransmitIdle, 0, helloWhen, false, false, false, []), PortFlags(false, false, false), ba,
         [cist, msti], [Selection(true, false, RoleRoot, Vector(ROOT_ID, 20000, OWN_ID, 0, OWN_ID, 0x8001), ROOT_TIMES),
             sel],
         [Handshake(false, false, true, false, false, false, true, false, false, false, false),
          Handshake(false, false, true, false, false, false, true, false, false, false, false)],
         [RoleVars(RootPort, RoleRoot, true, true, 0, rrWhile, 0),
             RoleVars(MasterPort, RoleMaster, true, true, 0, 0, 0)],
         [ForwardingVars(Forwarding, true, true, BrForwarding), ForwardingVars(Forwarding, true, true, BrForwarding)],
         [Topology(TcActive, 0, false, false), Topology(TcActive, 0, false, false)])
  }

  function Boundary(prt: Port): Bridge { Bridge(CONFIG, [CistTree(), MstiTree()], [prt]) }

  /** A BPDU of the bridge's own region that says nothing about the CIST and something about the MSTI. */
  function OwnRegionBpdu(): (r: Bpdu)
    ensures WellSized(r)
  {
    var b := PT.BlankBpdu();
    b.(version := PROTO_MSTP, bpduType := BPDU_TYPE_RST, version3Len := 80, configId := REGION,
       mstis := b.mstis[0 := MstiMessage(0, MSTI_ID, 0, 0x80, 0x80, 20)])
  }

  const BPDU_SIZE := 118

  function Unheard(): Rx { Rx(RxReceive, false, false, false, false, PT.BlankBpdu(), 0, 0) }

  function Heard(pending: bool): Rx {
    Rx(RxReceive, pending, true, false, true, OwnRegionBpdu(), 1, 3)
  }

  /** At rest, a second before the MSTI's information ages. */
  function Before(): Bridge {
    Boundary(BoundaryPort(Unheard(), 2, Assurance(false, 0), 15, CistInfo(6),
        MstiInfo(InfoCurrent, IoReceived, 1, false), MstiSelection(true)))
  }

  /** At rest with aged information. */
  function AgedBoundary(): Bridge {
    Boundary(BoundaryPort(Unheard(), 1, Assurance(false, 0), 15, CistInfo(5), MstiInfo(InfoAged, IoAged, 0, false),
        MstiSelection(true)))
  }

  /** At rest with a message for it. */
  function DeafBoundary(pending: bool): Bridge {
    Boundary(BoundaryPort(Heard(pending), 1, Assurance(false, 6), 15, CistInfo(5), MstiInfo(InfoAged, IoAged, 0, true),
        MstiSelection(true)))
  }

  lemma BoundaryIsOk(prt: Port)
    requires PortShape(CONFIG, prt) && |prt.info| == 2 && NodeOk(prt, 0) && NodeOk(prt, 1)
    requires prt.tx.txCount == 0 && prt.rx.numMstis <= 1 && prt.ba.rcvdInfoWhile <= 6
    ensures BridgeOk(Boundary(prt)) && Shape(Boundary(prt))
  {
    assert PortOk(CONFIG, prt) by { hide NodeOk; }
    hide PortOk;
  }

  lemma BoundaryNodesAreIdle(rx: Rx, hello: nat, ba: Assurance, cist: Info, msti: Info)
    requires var prt := BoundaryPort(rx, hello, ba, 15, cist, msti, MstiSelection(true));
      BridgeOk(Boundary(prt)) && !cist.updtInfo && !msti.updtInfo
    ensures SB.NodesIdle(Boundary(BoundaryPort(rx, hello, ba, 15, cist, msti, MstiSelection(true))))
  {
    hide PortOk, PT.BlankBpdu, RT.NextAlternate, RT.NextDesignated, RT.NextDisabled;
    var b := Boundary(BoundaryPort(rx, hello, ba, 15, cist, msti, MstiSelection(true)));
    ShapeOfOk(b);
    assert RM.Next(b, 0, 0).None?;
    assert RM.Next(b, 0, 1).None?;
    assert TC.Next(b.ports[0], 0).None? && TC.Next(b.ports[0], 1).None?;
  }

  lemma BoundaryIsSettled(b: Bridge, rx: Rx, hello: nat, ba: Assurance, cist: Info, msti: Info)
    requires b == Boundary(BoundaryPort(rx, hello, ba, 15, cist, msti, MstiSelection(true)))
    requires BridgeOk(b) && !cist.updtInfo && !msti.updtInfo && forall k: Phase :: !PhaseDue(k, CONFIG, b.ports[0])
    ensures Settled(b)
  {
    ShapeOfOk(b);
    BoundaryNodesAreIdle(rx, hello, ba, cist, msti);
    hide PhaseDue, RM.Next, TC.Next, PT.BlankBpdu, PortOk;
    assert !RS.SelectionDue(b, 0) && !RS.SelectionDue(b, 1);
  }

  /** The ports of the history at rest. */
  lemma BoundaryPortsRest(pending: bool)
    ensures var before, aged, deaf := Before(), AgedBoundary(), DeafBoundary(pending);
      && BridgeOk(before) && BridgeOk(aged) && BridgeOk(deaf)
      && (forall k: Phase :: !PhaseDue(k, CONFIG, before.ports[0]))
      && (forall k: Phase :: !PhaseDue(k, CONFIG, aged.ports[0]))
      && (forall k: Phase :: !PhaseDue(k, CONFIG, deaf.ports[0]))
  {
    hide PT.BlankBpdu, OwnRegionBpdu;
    var before, aged, deaf := Before(), AgedBoundary(), DeafBoundary(pending);
    BoundaryIsOk(before.ports[0]);
    BoundaryIsOk(aged.ports[0]);
    BoundaryIsOk(deaf.ports[0]);
    forall k: Phase ensures !PhaseDue(k, CONFIG, before.ports[0]) { hide NodeOk; }
    forall k: Phase ensures !PhaseDue(k, CONFIG, aged.ports[0]) { hide NodeOk; }
    forall k: Phase ensures !PhaseDue(k, CONFIG, deaf.ports[0]) {
      hide NodeOk;
      assert deaf.ports[0].info[1].rcvdMsg;
    }
  }

  lemma HistorySettles(pending: bool)
    ensures BridgeOk(Before()) && Settled(Before()) && BridgeOk(AgedBoundary()) && Settled(AgedBoundary())
    ensures BridgeOk(DeafBoundary(pending)) && Settled(DeafBoundary(pending))
  {
    hide PhaseDue, PT.BlankBpdu, OwnRegionBpdu, NodeOk, Settled, RS.SelectionDue;
    BoundaryPortsRest(pending);
    BoundaryIsSettled(Before(), Unheard(), 2, Assurance(false, 0), CistInfo(6),
        MstiInfo(InfoCurrent, IoReceived, 1, false));
    BoundaryIsSettled(AgedBoundary(), Unheard(), 1, Assurance(false, 0), CistInfo(5),
        MstiInfo(InfoAged, IoAged, 0, false));
    BoundaryIsSettled(DeafBoundary(pending), Heard(pending), 1, Assurance(false, 6), CistInfo(5),
        MstiInfo(InfoAged, IoAged, 0, true));
  }

  /** The MSTI's information ages: the tick and the steps on the port. */
  function TickedBoundary(state: InfoState, infoIs: InfoIs, wait: nat, selected: bool, rrWhile: nat): Bridge {
    Boundary(BoundaryPort(Unheard(), 1, Assurance(false, 0), rrWhile, CistInfo(5), MstiInfo(state, infoIs, wait, false),
        MstiSelection(selected)))
  }

  function Expired(): Bridge { TickedBoundary(InfoCurrent, IoReceived, 0, true, 14) }

  function Aged(selected: bool): Bridge { TickedBoundary(InfoAged, IoAged, 0, selected, 14) }

  lemma AgeingTick()
    ensures BridgeOk(Before()) && Tick(Before()) == Expired()
  {
    BoundaryPortsRest(false);
    hide PT.BlankBpdu, PhaseDue, PortOk;
    var prt, r := Before().ports[0], Expired().ports[0];
    assert TickPort(prt).info == r.info;
    assert TickPort(prt).rv == r.rv;
    assert TickPort(prt).tc == r.tc;
    assert Tick(Before()).ports == [r];
  }

  /** Only Port Information of the MSTI has something to do. */
  lemma AgeingSteps()
    ensures var a, c := Expired(), Aged(false);
      && BridgeOk(a) && BridgeOk(c)
      && !PhaseDue(Assure, CONFIG, a.ports[0]) && !PhaseDue(Receive, CONFIG, a.ports[0]) &&
        !PhaseDue(Migrate, CONFIG, a.ports[0])
      && !PhaseDue(DetectEdge, CONFIG, a.ports[0]) && !PhaseDue(Transmit, CONFIG, a.ports[0])
      && RunPhase(Inform, CONFIG, a.ports[0]) == c.ports[0]
  {
    AgeingTick();
    hide PT.BlankBpdu, RunInformation, PI.Run, PI.Next;
    BoundaryIsOk(Aged(false).ports[0]);
    hide NodeOk;
    AgeingInforms();
  }

  lemma AgeingInforms()
    requires PortOk(CONFIG, Expired().ports[0]) && PortOk(CONFIG, Aged(false).ports[0])
    ensures RunInformation(CONFIG, Expired().ports[0], 2) == Aged(false).ports[0]
  {
    hide PT.BlankBpdu, NodeOk;
    var prt, r := Expired().ports[0], Aged(false).ports[0];
    assert PI.Next(prt, 0).None?;
    assert RunInformation(CONFIG, prt, 1) == prt;
    assert PI.Next(prt, 1) == Some(InfoAged);
    assert PI.Enter(CONFIG, prt, 1, InfoAged) == r;
    assert PI.Next(r, 1).None?;
  }

  lemma TickedIsOk(selected: bool)
    ensures var b := Aged(selected); BridgeOk(b) && Shape(b)
  {
    hide PT.BlankBpdu;
    BoundaryIsOk(Aged(selected).ports[0]);
  }

  /** The aged node follows the CIST and holds the bridge's own vector: nothing is left to update. */
  lemma AgeingSelectsPort()
    ensures var prt, r := Aged(false).ports[0], Aged(true).ports[0];
      RS.SelectPort(MstiTree(), 1, prt, false, false) == r
  {
    hide PT.BlankBpdu;
    var prt, r := Aged(false).ports[0], Aged(true).ports[0];
    assert RS.DesignatedPriority(MstiTree(), 1, prt) == OWN_MSTI && RS.DesignatedTimes(MstiTree(), 1, prt) == OWN_TIMES;
    assert RS.ChooseRole(MstiTree(), 1, prt, OWN_MSTI, OWN_TIMES, false) == (RoleMaster, false);
    var c := RS.SelectPort(MstiTree(), 1, prt, false, false);
    assert c.sel == r.sel && c.info == r.info;
  }

  lemma AgeingSelection()
    ensures var b, c := Aged(false), Aged(true);
      && BridgeOk(b) && Shape(b) && BridgeOk(c) && !RS.SelectionDue(b, 0) && RS.SelectionDue(b, 1) &&
        RS.EnterSelection(b, 1) == c
  {
    TickedIsOk(false);
    TickedIsOk(true);
    AgeingSelectsPort();
    hide PT.BlankBpdu, PortOk, RS.SelectPort;
    var b, c := Aged(false), Aged(true);
    assert b.ports[0].sel[1].reselect;
    assert RS.Choose(CONFIG, b.trees[1], 1, b.ports, 1) == RS.Best(b.trees[1].bridgePriority, 0, None);
    assert RS.NewTree(CONFIG, b.trees[1], 1, b.ports) == MstiTree();
    assert RS.EnterSelection(b, 1).ports == c.ports;
    assert RS.EnterSelection(b, 1).trees == c.trees;
  }

  /** The Root port sets its recent-root timer again. */
  lemma RootTimerNode()
    ensures var b := Aged(true);
      RM.InRange(b, 0, 0) && RM.Next(b, 0, 0) == Some(RootPort)
    ensures var b := Aged(true);
      RM.OwnPort(CONFIG, RM.EnvOf(b, 0, 0), b.ports[0], 0, RootPort) == AgedBoundary().ports[0]
  {
    TickedIsOk(true);
    hide PT.BlankBpdu, PortOk, RT.NextAlternate, RT.NextDesignated, RT.NextDisabled, RT.NextMaster;
    var b := Aged(true);
    var r := RM.OwnPort(CONFIG, RM.EnvOf(b, 0, 0), b.ports[0], 0, RootPort);
    assert r.rv == AgedBoundary().ports[0].rv && r.hs == AgedBoundary().ports[0].hs;
  }

  lemma RootTimerStarts()
    ensures var b := Aged(true);
      && RM.InRange(b, 0, 0) && |b.trees| == 2 && |b.ports| == 1 && RM.InRange(AgedBoundary(), 0, 0)
      && RM.Next(b, 0, 0) == Some(RootPort) && RM.Enter(b, 0, 0, RootPort) == AgedBoundary()
  {
    RootTimerNode();
    HistorySettles(false);
    ShapeOfOk(AgedBoundary());
    hide PT.BlankBpdu, PortOk, Settled, RM.OwnPort, RM.Next, RM.EnvOf;
    var b := Aged(true);
    assert RM.Enter(b, 0, 0, RootPort).ports == AgedBoundary().ports;
  }

  lemma AgeingRoles()
    ensures var b := Aged(true); BridgeOk(b) && RunRoles(b, 1) == AgedBoundary()
  {
    hide PT.BlankBpdu, PortOk, Settled, PhaseDue, Expired, Aged, AgedBoundary, Before, DeafBoundary, RM.Next, RM.Enter;
    hide TC.Next;
    TickedIsOk(true);
    HistorySettles(false);
    RootTimerStarts();
    SB.SettledParts(AgedBoundary());
    SB.NodeIsIdle(AgedBoundary(), 0, 1);
    var b := Aged(true);
    assert RM.Next(AgedBoundary(), 0, 0).None?;
    assert RM.Run(AgedBoundary(), 0, 0, 399) == AgedBoundary();
    assert RM.Run(b, 0, 0, RM.DEPTH) == RM.Run(AgedBoundary(), 0, 0, 399);
    assert RunRolesOf(b, 0, 0) == b;
    assert RunRolesOf(b, 0, 1) == AgedBoundary();
    assert RunRolesOf(b, 0, 2) == AgedBoundary();
    assert RunRoles(b, 0) == b;
  }

  /** A second passes, and the information of the MSTI ages. */
  lemma InformationAges(limit: PassLimit)
    ensures BridgeOk(Before()) && Advance(Before(), Step(OneSecond, limit)) == AgedBoundary()
  {
    hide PT.BlankBpdu, PortOk, Settled, PhaseDue, RunPhase, Expired, Aged, AgedBoundary, Before, DeafBoundary;
    hide LateMachines, Tick;
    hide RS.EnterSelection, RS.SelectionDue, RunPortMachines;
    HistorySettles(false);
    AgeingTick();
    AgeingPortMachines();
    AgeingSelections();
    AgeingLate();
    SB.OnePassToRest(Tick(Before()), AgedBoundary(), limit);
  }

  lemma AgeingPortMachines()
    ensures var a, c := Expired(), Aged(false);
      BridgeOk(a) && RunPortMachines(a) == c
  {
    AgeingSteps();
    var a, c := Expired(), Aged(false);
    hide PT.BlankBpdu, PortOk, PhaseDue, RunPhase;
    SB.PortsAreIdle(Assure, a);
    SB.PortsAreIdle(Receive, a);
    SB.PortsAreIdle(Migrate, a);
    SB.PortsAreIdle(DetectEdge, a);
    SB.PortsAreIdle(Transmit, a);
    assert RunPorts(Inform, a).ports == c.ports;
  }

  lemma AgeingSelections()
    ensures var b, c := Aged(false), Aged(true);
      BridgeOk(b) && |b.trees| == 2 && RunSelections(b, 2) == c
  {
    AgeingSelection();
    hide PT.BlankBpdu, PortOk, RS.SelectionDue, RS.EnterSelection;
    var b := Aged(false);
    assert RunSelections(b, 0) == b;
    assert RunSelections(b, 1) == b;
  }

  lemma AgeingLate()
    ensures var b := Aged(true); BridgeOk(b) && LateMachines(b) == AgedBoundary()
  {
    AgeingRoles();
    HistorySettles(false);
    hide PT.BlankBpdu, PortOk, Settled, PhaseDue, RunRoles, AgedBoundary, Before, DeafBoundary;
    var b := Aged(true);
    assert |b.ports| == 1;
    hide Aged;
    SB.SettledParts(AgedBoundary());
    SB.PortsAreIdle(Forward, AgedBoundary());
    SB.RolesAreIdle(AgedBoundary(), 1);
  }

  /** The BPDU arrives. */
  function ArrivedPort(): Port {
    BoundaryPort(Unheard().(rcvdBpdu := true, bpdu := OwnRegionBpdu(), numMstis := 1), 1, Assurance(false, 6), 15,
                 CistInfo(5), MstiInfo(InfoAged, IoAged, 0, false), MstiSelection(true))
  }

  /** Port Receive has handed it to both trees. */
  function HandedPort(): Port {
    BoundaryPort(Heard(false), 1, Assurance(false, 6), 15, CistInfo(5).(rcvdMsg := true),
                 MstiInfo(InfoAged, IoAged, 0, true), MstiSelection(true))
  }

  lemma OwnRegionBpduIsValid(n: nat)
    ensures var m := OwnRegionBpdu();
      && Validate(m, BPDU_SIZE, n) == Some((m, 1)) && m.version == PROTO_MSTP && m.configId == REGION && m.flags == 0
      && m.bpduType == BPDU_TYPE_RST && m.mstis[0].rRootId == MSTI_ID
  {
    hide PT.NoMstis;
  }

  lemma BpduIsTaken()
    ensures BridgeOk(AgedBoundary()) && BridgeOk(DeafBoundary(false)) && BridgeOk(Boundary(ArrivedPort()))
    ensures var e := BpduArrives(0, OwnRegionBpdu(), BPDU_SIZE);
      && Acceptable(AgedBoundary(), e) && Runs(AgedBoundary(), e) && Apply(AgedBoundary(), e) == Boundary(ArrivedPort())
      && Acceptable(DeafBoundary(false), e) && Runs(DeafBoundary(false), e) &&
        Apply(DeafBoundary(false), e) == DeafBoundary(true)
  {
    HistorySettles(false);
    HistorySettles(true);
    OwnRegionBpduIsValid(0);
    OwnRegionBpduIsValid(1);
    hide PT.BlankBpdu, OwnRegionBpdu, Validate, PortOk, Settled;
    var e := BpduArrives(0, OwnRegionBpdu(), BPDU_SIZE);
    assert Apply(AgedBoundary(), e).ports == [ArrivedPort()];
    assert Apply(DeafBoundary(false), e).ports == DeafBoundary(true).ports;
  }

  lemma ReceivingPortsAreOk()
    ensures PortOk(CONFIG, ArrivedPort()) && PortOk(CONFIG, HandedPort())
  {
    hide PT.BlankBpdu, OwnRegionBpdu;
    BoundaryIsOk(ArrivedPort());
    BoundaryIsOk(HandedPort());
    assert PortOk(CONFIG, Boundary(ArrivedPort()).ports[0]) && PortOk(CONFIG, Boundary(HandedPort()).ports[0]);
  }

  /** The other machines of the port have nothing to do. */
  lemma ReceivingPortsRest()
    ensures PortOk(CONFIG, ArrivedPort()) && PortOk(CONFIG, HandedPort())
    ensures !PhaseDue(Assure, CONFIG, ArrivedPort())
    ensures !PhaseDue(Migrate, CONFIG, HandedPort()) && !PhaseDue(DetectEdge, CONFIG, HandedPort())
    ensures !PhaseDue(Transmit, CONFIG, HandedPort())
  {
    ReceivingPortsAreOk();
    hide PT.BlankBpdu, OwnRegionBpdu, NodeOk;
  }

  /** Both trees get their message. */
  lemma BpduIsHanded()
    ensures PortOk(CONFIG, ArrivedPort()) && PortOk(CONFIG, HandedPort())
    ensures RunPhase(Receive, CONFIG, ArrivedPort()) == HandedPort()
  {
    ReceivingPortsAreOk();
    OwnRegionBpduIsValid(0);
    hide PT.BlankBpdu, OwnRegionBpdu, NodeOk;
    assert PM.FromSameRegion(CONFIG, ArrivedPort());
    assert PM.FindMsti(OwnRegionBpdu().mstis, 0, 1, 1) == Some(0);
    assert PM.EnterReceive(CONFIG, ArrivedPort()).info == HandedPort().info;
  }

  /** The CIST node on its way through Port Information. */
  function ReadingPort(state: InfoState, waits: bool): Port {
    HandedPort().(info := [CistInfo(5).(state := state, rcvdMsg := waits), MstiInfo(InfoAged, IoAged, 0, true)])
  }

  lemma MessageIsRecorded()
    ensures PortShape(CONFIG, HandedPort()) && PI.Next(HandedPort(), 0) == Some(InfoReceive)
    ensures PI.Enter(CONFIG, HandedPort(), 0, InfoReceive) == ReadingPort(InfoReceive, true)
  {
    OwnRegionBpduIsValid(0);
    hide PT.BlankBpdu, OwnRegionBpdu;
    var prt, r := HandedPort(), PI.Enter(CONFIG, HandedPort(), 0, InfoReceive);
    assert PI.RecordTcn(prt) == prt;
    assert PI.RecordMastered(CONFIG, prt, 0).hs == prt.hs;
    assert PI.RcvInfo(CONFIG, prt, 0) == prt.info[0];
    assert r.info == ReadingPort(InfoReceive, true).info;
    assert r.sel == prt.sel;
  }

  lemma MessageIsDropped(s: InfoState, waits: bool, next: InfoState)
    requires (s.InfoReceive? && next.InfoOther?) || (s.InfoOther? && next.InfoCurrent?)
    ensures var prt := ReadingPort(s, waits);
      && PortShape(CONFIG, prt) && PI.Next(prt, 0) == Some(next)
      && PI.Enter(CONFIG, prt, 0, next) == ReadingPort(next, if next.InfoOther? then false else waits)
  {
    hide PT.BlankBpdu, OwnRegionBpdu;
    var prt := ReadingPort(s, waits);
    var r := PI.Enter(CONFIG, prt, 0, next);
    assert r.info == ReadingPort(next, if next.InfoOther? then false else waits).info;
    assert r.sel == prt.sel;
  }

  lemma ReadingEnds()
    ensures var r := DeafBoundary(false).ports[0];
      ReadingPort(InfoCurrent, false) == r && PortShape(CONFIG, r) && PI.Next(r, 0).None? && PI.Next(r, 1).None?
  {
    hide PT.BlankBpdu, OwnRegionBpdu;
  }

  /** The CIST reads it and finds nothing; the aged MSTI does not look at it. */
  lemma BpduIsRead()
    ensures PortOk(CONFIG, HandedPort()) && RunPhase(Inform, CONFIG, HandedPort()) == DeafBoundary(false).ports[0]
  {
    hide PT.BlankBpdu, OwnRegionBpdu, PortOk, PI.Next, PI.Enter, HandedPort, ReadingPort, ArrivedPort, RunPhase;
    BpduIsHanded();
    MessageIsRecorded();
    MessageIsDropped(InfoReceive, true, InfoOther);
    MessageIsDropped(InfoOther, false, InfoCurrent);
    ReadingEnds();
    var prt, r := HandedPort(), DeafBoundary(false).ports[0];
    hide DeafBoundary;
    assert PI.Run(CONFIG, prt, 0) == r;
    assert RunInformation(CONFIG, prt, 0) == prt;
    assert RunInformation(CONFIG, prt, 1) == r;
    assert RunInformation(CONFIG, prt, 2) == r;
    assert RunPhase(Inform, CONFIG, prt) == r by { InformIsRunInformation(prt); }
  }

  lemma InformIsRunInformation(prt: Port)
    requires PortOk(CONFIG, prt)
    ensures RunPhase(Inform, CONFIG, prt) == RunInformation(CONFIG, prt, 2)
  {
    hide NodeOk, RunInformation;
  }

  lemma BpduPass()
    ensures BridgeOk(Boundary(ArrivedPort())) && RunOnce(Boundary(ArrivedPort())) == DeafBoundary(false)
  {
    hide PT.BlankBpdu, OwnRegionBpdu, PortOk, PhaseDue, Settled, RunPhase, LateMachines, RS.SelectionDue, Validate;
    BpduIsTaken();
    BpduIsHanded();
    ReceivingPortsRest();
    BpduIsRead();
    HistorySettles(false);
    var b, c, d := Boundary(ArrivedPort()), Boundary(HandedPort()), DeafBoundary(false);
    SB.PortsAreIdle(Assure, b);
    assert RunPorts(Receive, b).ports == c.ports;
    SB.PortsAreIdle(Migrate, c);
    SB.PortsAreIdle(DetectEdge, c);
    SB.PortsAreIdle(Transmit, c);
    assert RunPorts(Inform, c).ports == d.ports;
    SB.SelectionsAreIdle(d, 2);
    SB.SettledParts(d);
    SB.LateMachinesAreIdle(d);
  }

  /** A BPDU that stays unread is reached: from rest, a second in which the information of an MSTI ages, a BPDU of the
      bridge's own region, and another one, with all the time there is. */
  lemma BpduStaysUnreadSomewhere(limit: PassLimit)
    ensures BridgeOk(Before()) && Settled(Before()) && !Before().ports[0].rx.rcvdBpdu
    ensures var bpdu := BpduArrives(0, OwnRegionBpdu(), BPDU_SIZE);
      var r := After(Before(), [Step(OneSecond, limit), Step(bpdu, limit), Step(bpdu, limit)]);
      Settled(r) && r.ports[0].rx.rcvdBpdu
  {
    hide PT.BlankBpdu, OwnRegionBpdu, PortOk, Settled, RunOnce, Apply, Runs, Acceptable, Validate;
    HistorySettles(false);
    HistorySettles(true);
    InformationAges(limit);
    BpduIsTaken();
    BpduPass();
    var bpdu := BpduArrives(0, OwnRegionBpdu(), BPDU_SIZE);
    SB.OnePassToRest(Boundary(ArrivedPort()), DeafBoundary(false), limit);
    var s, t := Step(OneSecond, limit), Step(bpdu, limit);
    assert Advance(AgedBoundary(), t) == DeafBoundary(false);
    assert Advance(DeafBoundary(false), t) == DeafBoundary(true);
    hide Advance, Before, AgedBoundary, DeafBoundary;
    assert [s, t, t][1..] == [t, t] && [t, t][1..] == [t];
    assert After(Before(), [s, t, t]) == After(AgedBoundary(), [t, t]) == After(DeafBoundary(false), [t]) ==
        DeafBoundary(true);
  }

  // ---- The same BPDU, and role selection ----------------------------------------------------------------------------

  /** Before the BPDU, role selection has nothing to say. */
  lemma AgedBoundaryIsCurrent()
    ensures Shape(AgedBoundary()) && RS.Current(AgedBoundary())
  {
    HistorySettles(false);
    ShapeOfOk(AgedBoundary());
    hide PT.BlankBpdu, Settled, BridgeOk;
    var b, prt := AgedBoundary(), AgedBoundary().ports[0];
    BoundaryPath();
    assert RS.Choose(CONFIG, b.trees[0], 0, b.ports, 0) == RS.Best(b.trees[0].bridgePriority, 0, None);
    assert RS.NewTree(CONFIG, b.trees[0], 0, b.ports) == CistTree();
    hide RS.Choose;
    assert RS.SelectPort(CistTree(), 0, prt, true, false).sel == prt.sel;
    assert RS.SelectPort(CistTree(), 0, prt, true, false) == prt;
    assert RS.Renew(b).ports == [prt];
    assert RS.EnterSelection(b, 0).ports == [prt];
    assert RS.EnterSelection(b, 0).trees == b.trees;
  }

  lemma BoundaryPath()
    ensures var prt := AgedBoundary().ports[0];
      && RS.Candidate(CistTree(), 0, prt) && RS.RootPath(CistTree(), 0, prt) == CistTree().rootPriority
      && Priority.BetterOrSame(CistTree().rootPriority, CistTree().bridgePriority, 0x8001, 0, true)
  {
  }

  /** Afterwards the port counts as internal, and so would its root path, but nothing asks for role selection. */
  lemma OwnRegionGoesUnnoticed(limit: PassLimit)
    ensures BridgeOk(AgedBoundary()) && Shape(AgedBoundary()) && Settled(AgedBoundary()) && RS.Current(AgedBoundary())
    ensures var r := Advance(AgedBoundary(), Step(BpduArrives(0, OwnRegionBpdu(), BPDU_SIZE), limit));
      Shape(r) && Settled(r) && !RS.Current(r)
  {
    hide PT.BlankBpdu, OwnRegionBpdu, PortOk, Settled, RunOnce, Apply, Runs, Acceptable, Validate, RS.Current;
    AgedBoundaryIsCurrent();
    HistorySettles(false);
    BpduIsTaken();
    BpduPass();
    SB.OnePassToRest(Boundary(ArrivedPort()), DeafBoundary(false), limit);
    ShapeOfOk(DeafBoundary(false));
    InternalPathDiffers();
  }

  lemma InternalPathDiffers()
    requires Shape(DeafBoundary(false))
    ensures !RS.Current(DeafBoundary(false))
  {
    hide PT.BlankBpdu, OwnRegionBpdu;
    var b := DeafBoundary(false);
    assert RS.RootPath(b.trees[0], 0, b.ports[0]).intCost == 20000;
    RS.ChosenIsAttained(CONFIG, b.trees[0], 0, b.ports, 1);
    var tree := RS.NewTree(CONFIG, b.trees[0], 0, b.ports);
    assert tree.rootPriority != b.trees[0].rootPriority;
    assert RS.EnterSelection(b, 0).trees[0] == tree;
  }
}
