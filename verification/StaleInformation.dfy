/**
 Information about a root that no bridge claims grows old.  Every bridge that passes it on adds one to its
 Message Age, so the youngest of it can never be refreshed: it is gone when its timer runs out
 (mstp.c:2533-2571, 2680-2692, 2890-2891 and 3572-3578).  This module follows one bridge through a pass.
 */
module StaleInformation {
  import opened Types
  import opened Priority
  import opened PortInvariant
  import opened BridgeRun
  import PI = PortInformation
  import PM = PortMachines
  import PT = PortTransmit

  /** Information about `root` has reached Message Age `level` everywhere, what is exactly that old has at most
      `left` seconds left, and none of it allows more than `maxAge`. */
  datatype Level = Level(root: BridgeId, level: int, left: nat, maxAge: int)

  /** Information about the root is at least this old. */
  predicate Old(l: Level, root: BridgeId, age: int, maxAge: int, floor: int) {
    root == l.root ==> age >= floor && maxAge <= l.maxAge
  }

  // ---- One port -------------------------------------------------------------------------------------

  /** Information that may be used is not older than its Max Age, unless it is about to be dropped. */
  predicate Alive(i: Info) {
    i.portTimes.messageAge + 1 <= i.portTimes.maxAge || (i.rcvdInfoWhile == 0 && !i.updtInfo)
  }

  predicate InfoOld(l: Level, i: Info) {
    && i.rcvdInfoWhile <= 3 * HELLO_TIME
    && (i.infoIs == IoReceived ==>
         && Alive(i) && Old(l, i.portPriority.rootId, i.portTimes.messageAge, i.portTimes.maxAge, l.level)
         && (i.portPriority.rootId == l.root && i.portTimes.messageAge == l.level ==> i.rcvdInfoWhile <= l.left))
    && (i.state == InfoReceive ==> ReceiveOld(l, i))
  }

  /** A message just classified. */
  predicate ReceiveOld(l: Level, i: Info) {
    && !i.updtInfo
    && (i.rcvdInfo == SuperiorDesignatedInfo ==>
         Old(l, i.msgPriority.rootId, i.msgTimes.messageAge, i.msgTimes.maxAge, l.level + 1))
    && (i.rcvdInfo == RepeatedDesignatedInfo ==>
         i.infoIs == IoReceived &&
           Old(l, i.portPriority.rootId, i.portTimes.messageAge, i.portTimes.maxAge, l.level + 1))
  }

  /** What a BPDU says about the root is one second older than any information. */
  predicate FrameOld(l: Level, m: Bpdu) {
    m.bpduType != BPDU_TYPE_TCN ==>
      Old(l, m.rootId, PI.NearestWholeSecond(m.messageAge), PI.NearestWholeSecond(m.maxAge), l.level + 1)
  }

  /** The port has heard no bridge of its own region. */
  predicate External(cfg: BridgeConfig, prt: Port) {
    && !prt.rx.rcvdInternal && (prt.rx.rcvdBpdu ==> !PM.FromSameRegion(cfg, prt))
    && (forall t :: 1 <= t < |prt.info| ==> !prt.info[t].rcvdMsg)
  }

  predicate PortOld(l: Level, cfg: BridgeConfig, prt: Port)
    requires PortShape(cfg, prt)
  {
    && InfoOld(l, prt.info[0]) && External(cfg, prt)
    && (prt.rx.rcvdBpdu || prt.info[0].rcvdMsg ==> FrameOld(l, prt.rx.bpdu))
    && Old(l, prt.sel[0].designatedPriority.rootId, prt.sel[0].designatedTimes.messageAge,
        prt.sel[0].designatedTimes.maxAge, l.level + 1)
  }

  // ---- Port Information -----------------------------------------------------------------------------

  /** Receiving: the message is the BPDU's. */
  lemma RecordedMessageIsOld(l: Level, cfg: BridgeConfig, prt: Port)
    requires PortShape(cfg, prt) && InfoOld(l, prt.info[0]) && FrameOld(l, prt.rx.bpdu) && !prt.info[0].updtInfo
    ensures ReceiveOld(l, PI.RcvInfo(cfg, prt, 0)) && InfoOld(l, PI.RcvInfo(cfg, prt, 0).(state := InfoReceive))
  {
    hide BetterOrSame;
  }

  /** One transition of Port Information on the CIST. */
  lemma InfoGrowsOld(l: Level, cfg: BridgeConfig, prt: Port)
    requires PortOk(cfg, prt) && PI.Next(prt, 0).Some? && PortOld(l, cfg, prt)
    ensures InfoOld(l, PI.InfoAfter(cfg, prt, 0, PI.Next(prt, 0).value))
  {
    assert NodeOk(prt, 0);
    hide PI.CistMessagePriority, PI.CistMessageTimes, PI.MessageIsDesignated, PI.Classify;
    match PI.Next(prt, 0).value {
      case InfoReceive =>
        hide PI.RcvInfo;
        RecordedMessageIsOld(l, cfg, prt);
      case _ =>
    }
  }

  lemma InformationStepIsOld(l: Level, cfg: BridgeConfig, prt: Port, t: nat)
    requires PortOk(cfg, prt) && t < |prt.info| && PI.Next(prt, t).Some? && PortOld(l, cfg, prt)
    ensures PortOld(l, cfg, PI.Enter(cfg, prt, t, PI.Next(prt, t).value))
  {
    var r := PI.Enter(cfg, prt, t, PI.Next(prt, t).value);
    if t == 0 { InfoGrowsOld(l, cfg, prt); }
    hide PI.Enter, PI.Next, InfoOld, FrameOld, NodeOk, PI.RcvInfo, PI.RcvdInfoWhile;
    assert forall i :: 0 <= i < |prt.info| && i != t ==> r.info[i] == prt.info[i];
  }

  lemma {:induction false} InformationRunIsOld(l: Level, cfg: BridgeConfig, prt: Port, t: nat)
    requires PortOk(cfg, prt) && t < |prt.info| && PortOld(l, cfg, prt)
    ensures PortOld(l, cfg, PI.Run(cfg, prt, t))
    decreases PI.Measure(prt.cfg.portEnabled, prt.info[t])
  {
    hide PI.Enter, PI.Next, PI.Measure, PortOld, NodeOk;
    if PI.Next(prt, t).Some? {
      InformationTransition(cfg, prt, t);
      PI.TransitionDecreases(cfg, prt, t);
      InformationStepIsOld(l, cfg, prt, t);
      InformationRunIsOld(l, cfg, PI.Enter(cfg, prt, t, PI.Next(prt, t).value), t);
    }
  }

  // ---- The other machines of a port ------------------------------------------------------------------

  /** An MST BPDU carries its sender's region, and only bridges in MSTP mode send one. */
  predicate FrameFrom(cfg: BridgeConfig, m: Bpdu) {
    m.version >= PROTO_MSTP ==> cfg.version >= PROTO_MSTP && m.configId == cfg.configId
  }

  /** The BPDUs sent from position `mark` on come from this bridge and say nothing young about the root. */
  predicate FramesOld(l: Level, cfg: BridgeConfig, sent: seq<(Bpdu, nat)>, mark: nat) {
    forall i :: mark <= i < |sent| ==> FrameOld(l, sent[i].0) && FrameFrom(cfg, sent[i].0)
  }

  lemma BuiltFramesAreOld(l: Level, cfg: BridgeConfig, prt: Port)
    requires PortShape(cfg, prt) && |cfg.mstids| <= MAX_STANDARD_MSTIS && PortOld(l, cfg, prt)
    ensures FrameOld(l, PT.ConfigBpdu(cfg, prt)) && FrameOld(l, PT.RstBpdu(cfg, prt))
    ensures FrameOld(l, PT.MstBpdu(cfg, prt)) && FrameOld(l, PT.TcnBpdu())
    ensures FrameFrom(cfg, PT.ConfigBpdu(cfg, prt)) && FrameFrom(cfg, PT.RstBpdu(cfg, prt))
    ensures FrameFrom(cfg, PT.TcnBpdu())
    ensures cfg.version >= PROTO_MSTP ==> FrameFrom(cfg, PT.MstBpdu(cfg, prt))
  {
    hide PT.TreeFlags, PT.MstiMessages, PT.NoMstis;
  }

  lemma TransmitStepIsOld(l: Level, cfg: BridgeConfig, prt: Port, s: TransmitState, mark: nat)
    requires PortShape(cfg, prt) && |cfg.mstids| <= MAX_STANDARD_MSTIS && PortOld(l, cfg, prt)
    requires FramesOld(l, cfg, prt.tx.sent, mark)
    ensures FramesOld(l, cfg, PT.Enter(cfg, prt, s).tx.sent, mark)
  {
    BuiltFramesAreOld(l, cfg, prt);
    hide FrameOld, FrameFrom, PT.ConfigBpdu, PT.RstBpdu, PT.MstBpdu, PT.TcnBpdu;
  }

  lemma {:induction false} TransmitRunIsOld(l: Level, cfg: BridgeConfig, prt: Port, mark: nat)
    requires PortShape(cfg, prt) && |cfg.mstids| <= MAX_STANDARD_MSTIS && prt.info[0].portTimes.helloTime > 0
    requires PortOld(l, cfg, prt) && FramesOld(l, cfg, prt.tx.sent, mark)
    ensures PortOld(l, cfg, PT.Run(cfg, prt)) && FramesOld(l, cfg, PT.Run(cfg, prt).tx.sent, mark)
    decreases PT.Measure(cfg, prt)
  {
    hide PT.Enter, PT.Next, PT.Measure, FramesOld, FrameOld, InfoOld;
    if !prt.cfg.portEnabled {
      TransmitStepIsOld(l, cfg, prt, TransmitInit, mark);
    } else if PT.Next(cfg, prt).Some? {
      var s := PT.Next(cfg, prt).value;
      PT.TransitionDecreases(cfg, prt);
      TransmitStepIsOld(l, cfg, prt, s, mark);
      TransmitRunIsOld(l, cfg, PT.Enter(cfg, prt, s), mark);
    }
  }

  lemma ReceiveRunIsOld(l: Level, cfg: BridgeConfig, prt: Port)
    requires PortOk(cfg, prt) && PortOld(l, cfg, prt)
    ensures PortOld(l, cfg, PM.RunReceive(cfg, prt)) && PM.RunReceive(cfg, prt).tx == prt.tx
  {
    hide NodeOk, FrameOld;
    ReceiveIsExternal(cfg, prt);
  }

  /** A BPDU from another region is not for the MSTIs. */
  lemma ReceiveIsExternal(cfg: BridgeConfig, prt: Port)
    requires PortOk(cfg, prt) && External(cfg, prt)
    ensures External(cfg, PM.RunReceive(cfg, prt))
  {
    hide NodeOk, PM.FromSameRegion;
  }

  lemma {:induction false} InformationsAreOld(l: Level, cfg: BridgeConfig, prt: Port, n: nat)
    requires PortOk(cfg, prt) && n <= |cfg.mstids| && PortOld(l, cfg, prt)
    ensures PortOld(l, cfg, RunInformation(cfg, prt, n))
  {
    hide NodeOk, PI.Run, PortOld;
    if n > 0 {
      InformationsAreOld(l, cfg, prt, n - 1);
      InformationRunIsOld(l, cfg, RunInformation(cfg, prt, n - 1), n - 1);
    }
  }

  lemma PhaseIsOld(k: Phase, l: Level, cfg: BridgeConfig, prt: Port, mark: nat)
    requires PortOk(cfg, prt) && PortOld(l, cfg, prt) && FramesOld(l, cfg, prt.tx.sent, mark)
    ensures PortShape(cfg, RunPhase(k, cfg, prt)) && PortOld(l, cfg, RunPhase(k, cfg, prt))
    ensures FramesOld(l, cfg, RunPhase(k, cfg, prt).tx.sent, mark)
  {
    hide NodeOk, PM.EnterDiscard, PM.EnterReceive, PM.NextReceive, PM.RunMigration, PM.RunEdge, PT.Run, RunInformation;
    hide FrameOld, InfoOld;
    hide FramesOld, PM.RunReceive;
    HelloTimeIsFixed(cfg, prt);
    PhaseKeepsPort(k, cfg, prt);
    match k
    case Receive => ReceiveRunIsOld(l, cfg, prt);
    case Transmit => TransmitRunIsOld(l, cfg, prt, mark);
    case Inform =>
      InformationsAreOld(l, cfg, prt, |cfg.mstids|);
      InformationKeepsSent(cfg, prt, |cfg.mstids|);
    case _ =>
  }

  lemma {:induction false} InformationRunKeepsSent(cfg: BridgeConfig, prt: Port, t: nat)
    requires PortShape(cfg, prt) && t < |prt.info|
    ensures PI.Run(cfg, prt, t).tx.sent == prt.tx.sent
    decreases PI.Measure(prt.cfg.portEnabled, prt.info[t])
  {
    hide PI.Enter, PI.Next, PI.Measure, PI.InfoAfter, PI.SelAfter;
    if PI.Next(prt, t).Some? {
      PI.TransitionDecreases(cfg, prt, t) by { hide PI.Run; }
      InformationRunKeepsSent(cfg, PI.Enter(cfg, prt, t, PI.Next(prt, t).value), t);
    }
  }

  lemma {:induction false} InformationKeepsSent(cfg: BridgeConfig, prt: Port, n: nat)
    requires PortOk(cfg, prt) && n <= |cfg.mstids|
    ensures RunInformation(cfg, prt, n).tx.sent == prt.tx.sent
  {
    hide NodeOk, PI.Run;
    if n > 0 {
      InformationKeepsSent(cfg, prt, n - 1);
      InformationRunKeepsSent(cfg, RunInformation(cfg, prt, n - 1), n - 1);
    }
  }

  // ---- Where the root of the tree comes from --------------------------------------------------------

  /** The port is the root port, and what it received is one second younger than what the bridge passes on. */
  predicate Backing(prt: Port, root: BridgeId, age: int)
    requires 1 <= |prt.info| && 1 <= |prt.sel|
  {
    && prt.info[0].infoIs == IoReceived && prt.info[0].portPriority.rootId == root
    && prt.info[0].portTimes.messageAge + 1 == age && prt.sel[0].selectedRole == RoleRoot
  }

  /** A step of Port Information that disturbs the root port asks for role selection. */
  predicate KeepsBacking(prt: Port, r: Port, root: BridgeId, age: int)
    requires 1 <= |prt.info| == |r.info| && 1 <= |prt.sel| == |r.sel|
  {
    && r.sel[0] == prt.sel[0].(selected := r.sel[0].selected, reselect := r.sel[0].reselect)
    && (r.sel[0].selected ==> prt.sel[0].selected) && (prt.sel[0].reselect ==> r.sel[0].reselect)
    && (Backing(prt, root, age) ==> r.sel[0].reselect || Backing(r, root, age))
  }

  lemma InformationStepKeepsBacking(cfg: BridgeConfig, prt: Port, t: nat, root: BridgeId, age: int)
    requires PortOk(cfg, prt) && t < |prt.info| && PI.Next(prt, t).Some?
    ensures KeepsBacking(prt, PI.Enter(cfg, prt, t, PI.Next(prt, t).value), root, age)
  {
    assert NodeOk(prt, 0);
    var r := PI.Enter(cfg, prt, t, PI.Next(prt, t).value);
    hide PI.Enter, NodeOk, RoleOk;
    if t != 0 {
      hide PI.Next, PI.InfoAfter, PI.SelAfter, InfoOk;
    } else {
      hide PI.RecordMessage, PI.MessageIsDesignated, PI.Classify, PI.RcvdInfoWhile;
    }
  }

  lemma {:induction false} InformationRunKeepsBacking(cfg: BridgeConfig, prt: Port, t: nat, root: BridgeId, age: int)
    requires PortOk(cfg, prt) && t < |prt.info|
    ensures |PI.Run(cfg, prt, t).info| == |prt.info| && KeepsBacking(prt, PI.Run(cfg, prt, t), root, age)
    decreases PI.Measure(prt.cfg.portEnabled, prt.info[t])
  {
    hide PI.Enter, PI.Next, PI.Measure, NodeOk;
    if PI.Next(prt, t).Some? {
      InformationTransition(cfg, prt, t);
      PI.TransitionDecreases(cfg, prt, t);
      InformationStepKeepsBacking(cfg, prt, t, root, age);
      InformationRunKeepsBacking(cfg, PI.Enter(cfg, prt, t, PI.Next(prt, t).value), t, root, age);
    }
  }

  lemma {:induction false} InformationKeepsBacking(cfg: BridgeConfig, prt: Port, n: nat, root: BridgeId, age: int)
    requires PortOk(cfg, prt) && n <= |cfg.mstids|
    ensures KeepsBacking(prt, RunInformation(cfg, prt, n), root, age)
  {
    hide NodeOk, PI.Run;
    if n > 0 {
      InformationKeepsBacking(cfg, prt, n - 1, root, age);
      InformationRunKeepsBacking(cfg, RunInformation(cfg, prt, n - 1), n - 1, root, age);
    }
  }

  lemma PhaseKeepsBacking(k: Phase, cfg: BridgeConfig, prt: Port, root: BridgeId, age: int)
    requires PortOk(cfg, prt)
    ensures PortShape(cfg, RunPhase(k, cfg, prt)) && KeepsBacking(prt, RunPhase(k, cfg, prt), root, age)
  {
    hide NodeOk, PM.EnterDiscard, PM.EnterReceive, PM.NextReceive, PM.RunMigration, PM.RunEdge, PT.Run, RunInformation;
    HelloTimeIsFixed(cfg, prt);
    PhaseKeepsPort(k, cfg, prt);
    match k
    case Inform => InformationKeepsBacking(cfg, prt, |cfg.mstids|, root, age);
    case _ =>
  }

  /** Port Information has nothing more to do on the CIST. */
  predicate Informed(prt: Port)
    requires 1 <= |prt.info|
  {
    && prt.info[0].state != InfoReceive
    && (prt.info[0].infoIs == IoReceived ==> prt.info[0].portTimes.messageAge + 1 <= prt.info[0].portTimes.maxAge)
  }

  lemma {:induction false} InformationInforms(l: Level, cfg: BridgeConfig, prt: Port, n: nat)
    requires PortOk(cfg, prt) && 1 <= n <= |cfg.mstids| && PortOld(l, cfg, prt)
    ensures Informed(RunInformation(cfg, prt, n))
  {
    hide NodeOk, PI.Run, PortOld, PI.Next;
    InformationsAreOld(l, cfg, prt, n - 1);
    var c := RunInformation(cfg, prt, n - 1);
    InformationRunIsOld(l, cfg, c, n - 1);
    if n == 1 {
      RestIsInformed(l, cfg, RunInformation(cfg, prt, 1));
    } else {
      InformationInforms(l, cfg, prt, n - 1);
      OtherTreesKeepCist(cfg, c, n - 1);
    }
  }

  lemma RestIsInformed(l: Level, cfg: BridgeConfig, prt: Port)
    requires PortOk(cfg, prt) && PortOld(l, cfg, prt) && PI.Next(prt, 0).None?
    ensures Informed(prt)
  {
    assert NodeOk(prt, 0);
  }

  lemma {:induction false} OtherTreesKeepCist(cfg: BridgeConfig, prt: Port, t: nat)
    requires PortShape(cfg, prt) && 1 <= t < |prt.info|
    ensures PI.Run(cfg, prt, t).info[0] == prt.info[0] && PI.Run(cfg, prt, t).sel[0] == prt.sel[0]
    decreases PI.Measure(prt.cfg.portEnabled, prt.info[t])
  {
    hide PI.Enter, PI.Next, PI.Measure, PI.InfoAfter, PI.SelAfter;
    if PI.Next(prt, t).Some? {
      PI.TransitionDecreases(cfg, prt, t) by { hide PI.Run; }
      OtherTreesKeepCist(cfg, PI.Enter(cfg, prt, t, PI.Next(prt, t).value), t);
    }
  }
}
