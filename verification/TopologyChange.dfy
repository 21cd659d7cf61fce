/**
 Topology Change state machine (clause 13.36 of IEEE 802.1Q-2005, mstp.c:1807-1834, 2161-2190, 2310-2323 and
 4687-4903).  Flushing completes synchronously, as the driver does, so `fdbFlush` is false once requested.
 */
module TopologyChange {
  import opened Types

  predicate InRange(b: Bridge, p: nat, t: nat) {
    Shape(b) && p < |b.ports| && t < |b.trees|
  }

  // ---- Flushing -------------------------------------------------------------------------------------

  /** `fdbFlush`, `calledFromFlushRoutine`, and how often the state machines were started by a completed flush. */
  datatype Flush = Flush(fdbFlush: bool, calledFromFlushRoutine: bool, reentries: nat)

  /** `MSTP_IN_all_fids_flushed`: a flush that completes outside the flush routine starts the state machines. */
  function AllFidsFlushed(f: Flush, bridgeEnabled: bool): Flush {
    var done := f.(fdbFlush := false);
    if bridgeEnabled && !f.calledFromFlushRoutine then done.(reentries := f.reentries + 1) else done
  }

  /** `set_fdbFlush`; the driver completes `calls` flushes before its call returns. */
  function SetFdbFlush(f: Flush, prt: Port, rstp: bool, bridgeEnabled: bool, calls: nat): Flush {
    if prt.edge.operEdge || prt.cfg.deleted || !rstp then f.(fdbFlush := false)
    else
      var requested := f.(fdbFlush := true, calledFromFlushRoutine := true);
      Completed(requested, bridgeEnabled, calls).(calledFromFlushRoutine := false)
  }

  function Completed(f: Flush, bridgeEnabled: bool, calls: nat): Flush
    decreases calls
  {
    if calls == 0 then f else Completed(AllFidsFlushed(f, bridgeEnabled), bridgeEnabled, calls - 1)
  }

  /** The flush callback cannot re-enter the state machines, and once it has been called nothing is left to flush. */
  lemma FlushDoesNotReenter(f: Flush, prt: Port, rstp: bool, bridgeEnabled: bool, calls: nat)
    ensures var r := SetFdbFlush(f, prt, rstp, bridgeEnabled, calls);
      r.reentries == f.reentries && (calls > 0 ==> !r.fdbFlush)
  {
    if !(prt.edge.operEdge || prt.cfg.deleted || !rstp) {
      CompletedInside(f.(fdbFlush := true, calledFromFlushRoutine := true), bridgeEnabled, calls);
    }
  }

  lemma {:induction false} CompletedInside(f: Flush, bridgeEnabled: bool, calls: nat)
    requires f.calledFromFlushRoutine
    ensures Completed(f, bridgeEnabled, calls) == if calls == 0 then f else f.(fdbFlush := false)
    decreases calls
  {
    if calls > 0 { CompletedInside(AllFidsFlushed(f, bridgeEnabled), bridgeEnabled, calls - 1); }
  }

  // ---- The state machine ----------------------------------------------------------------------------

  predicate ActivePort(r: Role) { r.RoleRoot? || r.RoleDesignated? || r.RoleMaster? }

  /** The flags of the port that a tree's machine reacts to: the per-port TCN flags belong to the CIST. */
  function PendingFlags(prt: Port, t: nat): nat
    requires t < |prt.tc| == |prt.hs|
  {
    (if prt.hs[t].rcvdTc then 1 else 0) + (if prt.tc[t].tcProp then 1 else 0)
    + (if t == 0 && prt.flags.rcvdTcn then 1 else 0) + (if t == 0 && prt.flags.rcvdTcAck then 1 else 0)
  }

  /** The transition `TCSM_run` would take. */
  function Next(prt: Port, t: nat): Option<TopologyState>
    requires t < |prt.tc| == |prt.hs| == |prt.rv| == |prt.fw|
  {
    var tc, rv := prt.tc[t], prt.rv[t];
    var active := ActivePort(rv.role);
    match tc.state
    case TcInactive => if rv.learn && !tc.fdbFlush then Some(TcLearning) else None
    case TcLearning =>
      if active && rv.forward && !prt.edge.operEdge then Some(TcDetected)
      else if PendingFlags(prt, t) > 0 then Some(TcLearning)
      else if !active && !(rv.learn || prt.fw[t].learning) then Some(TcInactive)
      else None
    case TcNotifiedTcn => Some(TcNotifiedTc)
    case TcActive =>
      if !active || prt.edge.operEdge then Some(TcLearning)
      else if t == 0 && prt.flags.rcvdTcn then Some(TcNotifiedTcn)
      else if prt.hs[t].rcvdTc then Some(TcNotifiedTc)
      else if tc.tcProp then Some(TcPropagating)
      else if t == 0 && prt.flags.rcvdTcAck then Some(TcAcknowledged)
      else None
    case _ => Some(TcActive)
  }

  /** `newTcWhile`: the timer and whether newInfoXst is raised. */
  function NewTcWhile(tree: Tree, prt: Port, t: nat): nat
    requires t < |prt.tc| && 1 <= |prt.info|
  {
    if prt.tc[t].tcWhile != 0 then prt.tc[t].tcWhile
    else if prt.mig.sendRSTP then prt.info[0].portTimes.helloTime + 1
    else tree.rootTimes.maxAge + tree.rootTimes.forwardDelay
  }

  predicate NewTcRaises(prt: Port, t: nat) requires t < |prt.tc| { prt.tc[t].tcWhile == 0 && prt.mig.sendRSTP }

  function RaiseIf(c: bool, tx: Tx, t: nat): Tx {
    if !c then tx else if t == 0 then tx.(newInfo := true) else tx.(newInfoMsti := true)
  }

  /** What `TCSM_to_<s>` does to the topology variables of its node. */
  function TcAfter(tree: Tree, prt: Port, t: nat, s: TopologyState): (r: Topology)
    requires t < |prt.tc| && 1 <= |prt.info|
    ensures r.state == s
  {
    var tc := prt.tc[t].(state := s);
    match s
    case TcInactive => tc.(fdbFlush := false, tcWhile := 0)
    case TcLearning => tc.(tcProp := false)
    case TcDetected => tc.(tcWhile := NewTcWhile(tree, prt, t))
    case TcNotifiedTcn => tc.(tcWhile := NewTcWhile(tree, prt, t))
    case TcPropagating => tc.(tcWhile := NewTcWhile(tree, prt, t), fdbFlush := false, tcProp := false)
    case TcAcknowledged => tc.(tcWhile := 0)
    case _ => tc
  }

  function HandshakeAfter(h: Handshake, s: TopologyState): Handshake {
    if s.TcLearning? || s.TcNotifiedTc? then h.(rcvdTc := false) else h
  }

  function FlagsAfter(f: PortFlags, t: nat, s: TopologyState): PortFlags {
    if t == 0 && s.TcLearning? then f.(rcvdTcn := false, rcvdTcAck := false)
    else if t == 0 && s.TcNotifiedTc? then f.(rcvdTcn := false)
    else if s.TcAcknowledged? then f.(rcvdTcAck := false)
    else f
  }

  function TxAfter(prt: Port, t: nat, s: TopologyState): (r: Tx)
    requires t < |prt.tc| == |prt.rv|
    ensures r == prt.tx.(newInfo := r.newInfo, newInfoMsti := r.newInfoMsti, tcAck := r.tcAck)
  {
    match s
    case TcInactive => if t == 0 then prt.tx.(tcAck := false) else prt.tx
    case TcDetected => RaiseIf(true, prt.tx, t)
    case TcNotifiedTcn => RaiseIf(NewTcRaises(prt, t), prt.tx, t)
    case TcNotifiedTc => if t == 0 && prt.rv[t].role == RoleDesignated then prt.tx.(tcAck := true) else prt.tx
    case TcPropagating => RaiseIf(NewTcRaises(prt, t), prt.tx, t)
    case _ => prt.tx
  }

  /** The actions of `TCSM_to_<s>` on its own port. */
  function OwnPort(tree: Tree, prt: Port, t: nat, s: TopologyState): Port
    requires t < |prt.tc| == |prt.hs| == |prt.rv| && 1 <= |prt.info|
  {
    prt.(tc := prt.tc[t := TcAfter(tree, prt, t, s)], hs := prt.hs[t := HandshakeAfter(prt.hs[t], s)],
         flags := FlagsAfter(prt.flags, t, s), tx := TxAfter(prt, t, s))
  }

  /** Does the transition call setTcPropTree, on a port that may propagate? */
  predicate Propagates(prt: Port, s: TopologyState) {
    (s.TcDetected? || s.TcNotifiedTc?) && !prt.cfg.restrictedTcn
  }

  /** Another port of the tree. */
  function OtherPort(prt: Port, t: nat, propagate: bool): (r: Port)
    requires t < |prt.tc|
    ensures |r.tc| == |prt.tc| && r == prt.(tc := r.tc)
  {
    if propagate then prt.(tc := prt.tc[t := prt.tc[t].(tcProp := true)]) else prt
  }

  /** `TCSM_to_<s>` on the whole bridge. */
  function Enter(b: Bridge, p: nat, t: nat, s: TopologyState): (r: Bridge)
    requires InRange(b, p, t)
    ensures InRange(r, p, t) && r == b.(ports := r.ports) && |r.ports| == |b.ports|
    ensures r.ports[p] == OwnPort(b.trees[t], b.ports[p], t, s)
    ensures forall q :: 0 <= q < |b.ports| && q != p ==>
      r.ports[q] == OtherPort(b.ports[q], t, Propagates(b.ports[p], s))
  {
    hide OtherPort, Propagates, TcAfter, HandshakeAfter, FlagsAfter, TxAfter;
    var propagate := Propagates(b.ports[p], s);
    b.(ports := seq(|b.ports|, q requires 0 <= q < |b.ports| =>
                    if q == p then OwnPort(b.trees[t], b.ports[q], t, s) else OtherPort(b.ports[q], t, propagate)))
  }

  // ---- Termination ----------------------------------------------------------------------------------

  /** A bound on the transitions one call of `TCSM_run` can still make. */
  function Measure(prt: Port, t: nat): nat
    requires t < |prt.tc| == |prt.hs| == |prt.rv| == |prt.fw|
  {
    var acting := ActivePort(prt.rv[t].role) && !prt.edge.operEdge;
    var consumes := (t == 0 && prt.flags.rcvdTcn) || prt.hs[t].rcvdTc;
    5 * PendingFlags(prt, t)
    + match prt.tc[t].state
      case TcInactive => if acting then 4 else if prt.rv[t].learn then 2 else 0
      case TcLearning => if acting then 3 else 1
      case TcActive => if acting then 1 else 2
      case TcNotifiedTcn => if !acting then 4 else if consumes then 0 else 3
      case _ => if acting then 2 else 3
  }

  /** Every transition, from any state whatever, lowers the measure: pending flags are consumed. */
  lemma TransitionDecreases(tree: Tree, prt: Port, t: nat)
    requires t < |prt.tc| == |prt.hs| == |prt.rv| == |prt.fw| && 1 <= |prt.info|
    requires Next(prt, t).Some?
    ensures Measure(OwnPort(tree, prt, t, Next(prt, t).value), t) < Measure(prt, t)
  {
    hide NewTcWhile, NewTcRaises, RaiseIf, TxAfter;
    var s := Next(prt, t).value;
    var r := OwnPort(tree, prt, t, s);
    assert PendingFlags(r, t) <= PendingFlags(prt, t);
    match prt.tc[t].state {
      case TcInactive => {}
      case TcLearning => {}
      case TcNotifiedTcn => {}
      case TcActive => {}
      case _ => {}
    }
  }

  /** When no transition is left, a machine that is not inactive has consumed every flag. */
  lemma NothingPendingAtRest(prt: Port, t: nat)
    requires t < |prt.tc| == |prt.hs| == |prt.rv| == |prt.fw| && Next(prt, t).None?
    ensures prt.tc[t].state.TcInactive? || PendingFlags(prt, t) == 0
    ensures prt.tc[t].state.TcActive? ==> ActivePort(prt.rv[t].role) && !prt.edge.operEdge
  {
  }

  /** `TCSM_run` with dry_run false. */
  function Run(b: Bridge, p: nat, t: nat): (r: Bridge)
    requires InRange(b, p, t)
    ensures InRange(r, p, t) && r == b.(ports := r.ports) && |r.ports| == |b.ports|
    ensures Next(r.ports[p], t).None?
    decreases Measure(b.ports[p], t)
  {
    hide Enter, Next, Measure, OwnPort, OtherPort;
    match Next(b.ports[p], t)
    case None => b
    case Some(s) =>
      TransitionDecreases(b.trees[t], b.ports[p], t);
      Run(Enter(b, p, t, s), p, t)
  }

  // ---- What a call changes --------------------------------------------------------------------------

  predicate PortFrame(prt: Port, r: Port, own: bool, t: nat)
    requires t < |prt.tc| && t < |prt.hs|
  {
    && |r.tc| == |prt.tc| && |r.hs| == |prt.hs|
    && r == prt.(tc := prt.tc[t := r.tc[t]], hs := prt.hs[t := prt.hs[t].(rcvdTc := r.hs[t].rcvdTc)],
                 flags := prt.flags.(rcvdTcn := r.flags.rcvdTcn, rcvdTcAck := r.flags.rcvdTcAck),
                 tx := prt.tx.(newInfo := r.tx.newInfo, newInfoMsti := r.tx.newInfoMsti, tcAck := r.tx.tcAck))
    && (own || r == prt.(tc := prt.tc[t := prt.tc[t].(tcProp := r.tc[t].tcProp)]))
  }

  /** A call changes only topology variables, and of other ports only tcProp in this tree. */
  lemma {:induction false} RunFrame(b: Bridge, p: nat, t: nat)
    requires InRange(b, p, t)
    ensures forall q :: 0 <= q < |b.ports| ==> PortFrame(b.ports[q], Run(b, p, t).ports[q], q == p, t)
    decreases Measure(b.ports[p], t)
  {
    hide Enter, Next, Measure, OwnPort, Propagates;
    if Next(b.ports[p], t).Some? {
      var s := Next(b.ports[p], t).value;
      TransitionDecreases(b.trees[t], b.ports[p], t);
      var c := Enter(b, p, t, s);
      RunFrame(c, p, t);
      var r := Run(c, p, t);
      forall q | 0 <= q < |b.ports| ensures PortFrame(b.ports[q], r.ports[q], q == p, t) {
        assert PortFrame(c.ports[q], r.ports[q], q == p, t);
        assert c.ports[q] == if q == p then OwnPort(b.trees[t], b.ports[p], t, s)
          else OtherPort(b.ports[q], t, Propagates(b.ports[p], s));
        TransitionFrame(b.trees[t], b.ports[q], r.ports[q], t, s, q == p, Propagates(b.ports[p], s));
      }
    }
  }

  lemma TransitionFrame(tree: Tree, prt: Port, r: Port, t: nat, s: TopologyState, own: bool, propagate: bool)
    requires t < |prt.tc| == |prt.hs| == |prt.rv| && 1 <= |prt.info|
    requires PortFrame(if own then OwnPort(tree, prt, t, s) else OtherPort(prt, t, propagate), r, own, t)
    ensures PortFrame(prt, r, own, t)
  {
    hide TcAfter, TxAfter;
  }

  // ---- What a call achieves -------------------------------------------------------------------------

  /** An active port that has noticed a change, or has already told it on; no acknowledgement is pending. */
  predicate Alarmed(b: Bridge, p: nat, t: nat)
    requires InRange(b, p, t)
  {
    var prt := b.ports[p];
    && ActivePort(prt.rv[t].role) && !prt.edge.operEdge && !(t == 0 && prt.flags.rcvdTcAck)
    && (prt.mig.sendRSTP || b.trees[t].rootTimes.maxAge > 0)
    && !prt.tc[t].state.TcInactive? && !prt.tc[t].state.TcLearning? && !prt.tc[t].state.TcAcknowledged?
    && (prt.tc[t].tcProp || prt.tc[t].tcWhile > 0)
  }

  /** A change another port has noticed makes an active port tell it on: whatever else is pending on it, the call
      leaves its timer running and nothing pending.  Only an acknowledgement can stop the timer. */
  lemma {:induction false} PropagationRunsTimer(b: Bridge, p: nat, t: nat)
    requires InRange(b, p, t) && Alarmed(b, p, t)
    ensures var r := Run(b, p, t).ports[p];
      r.tc[t].state == TcActive && r.tc[t].tcWhile > 0 && PendingFlags(r, t) == 0
    decreases Measure(b.ports[p], t)
  {
    if Next(b.ports[p], t).Some? {
      var s := Next(b.ports[p], t).value;
      TransitionDecreases(b.trees[t], b.ports[p], t) by { hide Run; }
      AlarmGoesOn(b, p, t);
      PropagationRunsTimer(Enter(b, p, t, s), p, t);
      hide Enter, Next, Measure, Alarmed;
    }
  }

  lemma AlarmGoesOn(b: Bridge, p: nat, t: nat)
    requires InRange(b, p, t) && Alarmed(b, p, t) && Next(b.ports[p], t).Some?
    ensures Alarmed(Enter(b, p, t, Next(b.ports[p], t).value), p, t)
  {
    hide OtherPort, Run, Propagates;
  }

  /** A port that starts to forward raises the alarm on all other ports of the tree. */
  lemma DetectionReachesOthers(b: Bridge, p: nat, t: nat, q: nat)
    requires InRange(b, p, t) && q < |b.ports| && q != p && !b.ports[p].cfg.restrictedTcn
    requires Next(b.ports[p], t) == Some(TcDetected)
    ensures Run(b, p, t).ports[q].tc[t].tcProp
  {
    hide Enter, OwnPort, Next, Measure;
    TransitionDecreases(b.trees[t], b.ports[p], t);
    var c := Enter(b, p, t, TcDetected);
    AlarmStays(c, p, t, q);
  }

  lemma {:induction false} AlarmStays(b: Bridge, p: nat, t: nat, q: nat)
    requires InRange(b, p, t) && q < |b.ports| && q != p && b.ports[q].tc[t].tcProp
    ensures Run(b, p, t).ports[q].tc[t].tcProp
    decreases Measure(b.ports[p], t)
  {
    hide Enter, OwnPort, Next, Measure, Propagates;
    if Next(b.ports[p], t).Some? {
      TransitionDecreases(b.trees[t], b.ports[p], t);
      AlarmStays(Enter(b, p, t, Next(b.ports[p], t).value), p, t, q);
    }
  }
}
