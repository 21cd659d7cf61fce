/**
 The Port Role Transitions state machine inside its bridge: what one call of `PRTSM_runr` does to the port
 and to the other ports of the tree (mstp.c:2245-2282, 3692-4132, 4134-4264).
 */
module RoleMachine {
  import opened Types
  import RT = RoleTransitions

  predicate InRange(b: Bridge, p: nat, t: nat) {
    Shape(b) && p < |b.ports| && t < |b.trees|
  }

  function NodeOf(prt: Port, t: nat): RT.Node
    requires t < |prt.hs| == |prt.rv|
  {
    RT.Node(prt.hs[t], prt.rv[t])
  }

  /** Is the other port settled in its selected role? */
  predicate Ready(prt: Port, t: nat)
    requires t < |prt.sel| == |prt.rv| == |prt.info|
  {
    prt.sel[t].selected && prt.rv[t].role == prt.sel[t].selectedRole && !prt.info[t].updtInfo
  }

  function EnvOf(b: Bridge, p: nat, t: nat): RT.Env
    requires InRange(b, p, t)
  {
    var prt := b.ports[p];
    var des, hello := prt.sel[0].designatedTimes, prt.info[0].portTimes.helloTime;
    RT.Env(des.maxAge, des.forwardDelay, if prt.mig.sendRSTP then hello else des.forwardDelay, hello,
           prt.sel[t].selected && !prt.info[t].updtInfo, prt.sel[t].selectedRole,
           prt.fw[t].learning, prt.fw[t].forwarding,
           prt.edge.operEdge, prt.mig.sendRSTP, prt.ba.inconsistent, RstpVersion(b.cfg),
           forall q :: 0 <= q < |b.ports| && q != p ==> Ready(b.ports[q], t),
           forall q :: 0 <= q < |b.ports| && q != p ==> b.ports[q].hs[t].synced,
           forall q :: 0 <= q < |b.ports| && q != p ==> b.ports[q].rv[t].role == RoleRoot || b.ports[q].hs[t].synced,
           forall q :: 0 <= q < |b.ports| && q != p ==> b.ports[q].rv[t].rrWhile == 0)
  }

  /** States that call setSyncTree. */
  predicate SyncsTree(s: RoleState) { s.MasterProposed? || s.RootProposed? || s.AlternateProposed? }

  /** States that raise newInfoXst. */
  predicate RaisesNewInfo(s: RoleState) {
    s.RootAgreed? || s.DesignatedPropose? || s.DesignatedAgreed? || s.AlternateAgreed?
  }

  /** The port on which the transition happens. */
  function OwnPort(cfg: BridgeConfig, e: RT.Env, prt: Port, t: nat, s: RoleState): (r: Port)
    requires t < |prt.hs| == |prt.rv|
    ensures |r.hs| == |prt.hs| && |r.rv| == |prt.rv|
    ensures r == prt.(hs := r.hs, rv := r.rv, tx := r.tx, rx := prt.rx.(edgeDelayWhile := r.rx.edgeDelayWhile))
  {
    var n := RT.Enter(e, NodeOf(prt, t), s);
    prt.(hs := prt.hs[t := n.hs], rv := prt.rv[t := n.rv],
         tx := if !RaisesNewInfo(s) then prt.tx
               else if t == 0 then prt.tx.(newInfo := true) else prt.tx.(newInfoMsti := true),
         rx := if s.DesignatedPropose? && t == 0 then
                 prt.rx.(edgeDelayWhile := if prt.cfg.operPointToPoint then cfg.migrateTime else e.maxAge)
               else prt.rx)
  }

  /** Another port of the tree: setSyncTree and setReRootTree reach it. */
  function OtherPort(prt: Port, t: nat, s: RoleState): (r: Port)
    requires t < |prt.hs|
    ensures |r.hs| == |prt.hs| && r == prt.(hs := r.hs)
  {
    prt.(hs := prt.hs[t := prt.hs[t].(sync := prt.hs[t].sync || SyncsTree(s), reRoot := prt.hs[t].reRoot || s.ReRoot?)])
  }

  /** `PRTSM_to_<s>` on the whole bridge. */
  function Enter(b: Bridge, p: nat, t: nat, s: RoleState): (r: Bridge)
    requires InRange(b, p, t)
    ensures InRange(r, p, t) && r == b.(ports := r.ports) && |r.ports| == |b.ports|
  {
    hide OwnPort, OtherPort, EnvOf;
    var e := EnvOf(b, p, t);
    b.(ports := seq(|b.ports|, q requires 0 <= q < |b.ports| =>
                    if q == p then OwnPort(b.cfg, e, b.ports[q], t, s) else OtherPort(b.ports[q], t, s)))
  }

  function Next(b: Bridge, p: nat, t: nat): Option<RoleState>
    requires InRange(b, p, t)
  {
    RT.Next(EnvOf(b, p, t), NodeOf(b.ports[p], t))
  }

  /** At most `depth` transitions of `PRTSM_runr` with dry_run false. */
  function Run(b: Bridge, p: nat, t: nat, depth: nat): (r: Bridge)
    requires InRange(b, p, t)
    ensures InRange(r, p, t) && r == b.(ports := r.ports) && |r.ports| == |b.ports|
    decreases depth
  {
    hide Enter, Next;
    match Next(b, p, t)
    case None => b
    case Some(s) => if depth == 0 then b else Run(Enter(b, p, t, s), p, t, depth - 1)
  }

  /** Enough transitions for every tame node; see `RunSettles`. */
  const DEPTH: nat := 400

  // ---- What a call changes --------------------------------------------------------------------------

  /** Ports that look the same to a port of the tree. */
  predicate SameSummary(prt: Port, r: Port, t: nat)
    requires t < |prt.sel| == |prt.rv| == |prt.info| == |prt.hs| && t < |r.sel| == |r.rv| == |r.info| == |r.hs|
  {
    Ready(r, t) == Ready(prt, t) && r.hs[t].synced == prt.hs[t].synced && r.rv[t] == prt.rv[t]
  }

  lemma OtherPortKeepsSummary(prt: Port, t: nat, s: RoleState)
    requires t < |prt.sel| == |prt.rv| == |prt.info| == |prt.hs|
    ensures SameSummary(prt, OtherPort(prt, t, s), t)
  {
  }

  lemma OwnPortKeepsInputs(cfg: BridgeConfig, e: RT.Env, prt: Port, t: nat, s: RoleState)
    requires t < |prt.hs| == |prt.rv|
    ensures var r := OwnPort(cfg, e, prt, t, s);
      r.sel == prt.sel && r.info == prt.info && r.fw == prt.fw && r.mig == prt.mig && r.edge == prt.edge &&
        r.ba == prt.ba
      && NodeOf(r, t) == RT.Enter(e, NodeOf(prt, t), s)
  {
    hide RT.Enter;
  }

  /** The environment is made of the port's own inputs and the summaries of the others. */
  lemma EnvDependsOnSummaries(b: Bridge, r: Bridge, p: nat, t: nat)
    requires InRange(b, p, t) && InRange(r, p, t) && r.cfg == b.cfg && |r.ports| == |b.ports|
    requires r.ports[p].sel == b.ports[p].sel && r.ports[p].info == b.ports[p].info && r.ports[p].fw == b.ports[p].fw
    requires r.ports[p].mig == b.ports[p].mig && r.ports[p].edge == b.ports[p].edge && r.ports[p].ba == b.ports[p].ba
    requires forall q :: 0 <= q < |b.ports| && q != p ==> SameSummary(b.ports[q], r.ports[q], t)
    ensures EnvOf(r, p, t) == EnvOf(b, p, t)
  {
    hide Ready, SameSummary;
    SummariesAgree(b.ports, r.ports, p, t);
  }

  predicate Summarised(ports: seq<Port>, t: nat) {
    forall q :: 0 <= q < |ports| ==> t < |ports[q].sel| == |ports[q].rv| == |ports[q].info| == |ports[q].hs|
  }

  lemma SummariesAgree(ports: seq<Port>, others: seq<Port>, p: nat, t: nat)
    requires |ports| == |others| && Summarised(ports, t) && Summarised(others, t)
    requires forall q :: 0 <= q < |ports| && q != p ==> SameSummary(ports[q], others[q], t)
    ensures (forall q :: 0 <= q < |ports| && q != p ==> Ready(ports[q], t)) <==>
      (forall q :: 0 <= q < |ports| && q != p ==> Ready(others[q], t))
    ensures (forall q :: 0 <= q < |ports| && q != p ==> ports[q].hs[t].synced) <==>
      (forall q :: 0 <= q < |ports| && q != p ==> others[q].hs[t].synced)
    ensures (forall q :: 0 <= q < |ports| && q != p ==> ports[q].rv[t].role == RoleRoot || ports[q].hs[t].synced)
       <==> (forall q :: 0 <= q < |ports| && q != p ==> others[q].rv[t].role == RoleRoot || others[q].hs[t].synced)
    ensures (forall q :: 0 <= q < |ports| && q != p ==> ports[q].rv[t].rrWhile == 0) <==>
      (forall q :: 0 <= q < |ports| && q != p ==> others[q].rv[t].rrWhile == 0)
  {
    hide Ready;
  }

  /** A transition does not change what the machine reads, so the values kept in static variables are right. */
  lemma EnvIsStable(b: Bridge, p: nat, t: nat, s: RoleState)
    requires InRange(b, p, t)
    ensures EnvOf(Enter(b, p, t, s), p, t) == EnvOf(b, p, t)
    ensures NodeOf(Enter(b, p, t, s).ports[p], t) == RT.Enter(EnvOf(b, p, t), NodeOf(b.ports[p], t), s)
  {
    hide OwnPort, OtherPort, EnvOf, SameSummary, RT.Enter;
    var e, r := EnvOf(b, p, t), Enter(b, p, t, s);
    assert r.ports[p] == OwnPort(b.cfg, e, b.ports[p], t, s);
    OwnPortKeepsInputs(b.cfg, e, b.ports[p], t, s);
    forall q | 0 <= q < |b.ports| && q != p ensures SameSummary(b.ports[q], r.ports[q], t) {
      assert r.ports[q] == OtherPort(b.ports[q], t, s);
      OtherPortKeepsSummary(b.ports[q], t, s);
    }
    EnvDependsOnSummaries(b, r, p, t);
  }

  /** One call runs the node's own machine. */
  lemma {:induction false} RunIsIterate(b: Bridge, p: nat, t: nat, depth: nat)
    requires InRange(b, p, t)
    ensures EnvOf(Run(b, p, t, depth), p, t) == EnvOf(b, p, t)
    ensures NodeOf(Run(b, p, t, depth).ports[p], t) == RT.Iterate(EnvOf(b, p, t), NodeOf(b.ports[p], t), depth)
    decreases depth
  {
    hide Enter, EnvOf, NodeOf, RT.Next, RT.Enter;
    if Next(b, p, t).Some? && depth != 0 {
      var s := Next(b, p, t).value;
      EnvIsStable(b, p, t, s);
      RunIsIterate(Enter(b, p, t, s), p, t, depth - 1);
    }
  }

  /** With `DEPTH` transitions a tame node has settled: no guard of the machine holds afterwards. */
  lemma RunSettles(b: Bridge, p: nat, t: nat)
    requires InRange(b, p, t) && RT.Tame(EnvOf(b, p, t), NodeOf(b.ports[p], t))
    ensures Next(Run(b, p, t, DEPTH), p, t).None?
  {
    hide EnvOf, NodeOf, RT.Measure, RT.Next, RT.Tame, Run;
    var e, n := EnvOf(b, p, t), NodeOf(b.ports[p], t);
    RunIsIterate(b, p, t, DEPTH);
    RT.RunTerminates(e, n, DEPTH);
  }

  /** What a call may change: of other ports only `sync` and `reRoot` in this tree. */
  predicate Frame(b: Bridge, r: Bridge, p: nat, t: nat)
    requires InRange(b, p, t)
  {
    && r == b.(ports := r.ports) && |r.ports| == |b.ports|
    && (forall q :: 0 <= q < |b.ports| ==> PortFrame(b.ports[q], r.ports[q], q == p, t))
  }

  predicate PortFrame(prt: Port, r: Port, own: bool, t: nat)
    requires t < |prt.hs|
  {
    && |r.hs| == |prt.hs| && |r.rv| == |prt.rv|
    && r == prt.(hs := r.hs, rv := r.rv, rx := prt.rx.(edgeDelayWhile := r.rx.edgeDelayWhile),
                 tx := prt.tx.(newInfo := r.tx.newInfo, newInfoMsti := r.tx.newInfoMsti))
    && (own || (r.rv == prt.rv && r.rx == prt.rx && r.tx == prt.tx))
    && (forall i :: 0 <= i < |prt.hs| && i != t ==> r.hs[i] == prt.hs[i])
    && (forall i :: 0 <= i < |prt.rv| && i != t ==> r.rv[i] == prt.rv[i])
    && (own || r.hs[t] == prt.hs[t].(sync := r.hs[t].sync, reRoot := r.hs[t].reRoot))
  }

  lemma EnterFrame(b: Bridge, p: nat, t: nat, s: RoleState)
    requires InRange(b, p, t)
    ensures Frame(b, Enter(b, p, t, s), p, t)
  {
    hide EnvOf, OwnPort, OtherPort, PortFrame;
    var e, r := EnvOf(b, p, t), Enter(b, p, t, s);
    forall q | 0 <= q < |b.ports| ensures PortFrame(b.ports[q], r.ports[q], q == p, t) {
      if q == p {
        assert r.ports[q] == OwnPort(b.cfg, e, b.ports[q], t, s);
        OwnPortFrame(b.cfg, e, b.ports[q], t, s);
      } else {
        assert r.ports[q] == OtherPort(b.ports[q], t, s);
        OtherPortFrame(b.ports[q], t, s);
      }
    }
  }

  lemma OtherPortFrame(prt: Port, t: nat, s: RoleState)
    requires t < |prt.hs|
    ensures PortFrame(prt, OtherPort(prt, t, s), false, t)
  {
  }

  lemma OwnPortFrame(cfg: BridgeConfig, e: RT.Env, prt: Port, t: nat, s: RoleState)
    requires t < |prt.hs| == |prt.rv|
    ensures PortFrame(prt, OwnPort(cfg, e, prt, t, s), true, t)
  {
    hide RT.Enter;
  }

  lemma FrameIsTransitive(b: Bridge, c: Bridge, d: Bridge, p: nat, t: nat)
    requires InRange(b, p, t) && InRange(c, p, t) && Frame(b, c, p, t) && Frame(c, d, p, t)
    ensures Frame(b, d, p, t)
  {
    forall q | 0 <= q < |b.ports| ensures PortFrame(b.ports[q], d.ports[q], q == p, t) {
      assert PortFrame(b.ports[q], c.ports[q], q == p, t) && PortFrame(c.ports[q], d.ports[q], q == p, t);
    }
  }

  lemma {:induction false} RunFrame(b: Bridge, p: nat, t: nat, depth: nat)
    requires InRange(b, p, t)
    ensures Frame(b, Run(b, p, t, depth), p, t)
    decreases depth
  {
    hide Enter, Next, Frame;
    if Next(b, p, t).Some? && depth != 0 {
      var c := Enter(b, p, t, Next(b, p, t).value);
      EnterFrame(b, p, t, Next(b, p, t).value);
      RunFrame(c, p, t, depth - 1);
      FrameIsTransitive(b, c, Run(c, p, t, depth - 1), p, t);
    } else {
      FrameIsReflexive(b, p, t);
    }
  }

  lemma FrameIsReflexive(b: Bridge, p: nat, t: nat)
    requires InRange(b, p, t)
    ensures Frame(b, b, p, t)
  {
  }

  /** A call keeps the node safe. */
  lemma {:induction false} RunIsSafe(b: Bridge, p: nat, t: nat, depth: nat)
    requires InRange(b, p, t) && RT.Safe(b.ports[p].rv[t])
    ensures RT.Safe(Run(b, p, t, depth).ports[p].rv[t])
    decreases depth
  {
    hide Enter, EnvOf, RT.Safe, RT.Next, RT.Enter;
    if Next(b, p, t).Some? && depth != 0 {
      var s := Next(b, p, t).value;
      EnvIsStable(b, p, t, s);
      RT.TransitionIsSafe(EnvOf(b, p, t), NodeOf(b.ports[p], t));
      RunIsSafe(Enter(b, p, t, s), p, t, depth - 1);
    }
  }
}
