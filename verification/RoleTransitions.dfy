/**
 Port Role Transitions state machine (clause 13.34 of IEEE 802.1Q-2005, mstp.c:3678-4590).

 `Next` is the guard table of `PRTSM_runr` and `Enter` the actions of the `PRTSM_to_*` functions on the
 node itself.  What they do to the rest of the tree is in module RoleMachine.
 */
module RoleTransitions {
  import opened Types

  /** The node's variables that this machine writes. */
  datatype Node = Node(hs: Handshake, rv: RoleVars)

  /** Everything the machine reads but does not write, during one outer call of `PRTSM_runr`.
      The last four fields summarise the other ports of the tree. */
  datatype Env = Env(maxAge: nat, fwdDelay: nat, forwardDelay: nat, helloTime: nat,
                     active: bool,  // selected && !updtInfo
                     selectedRole: Role, learning: bool, forwarding: bool,
                     operEdge: bool, sendRSTP: bool, baInconsistent: bool, rstp: bool,
                     othersReady: bool, othersSynced: bool, nonRootOthersSynced: bool, reRooted: bool)

  /** 13.25.1: the node's part and that of the other ports. */
  predicate AllSynced(e: Env, n: Node) {
    && e.active && n.rv.role == e.selectedRole && e.othersReady
    && match n.rv.role
       case RoleRoot => e.nonRootOthersSynced
       case RoleAlternate => e.nonRootOthersSynced && n.hs.synced
       case RoleDesignated => e.othersSynced
       case RoleMaster => e.othersSynced
       case RoleDisabled => false
       case RoleBackup => false
  }

  /** The state entered when the role has to follow selectedRole. */
  function EntryState(r: Role): RoleState {
    match r
    case RoleDisabled => DisablePort
    case RoleMaster => MasterPort
    case RoleRoot => RootPort
    case RoleDesignated => DesignatedPort
    case RoleAlternate => BlockPort
    case RoleBackup => BlockPort
  }

  predicate RoleMustChange(e: Env, n: Node) { n.rv.role != e.selectedRole && e.active }

  predicate SyncedDue(e: Env, n: Node) {
    || (!e.learning && !e.forwarding && !n.hs.synced)
    || (n.hs.agreed && !n.hs.synced)
    || (e.operEdge && !n.hs.synced)
    || (n.hs.sync && n.hs.synced)
  }

  function NextMaster(e: Env, n: Node): (r: Option<RoleState>)
    ensures r.Some? ==> e.active
  {
    if !e.active then None
    else if n.hs.reRoot && n.rv.rrWhile == 0 then Some(MasterRetired)
    else if SyncedDue(e, n) then Some(MasterSynced)
    else if (AllSynced(e, n) && !n.hs.agree) || (n.hs.proposed && n.hs.agree) then Some(MasterAgreed)
    else if n.hs.proposed && !n.hs.agree then Some(MasterProposed)
    else if (n.rv.fdWhile == 0 || AllSynced(e, n)) && n.rv.learn && !n.rv.forward then Some(MasterForward)
    else if (n.rv.fdWhile == 0 || AllSynced(e, n)) && !n.rv.learn then Some(MasterLearn)
    else if ((n.hs.sync && !n.hs.synced) || (n.hs.reRoot && n.rv.rrWhile != 0) || n.hs.disputed)
            && !e.operEdge && (n.rv.learn || n.rv.forward) then Some(MasterDiscard)
    else None
  }

  function NextRoot(e: Env, n: Node): (r: Option<RoleState>)
    ensures r.Some? ==> e.active
  {
    if !e.active then None
    else if !n.rv.forward && !n.hs.reRoot then Some(ReRoot)
    else if (n.hs.agreed && !n.hs.synced) || (n.hs.sync && n.hs.synced) then Some(RootSynced)
    else if (AllSynced(e, n) && !n.hs.agree) || (n.hs.proposed && n.hs.agree) then Some(RootAgreed)
    else if n.hs.proposed && !n.hs.agree then Some(RootProposed)
    else
      var mayGo := n.rv.fdWhile == 0 || (e.reRooted && n.rv.rbWhile == 0 && e.rstp);
      if mayGo && !n.rv.learn then Some(RootLearn)
      else if mayGo && !n.rv.forward then Some(RootForward)
      else if n.hs.reRoot && n.rv.forward then Some(ReRooted)
      else if n.rv.rrWhile != e.fwdDelay then Some(RootPort)
      else None
  }

  function NextDesignated(e: Env, n: Node): (r: Option<RoleState>)
    ensures r.Some? ==> e.active
  {
    if !e.active then None
    else if n.hs.reRoot && n.rv.rrWhile == 0 then Some(DesignatedRetired)
    else if SyncedDue(e, n) then Some(DesignatedSynced)
    else if AllSynced(e, n) && (n.hs.proposed || !n.hs.agree) then Some(DesignatedAgreed)
    else if !n.rv.forward && !n.hs.agreed && !n.hs.proposing && !e.operEdge then Some(DesignatedPropose)
    else
      var mayGo := (n.rv.fdWhile == 0 || n.hs.agreed || e.operEdge) && (n.rv.rrWhile == 0 || !n.hs.reRoot)
                   && !n.hs.sync && !e.baInconsistent;
      if mayGo && !n.rv.learn then Some(DesignatedLearn)
      else if mayGo && !n.rv.forward then Some(DesignatedForward)
      else if ((n.hs.sync && !n.hs.synced) || (n.hs.reRoot && n.rv.rrWhile != 0) || n.hs.disputed || e.baInconsistent)
              && !e.operEdge && (n.rv.learn || n.rv.forward) then Some(DesignatedDiscard)
      else None
  }

  function NextAlternate(e: Env, n: Node): (r: Option<RoleState>)
    ensures r.Some? ==> e.active
  {
    if !e.active then None
    else if (AllSynced(e, n) && !n.hs.agree) || (n.hs.proposed && n.hs.agree) then Some(AlternateAgreed)
    else if n.hs.proposed && !n.hs.agree then Some(AlternateProposed)
    else if n.rv.rbWhile != 2 * e.helloTime && n.rv.role == RoleBackup then Some(BackupPort)
    else if n.rv.fdWhile != e.forwardDelay || n.hs.sync || n.hs.reRoot || !n.hs.synced then Some(AlternatePort)
    else None
  }

  predicate IsMasterState(s: RoleState) {
    s.MasterProposed? || s.MasterAgreed? || s.MasterSynced? || s.MasterRetired? || s.MasterForward?
    || s.MasterLearn? || s.MasterDiscard? || s.MasterPort?
  }

  predicate IsRootState(s: RoleState) {
    s.RootProposed? || s.RootAgreed? || s.RootSynced? || s.ReRoot? || s.RootForward? || s.RootLearn? || s.ReRooted? ||
      s.RootPort?
  }

  predicate IsDesignatedState(s: RoleState) {
    s.DesignatedPropose? || s.DesignatedAgreed? || s.DesignatedSynced? || s.DesignatedRetired?
    || s.DesignatedForward? || s.DesignatedLearn? || s.DesignatedDiscard? || s.DesignatedPort?
  }

  predicate IsDisabledState(s: RoleState) { s.InitPort? || s.DisablePort? || s.DisabledPort? }

  function NextDisabled(e: Env, n: Node): Option<RoleState> {
    if n.rv.state.InitPort? then Some(DisablePort)
    else
      var due := if n.rv.state.DisablePort? then !e.learning && !e.forwarding
                 else n.hs.sync || n.hs.reRoot || !n.hs.synced || n.rv.fdWhile != e.maxAge;
      if e.active && due then Some(DisabledPort) else None
  }

  /** The transition `PRTSM_runr` would take.  All states but one or two of each family are left unconditionally. */
  function Next(e: Env, n: Node): Option<RoleState> {
    var s := n.rv.state;
    if RoleMustChange(e, n) then Some(EntryState(e.selectedRole))
    else if IsDisabledState(s) then NextDisabled(e, n)
    else if IsMasterState(s) then (if s.MasterPort? then NextMaster(e, n) else Some(MasterPort))
    else if IsRootState(s) then (if s.RootPort? then NextRoot(e, n) else Some(RootPort))
    else if IsDesignatedState(s) then (if s.DesignatedPort? then NextDesignated(e, n) else Some(DesignatedPort))
    else if s.AlternatePort? then NextAlternate(e, n)
    else if s.BlockPort? && !(e.active && !e.learning && !e.forwarding) then None
    else Some(AlternatePort)
  }

  // The actions of the `PRTSM_to_*` functions on the node itself, one function per family of states.

  function EnterDisabled(e: Env, n: Node, s: RoleState): Node {
    var hs, rv := n.hs, n.rv.(state := s);
    if s.InitPort? then
      Node(hs.(synced := false, sync := true, reRoot := true),
           rv.(role := RoleDisabled, learn := false, forward := false, rrWhile := e.fwdDelay, fdWhile := e.maxAge,
               rbWhile := 0))
    else if s.DisablePort? then Node(hs, rv.(role := RoleDisabled, learn := false, forward := false))
    else Node(hs.(synced := true, sync := false, reRoot := false), rv.(fdWhile := e.maxAge, rrWhile := 0))
  }

  function EnterMaster(e: Env, n: Node, s: RoleState): Node {
    var hs, rv := n.hs, n.rv.(state := s);
    if s.MasterProposed? then Node(hs.(sync := true, proposed := false), rv)
    else if s.MasterAgreed? then Node(hs.(proposed := false, sync := false, agree := true), rv)
    else if s.MasterSynced? then Node(hs.(synced := true, sync := false), rv.(rrWhile := 0))
    else if s.MasterRetired? then Node(hs.(reRoot := false), rv)
    else if s.MasterForward? then Node(hs.(agreed := e.sendRSTP), rv.(forward := true, fdWhile := 0))
    else if s.MasterLearn? then Node(hs, rv.(learn := true, fdWhile := e.forwardDelay))
    else if s.MasterDiscard? then
      Node(hs.(disputed := false), rv.(learn := false, forward := false, fdWhile := e.forwardDelay))
    else Node(hs, rv.(role := RoleMaster))
  }

  function EnterRoot(e: Env, n: Node, s: RoleState): Node {
    var hs, rv := n.hs, n.rv.(state := s);
    if s.RootProposed? then Node(hs.(sync := true, proposed := false), rv)
    else if s.RootAgreed? then Node(hs.(proposed := false, sync := false, agree := true), rv)
    else if s.RootSynced? then Node(hs.(synced := true, sync := false), rv)
    else if s.ReRoot? then Node(hs.(reRoot := true), rv)
    else if s.RootForward? then Node(hs, rv.(fdWhile := 0, forward := true))
    else if s.RootLearn? then Node(hs, rv.(fdWhile := e.forwardDelay, learn := true))
    else if s.ReRooted? then Node(hs.(reRoot := false), rv)
    else Node(hs, rv.(role := RoleRoot, rrWhile := e.fwdDelay))
  }

  function EnterDesignated(e: Env, n: Node, s: RoleState): Node {
    var hs, rv := n.hs, n.rv.(state := s);
    if s.DesignatedPropose? then Node(hs.(proposing := true), rv)
    else if s.DesignatedAgreed? then Node(hs.(proposed := false, sync := false, agree := true), rv)
    else if s.DesignatedSynced? then Node(hs.(synced := true, sync := false), rv.(rrWhile := 0))
    else if s.DesignatedRetired? then Node(hs.(reRoot := false), rv)
    else if s.DesignatedForward? then Node(hs.(agreed := e.sendRSTP), rv.(forward := true, fdWhile := 0))
    else if s.DesignatedLearn? then Node(hs, rv.(learn := true, fdWhile := e.forwardDelay))
    else if s.DesignatedDiscard? then
      Node(hs.(disputed := false), rv.(learn := false, forward := false, fdWhile := e.forwardDelay))
    else Node(hs, rv.(role := RoleDesignated))
  }

  function EnterAlternate(e: Env, n: Node, s: RoleState): Node {
    var hs, rv := n.hs, n.rv.(state := s);
    if s.BlockPort? then Node(hs, rv.(role := e.selectedRole, learn := false, forward := false))
    else if s.BackupPort? then Node(hs, rv.(rbWhile := 2 * e.helloTime))
    else if s.AlternateProposed? then Node(hs.(sync := true, proposed := false), rv)
    else if s.AlternateAgreed? then Node(hs.(proposed := false, agree := true), rv)
    else Node(hs.(synced := true, sync := false, reRoot := false), rv.(fdWhile := e.forwardDelay, rrWhile := 0))
  }

  /** The actions of `PRTSM_to_<s>` on the node itself. */
  function Enter(e: Env, n: Node, s: RoleState): Node {
    if IsDisabledState(s) then EnterDisabled(e, n, s)
    else if IsMasterState(s) then EnterMaster(e, n, s)
    else if IsRootState(s) then EnterRoot(e, n, s)
    else if IsDesignatedState(s) then EnterDesignated(e, n, s)
    else EnterAlternate(e, n, s)
  }

  /** `depth` transitions of `PRTSM_runr`, fewer when no guard holds before. */
  function Iterate(e: Env, n: Node, depth: nat): Node
    decreases depth
  {
    match Next(e, n)
    case None => n
    case Some(s) => if depth == 0 then n else Iterate(e, Enter(e, n, s), depth - 1)
  }

  // ---- Safety ---------------------------------------------------------------------------------------

  /** Roles that neither learn nor forward. */
  predicate IsQuiet(r: Role) { r.RoleDisabled? || r.RoleAlternate? || r.RoleBackup? }

  /** The family of the machine's state is that of the role. */
  predicate InFamily(s: RoleState, r: Role) {
    match r
    case RoleDisabled => IsDisabledState(s)
    case RoleMaster => IsMasterState(s)
    case RoleRoot => IsRootState(s)
    case RoleDesignated => IsDesignatedState(s)
    case RoleAlternate => s.BlockPort? || s.BackupPort? || s.AlternateProposed? || s.AlternateAgreed? ||
      s.AlternatePort?
    case RoleBackup => s.BlockPort? || s.BackupPort? || s.AlternateProposed? || s.AlternateAgreed? || s.AlternatePort?
  }

  /** Forwarding implies learning, a quiet role does neither, and the state belongs to the role. */
  predicate Safe(rv: RoleVars) {
    && (rv.forward ==> rv.learn)
    && (IsQuiet(rv.role) ==> !rv.learn && !rv.forward)
    && InFamily(rv.state, rv.role)
  }

  lemma RoleChangeIsSafe(e: Env, n: Node)
    requires Safe(n.rv) && RoleMustChange(e, n)
    ensures Safe(Enter(e, n, EntryState(e.selectedRole)).rv)
  {
    hide AllSynced, SyncedDue;
  }

  lemma MasterTransitionIsSafe(e: Env, n: Node)
    requires Safe(n.rv) && !RoleMustChange(e, n) && IsMasterState(n.rv.state) && Next(e, n).Some?
    ensures Safe(Enter(e, n, Next(e, n).value).rv)
  {
    hide AllSynced, SyncedDue, NextRoot, NextDesignated, NextAlternate, NextDisabled, EnterRoot, EnterDesignated;
    hide EnterAlternate, EnterDisabled;
  }

  lemma RootTransitionIsSafe(e: Env, n: Node)
    requires Safe(n.rv) && !RoleMustChange(e, n) && IsRootState(n.rv.state) && Next(e, n).Some?
    ensures Safe(Enter(e, n, Next(e, n).value).rv)
  {
    hide AllSynced, SyncedDue, NextMaster, NextDesignated, NextAlternate, NextDisabled, EnterMaster, EnterDesignated;
    hide EnterAlternate, EnterDisabled;
  }

  lemma DesignatedTransitionIsSafe(e: Env, n: Node)
    requires Safe(n.rv) && !RoleMustChange(e, n) && IsDesignatedState(n.rv.state) && Next(e, n).Some?
    ensures Safe(Enter(e, n, Next(e, n).value).rv)
  {
    hide AllSynced, SyncedDue, NextMaster, NextRoot, NextAlternate, NextDisabled, EnterMaster, EnterRoot;
    hide EnterAlternate, EnterDisabled;
    if n.rv.state.DesignatedPort? {
      hide Next, Enter;
      PortStateNext(e, n);
      DesignatedEnter(e, n);
      hide NextDesignated;
    } else {
      hide NextDesignated;
    }
  }

  /** Every transition keeps the node safe. */
  lemma TransitionIsSafe(e: Env, n: Node)
    requires Safe(n.rv) && Next(e, n).Some?
    ensures Safe(Enter(e, n, Next(e, n).value).rv)
  {
    hide AllSynced, SyncedDue, NextMaster, NextRoot, NextDesignated, EnterMaster, EnterRoot, EnterDesignated;
    if RoleMustChange(e, n) {
      RoleChangeIsSafe(e, n);
    } else if IsMasterState(n.rv.state) {
      MasterTransitionIsSafe(e, n);
    } else if IsRootState(n.rv.state) {
      RootTransitionIsSafe(e, n);
    } else if IsDesignatedState(n.rv.state) {
      DesignatedTransitionIsSafe(e, n);
    }
  }

  // ---- Termination ----------------------------------------------------------------------------------

  function B2N(b: bool): nat { if b then 1 else 0 }

  /** A node on a Root or Designated state whose role says otherwise; unreachable, but it terminates too. */
  predicate Mismatch(n: Node) {
    (IsRootState(n.rv.state) && n.rv.role != RoleRoot) || (IsDesignatedState(n.rv.state) && n.rv.role != RoleDesignated)
  }

  function RootRank(e: Env, n: Node): (r: nat)
    ensures r <= 10
  {
    2 * B2N(n.hs.proposed) + B2N(!n.hs.agree) + B2N(!n.hs.synced) + B2N(n.hs.sync)
    + B2N(!n.rv.learn) + 2 * B2N(!n.rv.forward) + B2N(n.rv.forward == n.hs.reRoot) + B2N(n.rv.rrWhile != e.fwdDelay)
  }

  function DesignatedRank(e: Env, n: Node): (r: nat)
    ensures r <= 19
  {
    var blocked := n.hs.sync || (n.hs.reRoot && n.rv.rrWhile != 0) || e.baInconsistent;
    3 * (B2N(n.hs.disputed) + B2N(n.hs.proposed) + B2N(!n.hs.agree) + B2N(!n.hs.synced) + B2N(n.hs.sync))
    + B2N(n.hs.reRoot) + B2N(!n.hs.proposing)
    + if blocked then B2N(n.rv.learn) + B2N(n.rv.forward) else B2N(!n.rv.learn) + B2N(!n.rv.forward)
  }

  function AlternateRank(e: Env, n: Node): (r: nat)
    ensures r <= 6
  {
    2 * B2N(n.hs.proposed) + 2 * B2N(!n.hs.agree) + B2N(n.rv.rbWhile != 2 * e.helloTime && n.rv.role == RoleBackup)
    + B2N(n.rv.fdWhile != e.forwardDelay || n.hs.sync || n.hs.reRoot || !n.hs.synced)
  }

  /** How far learn and forward of a Master port still have to go. */
  function MasterProgress(e: Env, n: Node): (r: nat)
    ensures r <= 5
  {
    var free := e.othersReady && e.othersSynced;
    if e.operEdge then B2N(!n.rv.learn) + B2N(!n.rv.forward)
    else if !free && e.forwardDelay != 0 then
      (if n.rv.learn && n.rv.forward then 1
       else if n.rv.fdWhile == 0 then 2
       else B2N(n.rv.learn || n.rv.forward))
    else if !free && !n.rv.learn && !n.rv.forward && n.rv.fdWhile != 0 then 0
    else if n.hs.synced || !e.sendRSTP then B2N(!n.rv.learn) + B2N(!n.rv.forward)
    else if n.hs.agreed then 0
    else if !free && n.rv.fdWhile != 0 then 5
    else if n.rv.learn then (if n.rv.forward then 3 else 1)
    else if n.rv.forward then 4 else 2
  }

  function MasterRank(e: Env, n: Node): (r: nat)
    ensures r <= 38
  {
    5 * B2N(n.hs.disputed) + 11 * B2N(n.hs.proposed) + 5 * B2N(!n.hs.agree) + 6 * B2N(!n.hs.synced)
    + 5 * B2N(n.hs.sync) + B2N(n.hs.reRoot) + MasterProgress(e, n)
  }

  /** A bound on the transitions that one call of `PRTSM_runr` can still make. */
  function Measure(e: Env, n: Node): (r: nat)
    ensures r <= 400
  {
    var s := n.rv.state;
    if RoleMustChange(e, n) then 200
    else if s.InitPort? then 400
    else if e.active && Mismatch(n) then (if s.RootPort? || s.DesignatedPort? then 302 else 301)
    else if s.DisablePort? || s.DisabledPort? then
      B2N(s.DisablePort?) + B2N(n.hs.sync || n.hs.reRoot || !n.hs.synced || n.rv.fdWhile != e.maxAge)
    else if IsRootState(s) then 2 * RootRank(e, n) + B2N(!s.RootPort?)
    else if IsDesignatedState(s) then 2 * DesignatedRank(e, n) + B2N(!s.DesignatedPort?)
    else if IsMasterState(s) then 2 * MasterRank(e, n) + B2N(!s.MasterPort?)
    else 2 * AlternateRank(e, n) + B2N(!s.AlternatePort?)
  }

  /** The exact family of states from which a Master port never settles: it keeps being discarded for a
      cause that learning and forwarding do not remove, while `allSynced` (or a zero delay) keeps letting it
      learn and forward again. */
  predicate MasterDiverges(e: Env, n: Node) {
    var h, v := n.hs, n.rv;
    var free := e.othersReady && e.othersSynced;
    var retried := free || (e.forwardDelay == 0 && (v.learn || v.forward || v.fdWhile == 0));
    var syncStays := if (free && !h.agree) || (h.proposed && h.agree) then false else h.sync || h.proposed;
    && e.active && e.selectedRole == RoleMaster
    && !e.operEdge && retried && !SyncedDue(e, n)
    && (if h.synced then h.reRoot && v.rrWhile != 0 && !(h.proposed && !h.agree && !free)
        else !e.sendRSTP && ((h.reRoot && v.rrWhile != 0) || syncStays))
  }

  /** States for which termination is claimed: anything without the Master role, and every safe state that
      is not of the diverging family. */
  predicate Tame(e: Env, n: Node) {
    || (e.selectedRole != RoleMaster && !IsMasterState(n.rv.state))
    || (Safe(n.rv) && !MasterDiverges(e, n))
  }

  lemma RootHandshakeDecreases(e: Env, n: Node)
    requires n.rv.state == RootPort && n.rv.role == RoleRoot
    requires NextRoot(e, n) in {Some(RootProposed), Some(RootAgreed), Some(RootSynced), Some(ReRoot)}
    ensures RootRank(e, EnterRoot(e, n, NextRoot(e, n).value)) < RootRank(e, n)
  {
    hide AllSynced;
  }

  lemma RootForwardingDecreases(e: Env, n: Node)
    requires n.rv.state == RootPort && n.rv.role == RoleRoot
    requires NextRoot(e, n) in {Some(RootForward), Some(RootLearn), Some(ReRooted), Some(RootPort)}
    ensures RootRank(e, EnterRoot(e, n, NextRoot(e, n).value)) < RootRank(e, n)
  {
    hide AllSynced;
  }

  lemma RootTransitionDecreases(e: Env, n: Node)
    requires n.rv.state == RootPort && n.rv.role == RoleRoot && NextRoot(e, n).Some?
    ensures var s := NextRoot(e, n).value; var r := EnterRoot(e, n, s);
      IsRootState(s) && r.rv.state == s && r.rv.role == RoleRoot && RootRank(e, r) < RootRank(e, n)
  {
    hide AllSynced, RootRank;
    var s := NextRoot(e, n).value;
    if s.RootForward? || s.RootLearn? || s.ReRooted? || s.RootPort? {
      RootForwardingDecreases(e, n);
    } else {
      RootHandshakeDecreases(e, n);
    }
  }

  lemma DesignatedHandshakeDecreases(e: Env, n: Node)
    requires n.rv.state == DesignatedPort && n.rv.role == RoleDesignated
    requires NextDesignated(e, n) in {Some(DesignatedPropose), Some(DesignatedAgreed)}
    ensures DesignatedRank(e, EnterDesignated(e, n, NextDesignated(e, n).value)) < DesignatedRank(e, n)
  {
    hide AllSynced;
  }

  lemma DesignatedSyncDecreases(e: Env, n: Node)
    requires n.rv.state == DesignatedPort && n.rv.role == RoleDesignated
    requires NextDesignated(e, n) in {Some(DesignatedSynced), Some(DesignatedRetired)}
    ensures DesignatedRank(e, EnterDesignated(e, n, NextDesignated(e, n).value)) < DesignatedRank(e, n)
  {
    hide AllSynced;
  }

  lemma DesignatedForwardingDecreases(e: Env, n: Node)
    requires n.rv.state == DesignatedPort && n.rv.role == RoleDesignated
    requires NextDesignated(e, n) in {Some(DesignatedForward), Some(DesignatedLearn), Some(DesignatedDiscard)}
    ensures DesignatedRank(e, EnterDesignated(e, n, NextDesignated(e, n).value)) < DesignatedRank(e, n)
  {
    hide AllSynced;
    match NextDesignated(e, n).value {
      case DesignatedForward => {}
      case DesignatedLearn => {}
      case DesignatedDiscard => {}
      case _ => assert false;
    }
  }

  lemma DesignatedTransitionDecreases(e: Env, n: Node)
    requires n.rv.state == DesignatedPort && n.rv.role == RoleDesignated && NextDesignated(e, n).Some?
    ensures var s := NextDesignated(e, n).value; var r := EnterDesignated(e, n, s);
      IsDesignatedState(s) && s != DesignatedPort && r.rv.state == s && r.rv.role == RoleDesignated &&
        DesignatedRank(e, r) < DesignatedRank(e, n)
  {
    hide AllSynced, DesignatedRank;
    var s := NextDesignated(e, n).value;
    if s.DesignatedForward? || s.DesignatedLearn? || s.DesignatedDiscard? {
      DesignatedForwardingDecreases(e, n);
    } else if s.DesignatedSynced? || s.DesignatedRetired? {
      DesignatedSyncDecreases(e, n);
    } else {
      DesignatedHandshakeDecreases(e, n);
    }
  }

  lemma AlternateTransitionDecreases(e: Env, n: Node)
    requires n.rv.state == AlternatePort && NextAlternate(e, n).Some?
    ensures var s := NextAlternate(e, n).value; var r := EnterAlternate(e, n, s);
      InFamily(s, RoleAlternate) && s != BlockPort && r.rv.state == s && r.rv.role == n.rv.role &&
        AlternateRank(e, r) < AlternateRank(e, n)
  {
    hide AllSynced;
  }

  lemma MasterSyncDecreases(e: Env, n: Node)
    requires n.rv.state == MasterPort && n.rv.role == RoleMaster && e.selectedRole == RoleMaster
    requires !MasterDiverges(e, n)
    requires NextMaster(e, n) in {Some(MasterRetired), Some(MasterSynced)}
    ensures MasterRank(e, EnterMaster(e, n, NextMaster(e, n).value)) < MasterRank(e, n)
    ensures !MasterDiverges(e, EnterMaster(e, n, NextMaster(e, n).value))
  {
  }

  lemma MasterHandshakeDecreases(e: Env, n: Node)
    requires n.rv.state == MasterPort && n.rv.role == RoleMaster && e.selectedRole == RoleMaster
    requires !MasterDiverges(e, n)
    requires NextMaster(e, n) in {Some(MasterAgreed), Some(MasterProposed)}
    ensures MasterRank(e, EnterMaster(e, n, NextMaster(e, n).value)) < MasterRank(e, n)
    ensures !MasterDiverges(e, EnterMaster(e, n, NextMaster(e, n).value))
  {
  }

  lemma MasterForwardingDecreases(e: Env, n: Node)
    requires n.rv.state == MasterPort && n.rv.role == RoleMaster && e.selectedRole == RoleMaster
    requires !MasterDiverges(e, n)
    requires NextMaster(e, n) in {Some(MasterForward), Some(MasterLearn), Some(MasterDiscard)}
    ensures MasterRank(e, EnterMaster(e, n, NextMaster(e, n).value)) < MasterRank(e, n)
    ensures !MasterDiverges(e, EnterMaster(e, n, NextMaster(e, n).value))
  {
    match NextMaster(e, n).value {
      case MasterForward => {}
      case MasterLearn => {}
      case MasterDiscard => {}
      case _ => assert false;
    }
  }

  lemma MasterTransitionDecreases(e: Env, n: Node)
    requires n.rv.state == MasterPort && n.rv.role == RoleMaster && e.selectedRole == RoleMaster
    requires !MasterDiverges(e, n) && NextMaster(e, n).Some?
    ensures var s := NextMaster(e, n).value; var r := EnterMaster(e, n, s);
      IsMasterState(s) && s != MasterPort && r.rv.state == s && r.rv.role == RoleMaster &&
        MasterRank(e, r) < MasterRank(e, n)
      && !MasterDiverges(e, r)
  {
    hide AllSynced, MasterRank, MasterDiverges;
    var s := NextMaster(e, n).value;
    if s.MasterForward? || s.MasterLearn? || s.MasterDiscard? {
      MasterForwardingDecreases(e, n);
    } else if s.MasterRetired? || s.MasterSynced? {
      MasterSyncDecreases(e, n);
    } else {
      MasterHandshakeDecreases(e, n);
    }
  }

  // ---- from any tame state

  lemma RoleChangeDecreases(e: Env, n: Node)
    requires Tame(e, n) && RoleMustChange(e, n)
    ensures var r := Enter(e, n, EntryState(e.selectedRole)); Tame(e, r) && Measure(e, r) < Measure(e, n)
  {
    hide AllSynced, RootRank, DesignatedRank, MasterRank, AlternateRank;
    var r := Enter(e, n, EntryState(e.selectedRole));
    assert Measure(e, r) < Measure(e, n) by { hide MasterDiverges; }
    if e.selectedRole == RoleMaster {
      assert r.hs == n.hs && r.rv == n.rv.(state := MasterPort, role := RoleMaster);
      assert MasterDiverges(e, r) == MasterDiverges(e, n);
    }
  }

  /** The states at which most of the guards are. */
  predicate AtPort(s: RoleState) { s.RootPort? || s.DesignatedPort? || s.AlternatePort? || s.MasterPort? }

  lemma RootMismatchDecreases(e: Env, n: Node)
    requires Tame(e, n) && !RoleMustChange(e, n) && e.active && IsRootState(n.rv.state) && n.rv.role != RoleRoot
    ensures Next(e, n).Some? ==> var r := Enter(e, n, Next(e, n).value); Tame(e, r) && Measure(e, r) < Measure(e, n)
  {
    hide AllSynced, SyncedDue, RootRank, DesignatedRank, MasterRank, AlternateRank, MasterDiverges, EnterMaster;
    hide EnterDisabled, EnterAlternate;
    hide NextMaster, NextDisabled, NextAlternate, NextDesignated, EnterDesignated;
    assert e.selectedRole != RoleMaster;
    hide Safe, InFamily;
    if n.rv.state.RootPort? {
      hide Next, Enter, NextRoot;
      RootStateNext(e, n);
      if Next(e, n).Some? {
        RootEnter(e, n);
      }
    } else {
      hide NextRoot;
    }
  }

  lemma DesignatedMismatchAtPort(e: Env, n: Node)
    requires e.selectedRole != RoleMaster && !RoleMustChange(e, n) && e.active && n.rv.state.DesignatedPort?
    requires n.rv.role != RoleDesignated
    requires Next(e, n).Some?
    ensures var r := Enter(e, n, Next(e, n).value); Tame(e, r) && Measure(e, r) < Measure(e, n)
  {
    hide Next, Enter, Safe, InFamily, NextDesignated, MasterDiverges, RootRank, DesignatedRank, MasterRank;
    hide AlternateRank;
    PortStateNext(e, n);
    DesignatedEnter(e, n);
    var s := NextDesignated(e, n).value;
    assert EnterDesignated(e, n, s).rv.state == s && EnterDesignated(e, n, s).rv.role == n.rv.role;
  }

  lemma DesignatedMismatchInTransit(e: Env, n: Node)
    requires e.selectedRole != RoleMaster && !RoleMustChange(e, n) && e.active && IsDesignatedState(n.rv.state)
    requires n.rv.role != RoleDesignated
    requires !n.rv.state.DesignatedPort?
    ensures Next(e, n) == Some(DesignatedPort)
    ensures var r := Enter(e, n, DesignatedPort); Tame(e, r) && Measure(e, r) < Measure(e, n)
  {
    hide AllSynced, Safe, InFamily, MasterDiverges, RootRank, DesignatedRank, MasterRank, AlternateRank;
    hide NextMaster, NextRoot, NextDesignated, NextAlternate, NextDisabled, EnterMaster, EnterRoot, EnterAlternate;
    hide EnterDisabled;
  }

  lemma DesignatedMismatchDecreases(e: Env, n: Node)
    requires Tame(e, n) && !RoleMustChange(e, n) && e.active && IsDesignatedState(n.rv.state)
    requires n.rv.role != RoleDesignated
    ensures Next(e, n).Some? ==> var r := Enter(e, n, Next(e, n).value); Tame(e, r) && Measure(e, r) < Measure(e, n)
  {
    hide Measure, Next, Enter, MasterDiverges;
    assert e.selectedRole != RoleMaster;
    if n.rv.state.DesignatedPort? {
      if Next(e, n).Some? { DesignatedMismatchAtPort(e, n); }
    } else {
      DesignatedMismatchInTransit(e, n);
    }
  }

  lemma GuardedTransitionDecreases(e: Env, n: Node)
    requires Tame(e, n) && !RoleMustChange(e, n) && !(e.active && Mismatch(n)) && AtPort(n.rv.state) && Next(e, n).Some?
    ensures var r := Enter(e, n, Next(e, n).value); Tame(e, r) && Measure(e, r) < Measure(e, n)
  {
    hide RootRank, DesignatedRank, MasterRank, AlternateRank, MasterDiverges, EnterDisabled, NextDisabled;
    hide EnterMaster, EnterRoot, EnterDesignated, EnterAlternate, NextMaster, NextRoot, NextDesignated, NextAlternate;
    match n.rv.state {
      case RootPort => RootTransitionDecreases(e, n);
      case DesignatedPort => DesignatedTransitionDecreases(e, n);
      case AlternatePort => AlternateTransitionDecreases(e, n);
      case _ =>
        TransitionIsSafe(e, n);
        MasterTransitionDecreases(e, n);
    }
  }

  /** Leaving a state that is left unconditionally costs nothing. */
  lemma RootTransientDecreases(e: Env, n: Node)
    requires !RoleMustChange(e, n) && !(e.active && Mismatch(n)) && IsRootState(n.rv.state) && !n.rv.state.RootPort?
    ensures Next(e, n) == Some(RootPort) && Measure(e, Enter(e, n, RootPort)) < Measure(e, n)
  {
    hide AllSynced, DesignatedRank, MasterRank, AlternateRank, EnterDisabled, EnterMaster, EnterDesignated;
    hide EnterAlternate;
    hide NextRoot, NextDesignated, NextMaster, NextAlternate, NextDisabled;
  }

  lemma DesignatedTransientDecreases(e: Env, n: Node)
    requires !RoleMustChange(e, n) && !(e.active && Mismatch(n)) && IsDesignatedState(n.rv.state)
    requires !n.rv.state.DesignatedPort?
    ensures Next(e, n) == Some(DesignatedPort) && Measure(e, Enter(e, n, DesignatedPort)) < Measure(e, n)
  {
    hide AllSynced, RootRank, MasterRank, AlternateRank, EnterDisabled, EnterMaster, EnterRoot, EnterAlternate;
    hide NextRoot, NextDesignated, NextMaster, NextAlternate, NextDisabled;
  }

  lemma MasterTransientDecreases(e: Env, n: Node)
    requires !RoleMustChange(e, n) && IsMasterState(n.rv.state) && !n.rv.state.MasterPort? && n.rv.role == RoleMaster
    ensures Next(e, n) == Some(MasterPort) && Measure(e, Enter(e, n, MasterPort)) < Measure(e, n)
  {
    hide AllSynced, RootRank, DesignatedRank, AlternateRank, EnterDisabled, EnterDesignated, EnterRoot, EnterAlternate;
    hide NextRoot, NextDesignated, NextMaster, NextAlternate, NextDisabled;
  }

  lemma QuietTransitionDecreases(e: Env, n: Node)
    requires !RoleMustChange(e, n) && !AtPort(n.rv.state) && Next(e, n).Some?
    requires !IsRootState(n.rv.state) && !IsDesignatedState(n.rv.state) && !IsMasterState(n.rv.state)
    ensures Measure(e, Enter(e, n, Next(e, n).value)) < Measure(e, n)
  {
    hide RootRank, DesignatedRank, MasterRank, EnterRoot, EnterDesignated, EnterMaster, NextRoot, NextDesignated;
    hide NextMaster, NextAlternate;
  }

  lemma PlainTransitionIsTame(e: Env, n: Node)
    requires Tame(e, n) && !RoleMustChange(e, n) && !AtPort(n.rv.state) && Next(e, n).Some?
    ensures Tame(e, Enter(e, n, Next(e, n).value))
  {
    hide AllSynced, NextRoot, NextDesignated, NextMaster, NextAlternate;
    var r := Enter(e, n, Next(e, n).value);
    if Safe(n.rv) && !MasterDiverges(e, n) {
      assert Safe(r.rv) by { TransitionIsSafe(e, n); hide Enter; }
      if IsMasterState(n.rv.state) {
        assert r == Node(n.hs, n.rv.(state := MasterPort, role := RoleMaster));
      }
    } else {
      hide MasterDiverges, SyncedDue;
    }
  }

  /** A transition from a tame state leads to a tame state and lowers the measure. */
  lemma TransitionDecreases(e: Env, n: Node)
    requires Tame(e, n) && Next(e, n).Some?
    ensures Tame(e, Enter(e, n, Next(e, n).value))
    ensures Measure(e, Enter(e, n, Next(e, n).value)) < Measure(e, n)
  {
    hide Measure, MasterDiverges, Enter;
    if RoleMustChange(e, n) {
      RoleChangeDecreases(e, n);
    } else if e.active && Mismatch(n) {
      if IsRootState(n.rv.state) { RootMismatchDecreases(e, n); } else { DesignatedMismatchDecreases(e, n); }
    } else if AtPort(n.rv.state) {
      GuardedTransitionDecreases(e, n);
    } else {
      assert IsMasterState(n.rv.state) ==> n.rv.role == RoleMaster;
      if IsRootState(n.rv.state) {
        RootTransientDecreases(e, n);
      } else if IsDesignatedState(n.rv.state) {
        DesignatedTransientDecreases(e, n);
      } else if IsMasterState(n.rv.state) {
        MasterTransientDecreases(e, n);
      } else {
        QuietTransitionDecreases(e, n);
      }
      PlainTransitionIsTame(e, n);
    }
  }

  // ---- The whole call -------------------------------------------------------------------------------

  /** From a tame state one call of `PRTSM_runr` stops after at most `Measure` transitions, with no guard left. */
  lemma {:induction false} RunTerminates(e: Env, n: Node, depth: nat)
    requires Tame(e, n) && depth >= Measure(e, n)
    ensures Next(e, Iterate(e, n, depth)).None?
    ensures Iterate(e, n, depth) == Iterate(e, n, Measure(e, n))
    decreases depth
  {
    hide Tame, Measure, Enter, Next;
    if Next(e, n).Some? {
      TransitionDecreases(e, n);
      var r := Enter(e, n, Next(e, n).value);
      RunTerminates(e, r, depth - 1);
      RunTerminates(e, r, Measure(e, n) - 1);
    }
  }

  /** From a diverging state it never stops. */
  lemma {:induction false} RunDiverges(e: Env, n: Node, depth: nat)
    requires Safe(n.rv) && n.rv.role == RoleMaster && MasterDiverges(e, n)
    ensures Next(e, Iterate(e, n, depth)).Some?
    decreases depth
  {
    DivergenceGoesOn(e, n);
    hide Next, Enter, MasterDiverges, Safe;
    if depth != 0 {
      RunDiverges(e, Enter(e, n, Next(e, n).value), depth - 1);
    }
  }

  lemma DivergenceGoesOn(e: Env, n: Node)
    requires Safe(n.rv) && n.rv.role == RoleMaster && MasterDiverges(e, n)
    ensures Next(e, n).Some?
    ensures var r := Enter(e, n, Next(e, n).value); Safe(r.rv) && r.rv.role == RoleMaster && MasterDiverges(e, r)
  {
    hide NextRoot, NextDesignated, NextAlternate;
    if n.rv.state == MasterPort {
      match NextMaster(e, n).value {
        case MasterRetired => {}
        case MasterSynced => {}
        case MasterAgreed => {}
        case MasterProposed => {}
        case MasterForward => {}
        case MasterLearn => {}
        case MasterDiscard => {}
        case _ => assert false;
      }
    }
  }

  lemma NeverReturns(e: Env, n: Node, depth: nat)
    requires Safe(n.rv) && MasterDiverges(e, n)
    ensures Next(e, Iterate(e, n, depth)).Some?
  {
    if n.rv.role == RoleMaster {
      RunDiverges(e, n, depth);
    } else {
      ToMasterPort(e, n);
      if depth > 0 { RunDiverges(e, Enter(e, n, MasterPort), depth - 1); }
    }
  }

  /** One call of `PRTSM_runr` on a safe node returns exactly when the node is not of the diverging family. */
  lemma TerminatesExactly(e: Env, n: Node)
    requires Safe(n.rv)
    ensures (exists depth: nat :: Next(e, Iterate(e, n, depth)).None?) <==> !MasterDiverges(e, n)
  {
    if !MasterDiverges(e, n) {
      RunTerminates(e, n, Measure(e, n));
    } else {
      forall depth: nat ensures Next(e, Iterate(e, n, depth)).Some? { NeverReturns(e, n, depth); }
    }
  }

  lemma ToMasterPort(e: Env, n: Node)
    requires Safe(n.rv) && n.rv.role != RoleMaster && MasterDiverges(e, n)
    ensures Next(e, n) == Some(MasterPort)
    ensures var r := Enter(e, n, MasterPort); Safe(r.rv) && r.rv.role == RoleMaster && MasterDiverges(e, r)
  {
    TransitionIsSafe(e, n);
  }

  // ---- Rapid transitions ----------------------------------------------------------------------------

  /** A Designated port that has no agreement and is no edge port, and has not waited. */
  predicate Waiting(e: Env, n: Node) {
    && e.selectedRole == RoleDesignated && n.rv.role == RoleDesignated && InFamily(n.rv.state, RoleDesignated)
    && !e.operEdge && Unready(n)
  }

  /** No agreement, and the timer has not run out since the port began to learn. */
  predicate Unready(n: Node) { !n.hs.agreed && !n.rv.forward && (n.rv.learn ==> n.rv.fdWhile > 0) }

  /** One call cannot make such a port forward: with a Forward Delay, learning restarts the timer.  So a Designated
      port forwards without delay only after an agreement, or at an edge. */
  lemma {:induction false} DesignatedNeedsAgreement(e: Env, n: Node, depth: nat)
    requires Waiting(e, n) && e.forwardDelay > 0
    ensures Waiting(e, Iterate(e, n, depth))
    decreases depth
  {
    hide Waiting, Next, Enter;
    if Next(e, n).Some? && depth != 0 {
      WaitingGoesOn(e, n);
      DesignatedNeedsAgreement(e, Enter(e, n, Next(e, n).value), depth - 1);
    }
  }

  lemma WaitingGoesOn(e: Env, n: Node)
    requires Waiting(e, n) && e.forwardDelay > 0 && Next(e, n).Some?
    ensures Waiting(e, Enter(e, n, Next(e, n).value))
  {
    hide AllSynced, SyncedDue, NextMaster, NextRoot, NextAlternate, NextDisabled, EnterMaster, EnterRoot;
    hide EnterAlternate, EnterDisabled;
    hide NextDesignated, Unready;
    if n.rv.state.DesignatedPort? {
      PortStateNext(e, n);
      DesignatedEnter(e, n);
      ForwardIsNotDue(e, n);
      DesignatedStaysUnready(e, n, NextDesignated(e, n).value);
      hide Next, Enter, EnterDesignated;
    } else {
      DesignatedStaysUnready(e, n, DesignatedPort);
    }
  }

  lemma PortStateNext(e: Env, n: Node)
    requires n.rv.state.DesignatedPort? && !RoleMustChange(e, n)
    ensures Next(e, n) == NextDesignated(e, n)
  {
    hide NextDesignated, RoleMustChange;
  }

  lemma DesignatedEnter(e: Env, n: Node)
    requires NextDesignated(e, n).Some?
    ensures var s := NextDesignated(e, n).value;
      IsDesignatedState(s) && s != DesignatedPort && Enter(e, n, s) == EnterDesignated(e, n, s)
  {
    hide AllSynced, SyncedDue, EnterDesignated, EnterMaster, EnterRoot, EnterAlternate, EnterDisabled;
  }

  lemma ForwardIsNotDue(e: Env, n: Node)
    requires Unready(n) && !e.operEdge
    ensures NextDesignated(e, n) != Some(DesignatedForward)
  {
    hide AllSynced, SyncedDue;
  }

  lemma DesignatedStaysUnready(e: Env, n: Node, s: RoleState)
    requires Unready(n) && n.rv.role == RoleDesignated && e.forwardDelay > 0 && IsDesignatedState(s)
    requires s != DesignatedForward
    ensures var r := EnterDesignated(e, n, s); Unready(r) && r.rv.role == RoleDesignated && r.rv.state == s
  {
  }

  /** A Root port some other port of which was Root not long ago, or that was Backup itself. */
  predicate HeldBack(e: Env, n: Node) {
    && e.selectedRole == RoleRoot && n.rv.role == RoleRoot && InFamily(n.rv.state, RoleRoot)
    && !(e.reRooted && n.rv.rbWhile == 0 && e.rstp) && Untimed(n)
  }

  /** The timer has not run out since the port began to learn. */
  predicate Untimed(n: Node) { !n.rv.forward && (n.rv.learn ==> n.rv.fdWhile > 0) }

  /** One call cannot make such a port forward either: a new Root port forwards without delay only once all other
      ports have left the old one behind. */
  lemma {:induction false} RootNeedsRetirement(e: Env, n: Node, depth: nat)
    requires HeldBack(e, n) && e.forwardDelay > 0
    ensures HeldBack(e, Iterate(e, n, depth))
    decreases depth
  {
    hide HeldBack, Next, Enter;
    if Next(e, n).Some? && depth != 0 {
      HeldBackGoesOn(e, n);
      RootNeedsRetirement(e, Enter(e, n, Next(e, n).value), depth - 1);
    }
  }

  lemma HeldBackGoesOn(e: Env, n: Node)
    requires HeldBack(e, n) && e.forwardDelay > 0 && Next(e, n).Some?
    ensures HeldBack(e, Enter(e, n, Next(e, n).value))
  {
    hide AllSynced, SyncedDue, NextMaster, NextDesignated, NextAlternate, NextDisabled, EnterMaster, EnterDesignated;
    hide EnterAlternate, EnterDisabled;
    hide NextRoot, Untimed;
    if n.rv.state.RootPort? {
      RootStateNext(e, n);
      RootEnter(e, n);
      RootForwardIsNotDue(e, n);
      RootStaysUntimed(e, n, NextRoot(e, n).value);
      hide Next, Enter, EnterRoot;
    } else {
      RootStaysUntimed(e, n, RootPort);
    }
  }

  lemma RootStateNext(e: Env, n: Node)
    requires n.rv.state.RootPort? && !RoleMustChange(e, n)
    ensures Next(e, n) == NextRoot(e, n)
  {
    hide NextRoot, RoleMustChange;
  }

  lemma RootEnter(e: Env, n: Node)
    requires NextRoot(e, n).Some?
    ensures var s := NextRoot(e, n).value; IsRootState(s) && Enter(e, n, s) == EnterRoot(e, n, s)
  {
    hide AllSynced, EnterRoot, EnterMaster, EnterDesignated, EnterAlternate, EnterDisabled;
  }

  lemma RootForwardIsNotDue(e: Env, n: Node)
    requires Untimed(n) && !(e.reRooted && n.rv.rbWhile == 0 && e.rstp)
    ensures NextRoot(e, n) != Some(RootForward)
  {
    hide AllSynced;
  }

  lemma RootStaysUntimed(e: Env, n: Node, s: RoleState)
    requires Untimed(n) && n.rv.role == RoleRoot && e.forwardDelay > 0 && IsRootState(s) && s != RootForward
    ensures var r := EnterRoot(e, n, s);
      Untimed(r) && r.rv.role == RoleRoot && r.rv.state == s && r.rv.rbWhile == n.rv.rbWhile
  {
  }

  /** A Root port that has not agreed while some other port of the tree is not synchronised. */
  predicate Unagreed(e: Env, n: Node) {
    && e.selectedRole == RoleRoot && n.rv.role == RoleRoot && InFamily(n.rv.state, RoleRoot)
    && !n.hs.agree && !(e.othersReady && e.nonRootOthersSynced)
  }

  /** One call cannot make it agree: a Root port agrees to a proposal only when every other port has stopped
      forwarding or has an agreement of its own. */
  lemma {:induction false} AgreementNeedsSync(e: Env, n: Node, depth: nat)
    requires Unagreed(e, n)
    ensures Unagreed(e, Iterate(e, n, depth))
    decreases depth
  {
    hide Unagreed, Next, Enter;
    if Next(e, n).Some? && depth != 0 {
      UnagreedGoesOn(e, n);
      AgreementNeedsSync(e, Enter(e, n, Next(e, n).value), depth - 1);
    }
  }

  lemma UnagreedGoesOn(e: Env, n: Node)
    requires Unagreed(e, n) && Next(e, n).Some?
    ensures Unagreed(e, Enter(e, n, Next(e, n).value))
  {
    hide AllSynced, SyncedDue, NextMaster, NextDesignated, NextAlternate, NextDisabled, EnterMaster, EnterDesignated;
    hide EnterAlternate, EnterDisabled;
    hide NextRoot;
    if n.rv.state.RootPort? {
      RootStateNext(e, n);
      RootEnter(e, n);
      AgreementIsNotDue(e, n);
      RootStaysUnagreed(e, n, NextRoot(e, n).value);
      hide Next, Enter, EnterRoot;
    } else {
      RootStaysUnagreed(e, n, RootPort);
    }
  }

  lemma AgreementIsNotDue(e: Env, n: Node)
    requires n.rv.role == RoleRoot && !n.hs.agree && !(e.othersReady && e.nonRootOthersSynced)
    ensures NextRoot(e, n) != Some(RootAgreed)
  {
  }

  lemma RootStaysUnagreed(e: Env, n: Node, s: RoleState)
    requires !n.hs.agree && n.rv.role == RoleRoot && IsRootState(s) && s != RootAgreed
    ensures var r := EnterRoot(e, n, s); !r.hs.agree && r.rv.role == RoleRoot && r.rv.state == s
  {
    match s {
      case RootProposed => {}
      case RootSynced => {}
      case ReRoot => {}
      case RootForward => {}
      case RootLearn => {}
      case ReRooted => {}
      case _ => {}
    }
  }
}
