/**
 Stale information in a network: second after second, whatever is lost, duplicated or reordered within a second
 and whichever links come and go, information about a root nobody claims ages until it is gone.
 */
module StaleNetwork {
  import opened Types
  import opened PortInvariant
  import opened BridgeRun
  import opened Events
  import opened StaleInformation
  import opened StaleBridge
  import opened SpanningTree
  import PI = PortInformation
  import RS = RoleSelection
  import SB = SettledBridge

  // ---- Events on one bridge -------------------------------------------------------------------------

  /** How many BPDUs every port has sent so far. */
  function SentSoFar(b: Bridge): seq<nat> {
    seq(|b.ports|, p requires 0 <= p < |b.ports| => |b.ports[p].tx.sent|)
  }

  /** One second less. */
  function OneSecondLess(l: Level): Level { l.(left := Dec(l.left)) }

  lemma TickedPortIsOld(l: Level, cfg: BridgeConfig, prt: Port)
    requires PortShape(cfg, prt) && PortOld(l, cfg, prt) && (l.left > 0 || l.level < 0)
    ensures PortShape(cfg, TickPort(prt)) && PortOld(OneSecondLess(l), cfg, TickPort(prt))
  {
  }

  /** A tick uses up a second; what was sent before is out of the way. */
  lemma TickIsOld(l: Level, b: Bridge, marks: seq<nat>)
    requires BridgeOk(b) && BridgeOld(l, b, marks) && (l.left > 0 || l.level < 0)
    ensures BridgeOld(OneSecondLess(l), Tick(b), SentSoFar(b))
  {
    hide NodeOk, PortOld, TreeOld, Backing;
    var r := Tick(b);
    forall p | 0 <= p < |b.ports|
      ensures PortOld(OneSecondLess(l), b.cfg, r.ports[p])
      ensures FramesOld(OneSecondLess(l), b.cfg, r.ports[p].tx.sent, |b.ports[p].tx.sent|)
      ensures Agrees(r.trees[0], r.ports[p])
    {
      assert PortOld(l, b.cfg, b.ports[p]) && Agrees(b.trees[0], b.ports[p]);
      TickedPortIsOld(l, b.cfg, b.ports[p]);
    }
    TickedIsBacked(l, b);
    assert TreeOld(OneSecondLess(l), r.trees[0]) by { TreeIgnoresTime(l, b.trees[0]); }
  }

  lemma TreeIgnoresTime(l: Level, tree: Tree)
    requires TreeOld(l, tree)
    ensures TreeOld(OneSecondLess(l), tree)
  {
  }

  lemma TickedIsBacked(l: Level, b: Bridge)
    requires BridgeOk(b) && AllAgree(b) && Backed(l, b)
    ensures AllAgree(Tick(b)) && Backed(OneSecondLess(l), Tick(b))
  {
    hide NodeOk, TickPort, KeepsBacking, Pending, HasBacking, Agrees;
    var r, age := Tick(b), b.trees[0].rootTimes.messageAge;
    forall p | 0 <= p < |b.ports| ensures KeepsBacking(b.ports[p], r.ports[p], l.root, age) {
      TickedPortKeepsBacking(b.cfg, b.ports[p], l.root, age);
    }
    BackingKept(l, b, r);
  }

  lemma TickedPortKeepsBacking(cfg: BridgeConfig, prt: Port, root: BridgeId, age: int)
    requires PortShape(cfg, prt)
    ensures PortShape(cfg, TickPort(prt)) && KeepsBacking(prt, TickPort(prt), root, age)
  {
  }

  /** A port replaced by one with the same CIST. */
  lemma ReplacedPortIsOld(l: Level, b: Bridge, marks: seq<nat>, p: nat, prt: Port)
    requires BridgeOk(b) && p < |b.ports| && PortOk(b.cfg, prt) && BridgeOld(l, b, marks)
    requires PortOld(l, b.cfg, prt) && prt.tx == b.ports[p].tx && prt.info == b.ports[p].info
    requires prt.sel == b.ports[p].sel
    ensures BridgeOld(l, WithPort(b, p, prt), marks)
  {
    hide NodeOk, PortOld, FramesOld, TreeOld;
    var r := WithPort(b, p, prt);
    assert AllKeepBacking(b, r, l.root, b.trees[0].rootTimes.messageAge);
    BackingKept(l, b, r);
  }

  /** May the BPDU be heard from another region only? */
  predicate FromOutside(cfg: BridgeConfig, m: Bpdu) { m.version < PROTO_MSTP || m.configId != cfg.configId }

  lemma HeardPortIsOld(l: Level, cfg: BridgeConfig, prt: Port, m: Bpdu, size: nat)
    requires PortOk(cfg, prt) && PortOld(l, cfg, prt) && FrameOld(l, m) && FromOutside(cfg, m) && WellSized(m)
    ensures match ReceiveBpdu(prt, m, size) case None => true case Some(r) => PortShape(cfg, r) && PortOld(l, cfg, r)
  {
    hide NodeOk, AnnouncedMstis;
  }

  /** What happens between two ticks: a BPDU sent during this second arrives, or a link comes or goes. */
  predicate Ordinary(l: Level, cfg: BridgeConfig, e: Event) {
    match e
    case BpduArrives(_, m, _) => FrameOld(l, m) && FromOutside(cfg, m)
    case LinkUp(_, _, _, _) => true
    case LinkDown(_) => true
    case _ => false
  }

  lemma OrdinaryEventIsOld(l: Level, b: Bridge, marks: seq<nat>, e: Event)
    requires BridgeOk(b) && BridgeOld(l, b, marks) && Acceptable(b, e) && Ordinary(l, b.cfg, e)
    ensures BridgeOld(l, Apply(b, e), marks) && Apply(b, e).cfg == b.cfg
  {
    hide NodeOk, ReceiveBpdu, BridgeOld, InfoOld, FrameOld, FromOutside;
    var prt := b.ports[e.port];
    assert PortOld(l, b.cfg, prt) by { PortOfOld(l, b, marks, e.port); }
    match e
    case BpduArrives(p, m, size) =>
      HeardPortIsOld(l, b.cfg, prt, m, size);
      if ReceiveBpdu(prt, m, size).Some? {
        ReceiveIsOk(b.cfg, prt, m, size);
        ReceiveKeeps(prt, m, size);
        ReplacedPortIsOld(l, b, marks, p, ReceiveBpdu(prt, m, size).value);
      }
    case LinkUp(p, ext, costs, p2p) =>
      UpIsOk(b.cfg, prt, ext, costs, p2p);
      ReplacedPortIsOld(l, b, marks, p, PortUp(prt, ext, costs, p2p));
    case LinkDown(p) =>
      DownIsOk(b.cfg, prt);
      ReplacedPortIsOld(l, b, marks, p, PortDown(prt));
  }

  lemma PortOfOld(l: Level, b: Bridge, marks: seq<nat>, p: nat)
    requires BridgeOk(b) && BridgeOld(l, b, marks) && p < |b.ports|
    ensures PortOld(l, b.cfg, b.ports[p])
  {
    hide NodeOk;
  }

  lemma ReceiveKeeps(prt: Port, m: Bpdu, size: nat)
    requires 1 <= |prt.info| && WellSized(m) && ReceiveBpdu(prt, m, size).Some?
    ensures var r := ReceiveBpdu(prt, m, size).value; r.info == prt.info && r.sel == prt.sel && r.tx == prt.tx
  {
  }

  // ---- Raising the level ----------------------------------------------------------------------------

  function NextLevel(l: Level): Level { Level(l.root, l.level + 1, 3 * HELLO_TIME, l.maxAge) }

  /** In a settled bridge, information whose time has run out is gone. */
  lemma SettledInformationIsOlder(l: Level, cfg: BridgeConfig, prt: Port)
    requires PortOk(cfg, prt) && PortOld(l, cfg, prt) && (l.left == 0 || l.level < 0)
    requires SB.CistAtRest(prt) && PI.Next(prt, 0).None?
    ensures InfoOld(NextLevel(l), prt.info[0])
    ensures prt.info[0].infoIs == IoReceived ==> prt.info[0].portTimes.messageAge + 1 <= prt.info[0].portTimes.maxAge
  {
    assert NodeOk(prt, 0);
  }

  /** What a settled bridge gives for one port. */
  lemma SettledPort(l: Level, b: Bridge, marks: seq<nat>, p: nat)
    requires BridgeOk(b) && Settled(b) && BridgeOld(l, b, marks) && p < |b.ports|
    ensures PortOk(b.cfg, b.ports[p]) && PortOld(l, b.cfg, b.ports[p]) && Agrees(b.trees[0], b.ports[p])
    ensures SB.CistAtRest(b.ports[p]) && PI.Next(b.ports[p], 0).None?
    ensures !b.ports[p].rx.rcvdBpdu
  {
    var prt := b.ports[p];
    assert !PhaseDue(Inform, b.cfg, prt);
    assert PI.Next(prt, 0).None?;
    hide Settled, NodeOk, PI.Next, InfoOld, FrameOld, PhaseDue, SB.CistAtRest;
    SB.SettledShape(b, p);
    assert PortOld(l, b.cfg, prt);
  }

  lemma SettledPortIsOlder(l: Level, b: Bridge, marks: seq<nat>, p: nat)
    requires BridgeOk(b) && Settled(b) && BridgeOld(l, b, marks) && p < |b.ports| && (l.left == 0 || l.level < 0)
    requires TreeOld(NextLevel(l), b.trees[0])
    ensures PortOld(NextLevel(l), b.cfg, b.ports[p])
  {
    hide Settled, NodeOk, PI.Next, BridgeOld, InfoOld, FrameOld, FramesOld;
    SettledPort(l, b, marks, p);
    SettledInformationIsOlder(l, b.cfg, b.ports[p]);
  }

  lemma SettledTreeIsOlder(l: Level, b: Bridge, marks: seq<nat>)
    requires BridgeOk(b) && Settled(b) && BridgeOld(l, b, marks) && (l.left == 0 || l.level < 0)
    ensures TreeOld(NextLevel(l), b.trees[0]) && !Pending(b)
  {
    hide Settled, NodeOk, PI.Next, PortsOld, AllAgree;
    NothingIsPending(b);
    if b.trees[0].rootPriority.rootId == l.root {
      var p :| 0 <= p < |b.ports| && Backing(b.ports[p], l.root, b.trees[0].rootTimes.messageAge);
      SettledPort(l, b, marks, p);
      SettledInformationIsOlder(l, b.cfg, b.ports[p]);
    }
  }

  lemma NothingIsPending(b: Bridge)
    requires BridgeOk(b) && Settled(b)
    ensures !Pending(b)
  {
    ShapeOfOk(b);
    assert !RS.SelectionDue(b, 0);
    hide Settled, PortOk;
  }

  /** When the time of a level has run out in a settled bridge, everything about the root is one second older. */
  lemma SettledIsOlder(l: Level, b: Bridge, marks: seq<nat>)
    requires BridgeOk(b) && Settled(b) && BridgeOld(l, b, marks) && (l.left == 0 || l.level < 0)
    ensures BridgeOld(NextLevel(l), b, SentSoFar(b))
  {
    hide Settled, NodeOk, PortOld, TreeOld, Agrees, HasBacking;
    SettledTreeIsOlder(l, b, marks);
    forall p | 0 <= p < |b.ports|
      ensures PortOld(NextLevel(l), b.cfg, b.ports[p])
      ensures FramesOld(NextLevel(l), b.cfg, b.ports[p].tx.sent, |b.ports[p].tx.sent|)
    {
      SettledPortIsOlder(l, b, marks, p);
    }
  }

  /** Nothing in the bridge names the root. */
  predicate Forgotten(b: Bridge, root: BridgeId)
    requires BridgeOk(b)
  {
    && b.trees[0].rootPriority.rootId != root
    && (forall p :: 0 <= p < |b.ports| ==>
         && (b.ports[p].info[0].infoIs == IoReceived ==> b.ports[p].info[0].portPriority.rootId != root)
         && b.ports[p].sel[0].designatedPriority.rootId != root)
  }

  /** At the level of the Max Age nothing is left. */
  lemma OldestIsForgotten(l: Level, b: Bridge, marks: seq<nat>)
    requires BridgeOk(b) && Settled(b) && BridgeOld(l, b, marks) && l.level >= l.maxAge
    ensures Forgotten(b, l.root)
  {
    hide Settled, NodeOk, PI.Next, InfoOld, PortOld, PortsOld, AllAgree, Agrees;
    forall p | 0 <= p < |b.ports|
      ensures b.ports[p].info[0].infoIs == IoReceived ==> b.ports[p].info[0].portPriority.rootId != l.root
    {
      ReceivedIsForgotten(l, b, marks, p);
    }
    NothingIsPending(b);
    forall p | 0 <= p < |b.ports| ensures b.ports[p].sel[0].designatedPriority.rootId != l.root {
      SettledPort(l, b, marks, p);
      AtRestIsSelected(b.trees[0], b.ports[p]);
    }
  }

  lemma AtRestIsSelected(tree: Tree, prt: Port)
    requires 1 <= |prt.info| && |prt.info| == |prt.sel| == |prt.rv| && SB.CistAtRest(prt) && Agrees(tree, prt)
    ensures prt.sel[0].designatedPriority.rootId == tree.rootPriority.rootId
  {
  }

  lemma ReceivedIsForgotten(l: Level, b: Bridge, marks: seq<nat>, p: nat)
    requires BridgeOk(b) && Settled(b) && BridgeOld(l, b, marks) && l.level >= l.maxAge && p < |b.ports|
    ensures b.ports[p].info[0].infoIs == IoReceived ==> b.ports[p].info[0].portPriority.rootId != l.root
  {
    hide Settled, BridgeOld, PI.Next, FrameOld;
    SettledPort(l, b, marks, p);
    assert InfoOld(l, b.ports[p].info[0]);
    RestIsInformed(l, b.cfg, b.ports[p]);
  }

  // ---- The network ----------------------------------------------------------------------------------

  /** Bridges and cables; `marks` says what every port had sent before the current second. */
  datatype Net = Net(bridges: seq<Bridge>, marks: seq<seq<nat>>, cables: map<End, End>)

  /** Between two ticks a BPDU of this second reaches the other end of its cable, or a link comes or goes. */
  datatype Happening =
    | Arrives(from: End, frame: nat, limit: PassLimit)
    | LinkChanges(bridge: nat, event: Event, limit: PassLimit)

  /** One second: every bridge ticks and runs its machines, then things happen in any order. */
  datatype Second = Second(limits: seq<PassLimit>, happenings: seq<Happening>)

  predicate NetOk(n: Net) {
    |n.marks| == |n.bridges| && forall v :: 0 <= v < |n.bridges| ==> BridgeOk(n.bridges[v])
  }

  /** The BPDU at position `frame` of what this port sent in the current second. */
  function InFlight(n: Net, e: End, frame: nat): Option<(Bpdu, nat)>
    requires NetOk(n)
  {
    if e.bridge < |n.bridges| && e.port < |n.bridges[e.bridge].ports| && e.port < |n.marks[e.bridge]|
       && n.marks[e.bridge][e.port] <= frame < |n.bridges[e.bridge].ports[e.port].tx.sent|
    then Some(n.bridges[e.bridge].ports[e.port].tx.sent[frame]) else None
  }

  /** One bridge reacts to an event. */
  function React(n: Net, v: nat, s: Step): (r: Net)
    requires NetOk(n) && v < |n.bridges|
    ensures NetOk(r) && r == n.(bridges := n.bridges[v := Advance(n.bridges[v], s)])
  {
    hide BridgeOk, Advance;
    n.(bridges := n.bridges[v := Advance(n.bridges[v], s)])
  }

  function Happen(n: Net, h: Happening): (r: Net)
    requires NetOk(n)
    ensures NetOk(r)
  {
    hide BridgeOk, React;
    match h
    case Arrives(e, frame, limit) =>
      (match InFlight(n, e, frame)
       case None => n
       case Some(f) =>
         if e in n.cables && n.cables[e].bridge < |n.bridges|
         then React(n, n.cables[e].bridge, Step(BpduArrives(n.cables[e].port, f.0, f.1), limit)) else n)
    case LinkChanges(v, e, limit) =>
      if v < |n.bridges| && (e.LinkUp? || e.LinkDown?) then React(n, v, Step(e, limit)) else n
  }

  function HappenAll(n: Net, hs: seq<Happening>): (r: Net)
    requires NetOk(n)
    ensures NetOk(r)
    decreases |hs|
  {
    hide NetOk, Happen;
    if hs == [] then n else HappenAll(Happen(n, hs[0]), hs[1..])
  }

  /** The pass limit of bridge `v`. */
  function LimitOf(limits: seq<PassLimit>, v: nat): PassLimit { if v < |limits| then limits[v] else 1 }

  /** Every bridge ticks; what was sent before is out of the way. */
  function TickAll(n: Net, limits: seq<PassLimit>): (r: Net)
    requires NetOk(n)
    ensures NetOk(r) && |r.bridges| == |n.bridges| && r.cables == n.cables
    ensures forall v :: 0 <= v < |n.bridges| ==>
      r.bridges[v] == Advance(n.bridges[v], Step(OneSecond, LimitOf(limits, v))) &&
        r.marks[v] == SentSoFar(n.bridges[v])
  {
    hide BridgeOk, Advance, SentSoFar;
    Net(seq(|n.bridges|, v requires 0 <= v < |n.bridges| => Advance(n.bridges[v], Step(OneSecond, LimitOf(limits, v)))),
        seq(|n.bridges|, v requires 0 <= v < |n.bridges| => SentSoFar(n.bridges[v])), n.cables)
  }

  function Pass(n: Net, s: Second): (r: Net)
    requires NetOk(n)
    ensures NetOk(r)
  {
    HappenAll(TickAll(n, s.limits), s.happenings)
  }

  function PassAll(n: Net, seconds: seq<Second>): (r: Net)
    requires NetOk(n)
    ensures NetOk(r)
    decreases |seconds|
  {
    hide NetOk, Pass;
    if seconds == [] then n else PassAll(Pass(n, seconds[0]), seconds[1..])
  }

  predicate AllSettled(n: Net)
    requires NetOk(n)
  {
    forall v :: 0 <= v < |n.bridges| ==> Settled(n.bridges[v])
  }

  /** Every second leaves all bridges settled. */
  predicate SettlesEverySecond(n: Net, seconds: seq<Second>)
    requires NetOk(n)
    decreases |seconds|
  {
    AllSettled(n) && (seconds != [] ==> SettlesEverySecond(Pass(n, seconds[0]), seconds[1..]))
  }

  /** Cables join bridges of different regions only. */
  predicate RegionsDiffer(n: Net) {
    forall e :: e in n.cables && e.bridge < |n.bridges| && n.cables[e].bridge < |n.bridges| ==>
      n.bridges[e.bridge].cfg.version < PROTO_MSTP
      || n.bridges[e.bridge].cfg.configId != n.bridges[n.cables[e].bridge].cfg.configId
  }

  predicate NetOld(l: Level, n: Net)
    requires NetOk(n)
  {
    RegionsDiffer(n) && forall v :: 0 <= v < |n.bridges| ==> BridgeOld(l, n.bridges[v], n.marks[v])
  }

  // ---- A second -------------------------------------------------------------------------------------

  lemma AdvanceIsOld(l: Level, b: Bridge, marks: seq<nat>, s: Step)
    requires BridgeOk(b) && BridgeOld(l, b, marks) && Ordinary(l, b.cfg, s.event)
    ensures BridgeOld(l, Advance(b, s), marks) && Advance(b, s).cfg == b.cfg
  {
    hide BridgeOk, BridgeOld, Apply, RunMachines, Ordinary, Runs;
    if Acceptable(b, s.event) {
      OrdinaryEventIsOld(l, b, marks, s.event);
      MachinesAreOld(l, Apply(b, s.event), marks, s.limit);
    }
  }

  lemma AdvanceTicks(l: Level, b: Bridge, marks: seq<nat>, limit: PassLimit)
    requires BridgeOk(b) && BridgeOld(l, b, marks) && (l.left > 0 || l.level < 0)
    ensures BridgeOld(OneSecondLess(l), Advance(b, Step(OneSecond, limit)), SentSoFar(b))
    ensures Advance(b, Step(OneSecond, limit)).cfg == b.cfg
  {
    hide BridgeOk, BridgeOld, Tick, RunMachines, SentSoFar;
    TickIsOld(l, b, marks);
    MachinesAreOld(OneSecondLess(l), Tick(b), SentSoFar(b), limit);
  }

  lemma ReactIsOld(l: Level, n: Net, v: nat, s: Step)
    requires NetOk(n) && NetOld(l, n) && v < |n.bridges| && Ordinary(l, n.bridges[v].cfg, s.event)
    ensures NetOld(l, React(n, v, s))
  {
    hide BridgeOk, BridgeOld, Advance, Ordinary;
    AdvanceIsOld(l, n.bridges[v], n.marks[v], s);
    var r := React(n, v, s);
    assert forall w :: 0 <= w < |n.bridges| ==> r.bridges[w].cfg == n.bridges[w].cfg;
  }

  lemma ArrivalIsOrdinary(l: Level, n: Net, e: End, frame: nat)
    requires NetOk(n) && NetOld(l, n) && InFlight(n, e, frame).Some? && e in n.cables
    requires n.cables[e].bridge < |n.bridges|
    ensures var f := InFlight(n, e, frame).value;
      Ordinary(l, n.bridges[n.cables[e].bridge].cfg, BpduArrives(n.cables[e].port, f.0, f.1))
  {
    hide BridgeOk, PortOld, TreeOld, AllAgree, Backed, FrameOld;
    var b := n.bridges[e.bridge];
    assert BridgeOld(l, b, n.marks[e.bridge]);
    assert FramesOld(l, b.cfg, b.ports[e.port].tx.sent, n.marks[e.bridge][e.port]);
  }

  lemma HappenIsOld(l: Level, n: Net, h: Happening)
    requires NetOk(n) && NetOld(l, n)
    ensures NetOld(l, Happen(n, h))
  {
    hide BridgeOk, BridgeOld, React, InFlight, NetOld, FrameOld, FromOutside;
    match h
    case Arrives(e, frame, limit) =>
      if InFlight(n, e, frame).Some? && e in n.cables && n.cables[e].bridge < |n.bridges| {
        var f := InFlight(n, e, frame).value;
        ArrivalIsOrdinary(l, n, e, frame);
        ReactIsOld(l, n, n.cables[e].bridge, Step(BpduArrives(n.cables[e].port, f.0, f.1), limit));
      }
    case LinkChanges(v, e, limit) =>
      if v < |n.bridges| && (e.LinkUp? || e.LinkDown?) { ReactIsOld(l, n, v, Step(e, limit)); }
  }

  lemma {:induction false} HappenAllIsOld(l: Level, n: Net, hs: seq<Happening>)
    requires NetOk(n) && NetOld(l, n)
    ensures NetOld(l, HappenAll(n, hs))
    decreases |hs|
  {
    hide NetOk, NetOld, Happen;
    if hs != [] {
      HappenIsOld(l, n, hs[0]);
      HappenAllIsOld(l, Happen(n, hs[0]), hs[1..]);
    }
  }

  lemma TickAllIsOld(l: Level, n: Net, limits: seq<PassLimit>)
    requires NetOk(n) && NetOld(l, n) && (l.left > 0 || l.level < 0)
    ensures NetOld(OneSecondLess(l), TickAll(n, limits))
  {
    hide BridgeOk, BridgeOld, Advance, SentSoFar;
    var r := TickAll(n, limits);
    forall v | 0 <= v < |n.bridges|
      ensures BridgeOld(OneSecondLess(l), r.bridges[v], r.marks[v]) && r.bridges[v].cfg == n.bridges[v].cfg
    {
      AdvanceTicks(l, n.bridges[v], n.marks[v], LimitOf(limits, v));
    }
  }

  lemma SecondIsOld(l: Level, n: Net, s: Second)
    requires NetOk(n) && NetOld(l, n) && (l.left > 0 || l.level < 0)
    ensures NetOld(OneSecondLess(l), Pass(n, s))
  {
    hide NetOk, NetOld;
    TickAllIsOld(l, n, s.limits);
    HappenAllIsOld(OneSecondLess(l), TickAll(n, s.limits), s.happenings);
  }

  /** The same bridges, with nothing in flight. */
  function Quieted(n: Net): (r: Net)
    requires NetOk(n)
    ensures NetOk(r)
  {
    hide BridgeOk, SentSoFar;
    n.(marks := seq(|n.bridges|, v requires 0 <= v < |n.bridges| => SentSoFar(n.bridges[v])))
  }

  /** What is in flight when the clock ticks does not matter. */
  lemma QuietedPass(n: Net, s: Second)
    requires NetOk(n)
    ensures Pass(Quieted(n), s) == Pass(n, s)
  {
    hide BridgeOk, Advance, SentSoFar, HappenAll;
    assert TickAll(Quieted(n), s.limits) == TickAll(n, s.limits);
  }

  lemma RaiseLevel(l: Level, n: Net)
    requires NetOk(n) && NetOld(l, n) && AllSettled(n) && (l.left == 0 || l.level < 0)
    ensures NetOld(NextLevel(l), Quieted(n)) && AllSettled(Quieted(n))
  {
    hide BridgeOk, BridgeOld, SentSoFar, Settled;
    forall v | 0 <= v < |n.bridges| ensures BridgeOld(NextLevel(l), n.bridges[v], SentSoFar(n.bridges[v])) {
      SettledIsOlder(l, n.bridges[v], n.marks[v]);
    }
  }

  // ---- The theorem ----------------------------------------------------------------------------------

  predicate AllForgotten(n: Net, root: BridgeId)
    requires NetOk(n)
  {
    forall v :: 0 <= v < |n.bridges| ==> Forgotten(n.bridges[v], root)
  }

  /** Seconds until nothing can be left. */
  function Needed(l: Level): nat {
    if l.level >= l.maxAge then 0
    else if l.level < 0 then 3 * HELLO_TIME * (if l.maxAge < 0 then 0 else l.maxAge)
    else l.left + 3 * HELLO_TIME * (l.maxAge - l.level - 1)
  }

  lemma {:induction false} LevelsRise(l: Level, n: Net, seconds: seq<Second>)
    requires NetOk(n) && NetOld(l, n) && SettlesEverySecond(n, seconds) && l.level >= -1 && |seconds| >= Needed(l)
    ensures AllForgotten(PassAll(n, seconds), l.root)
    decreases |seconds|, if l.left == 0 || l.level < 0 then 1 else 0, if l.level < 0 then 1 else 0
  {
    hide NetOk, NetOld, AllSettled, Pass, AllForgotten;
    if seconds == [] && l.level >= l.maxAge {
      AllOldestForgotten(l, n);
    } else if l.left == 0 || l.level < 0 {
      RaiseLevel(l, n);
      if seconds == [] {
        LevelsRise(NextLevel(l), Quieted(n), seconds);
        QuietedForgotten(n, l.root);
      } else {
        QuietedPass(n, seconds[0]);
        LevelsRise(NextLevel(l), Quieted(n), seconds);
      }
    } else {
      SecondIsOld(l, n, seconds[0]);
      LevelsRise(OneSecondLess(l), Pass(n, seconds[0]), seconds[1..]);
    }
  }

  lemma AllOldestForgotten(l: Level, n: Net)
    requires NetOk(n) && NetOld(l, n) && AllSettled(n) && l.level >= l.maxAge
    ensures AllForgotten(n, l.root)
  {
    hide BridgeOk, BridgeOld, Settled, Forgotten;
    forall v | 0 <= v < |n.bridges| ensures Forgotten(n.bridges[v], l.root) {
      OldestIsForgotten(l, n.bridges[v], n.marks[v]);
    }
  }

  lemma QuietedForgotten(n: Net, root: BridgeId)
    requires NetOk(n) && AllForgotten(Quieted(n), root)
    ensures AllForgotten(n, root)
  {
    hide BridgeOk, Forgotten;
  }

  /** A bridge that has just begun knows nothing, so the theorem applies from there on. */
  lemma FreshBridgeIsOld(b: Bridge, root: BridgeId)
    requires Shape(b) && (forall p :: 0 <= p < |b.ports| ==> Blank(b.cfg, b.ports[p]) && !b.ports[p].rx.rcvdInternal)
    requires b.trees[0].bridgePriority.rootId != root
    ensures BridgeOld(Level(root, -1, 0, 255), Begin(b), SentSoFar(b))
  {
    var r, l := Begin(b), Level(root, -1, 0, 255);
    hide PortOk, PortOld, TreeOld;
    forall p | 0 <= p < |b.ports|
      ensures PortOld(l, b.cfg, r.ports[p]) && FramesOld(l, b.cfg, r.ports[p].tx.sent, SentSoFar(b)[p])
      ensures Agrees(r.trees[0], r.ports[p])
    {
      FreshPortIsOld(l, b.cfg, b.ports[p]);
    }
    assert TreeOld(l, r.trees[0]) by { FreshTreeIsOld(l, r.trees[0]); }
  }

  lemma FreshPortIsOld(l: Level, cfg: BridgeConfig, prt: Port)
    requires Blank(cfg, prt) && !prt.rx.rcvdInternal && l.level == -1 && l.maxAge == 255
    ensures var r := BeginPort(cfg, prt);
      PortShape(cfg, r) && PortOld(l, cfg, r) && !r.sel[0].selected && r.tx.sent == prt.tx.sent
  {
  }

  lemma FreshTreeIsOld(l: Level, tree: Tree)
    requires tree.bridgePriority.rootId != l.root && l.level == -1 && l.maxAge == 255
    ensures TreeOld(l, tree)
  {
  }

  /** Stale information dies.  Whatever names a root that no bridge claims, with a Max Age of at most `maxAge`, is
      gone from every port and every bridge after three Hello Times for each second of Max Age. */
  lemma StaleInformationDies(n: Net, seconds: seq<Second>, root: BridgeId, maxAge: nat)
    requires NetOk(n) && NetOld(Level(root, -1, 0, maxAge), n)
    requires SettlesEverySecond(n, seconds) && |seconds| >= 3 * HELLO_TIME * maxAge
    ensures AllForgotten(PassAll(n, seconds), root)
  {
    hide NetOk, NetOld, SettlesEverySecond, PassAll, AllForgotten;
    LevelsRise(Level(root, -1, 0, maxAge), n, seconds);
  }

  // ---- Where it applies -----------------------------------------------------------------------------

  /** Whatever is known about the root, nothing is assumed of its age. */
  function Anything(root: BridgeId): Level { Level(root, -1, 0, 255) }

  /** A tick, a BPDU of another region, or a link that comes or goes. */
  predicate Outer(cfg: BridgeConfig, e: Event) {
    e.OneSecond? || e.LinkUp? || e.LinkDown? || (e.BpduArrives? && FromOutside(cfg, e.bpdu))
  }

  lemma OuterIsOrdinary(root: BridgeId, cfg: BridgeConfig, e: Event)
    requires Outer(cfg, e) && !e.OneSecond?
    ensures Ordinary(Anything(root), cfg, e)
  {
  }

  /** Any history of ticks, BPDUs from outside and links that come and go leaves a bridge that has not claimed the
      root in the state the theorem starts from, holding whatever it has heard. */
  lemma {:induction false} HeardHistoryIsOld(b: Bridge, history: seq<Step>, root: BridgeId, marks: seq<nat>)
    requires BridgeOk(b) && BridgeOld(Anything(root), b, marks)
    requires forall i :: 0 <= i < |history| ==> Outer(b.cfg, history[i].event)
    ensures After(b, history).cfg == b.cfg
    ensures exists late :: BridgeOld(Anything(root), After(b, history), late)
    decreases |history|
  {
    hide BridgeOk, BridgeOld, Advance, Outer, SentSoFar;
    if history == [] {
      assert BridgeOld(Anything(root), After(b, history), marks);
    } else {
      var s := history[0];
      var e, r := s.event, Advance(b, s);
      assert Outer(b.cfg, history[0].event);
      if e.OneSecond? {
        AdvanceTicks(Anything(root), b, marks, s.limit);
        HeardHistoryIsOld(r, history[1..], root, SentSoFar(b));
      } else {
        OuterIsOrdinary(root, b.cfg, e);
        AdvanceIsOld(Anything(root), b, marks, s);
        HeardHistoryIsOld(r, history[1..], root, marks);
      }
    }
  }

  /** Any past from BEGIN on: a bridge that does not claim the root, and what it went through. */
  datatype Past = Past(first: Bridge, history: seq<Step>)

  predicate Lived(b: Bridge, past: Past, root: BridgeId) {
    && Shape(past.first)
    && (forall p :: 0 <= p < |past.first.ports| ==>
      Blank(past.first.cfg, past.first.ports[p]) && !past.first.ports[p].rx.rcvdInternal)
    && past.first.trees[0].bridgePriority.rootId != root
    && (forall i :: 0 <= i < |past.history| ==> Outer(past.first.cfg, past.history[i].event))
    && b == After(Begin(past.first), past.history)
  }

  lemma LivedIsOld(b: Bridge, past: Past, root: BridgeId)
    requires BridgeOk(b) && Lived(b, past, root)
    ensures BridgeOld(Anything(root), b, SentSoFar(b))
  {
    hide PortOk, Blank, Outer, BridgeOld, After, Begin;
    FreshBridgeIsOld(past.first, root);
    HeardHistoryIsOld(Begin(past.first), past.history, root, SentSoFar(past.first));
    var late :| BridgeOld(Anything(root), b, late);
    AllSentIsOld(Anything(root), b, late);
  }

  /** What is in flight may be forgotten. */
  lemma AllSentIsOld(l: Level, b: Bridge, marks: seq<nat>)
    requires BridgeOk(b) && BridgeOld(l, b, marks)
    ensures BridgeOld(l, b, SentSoFar(b))
  {
    hide NodeOk, PortOld, TreeOld, AllAgree, Backed, FrameOld, FrameFrom;
    forall p | 0 <= p < |b.ports|
      ensures PortOld(l, b.cfg, b.ports[p]) && FramesOld(l, b.cfg, b.ports[p].tx.sent, SentSoFar(b)[p])
    {
      assert PortOld(l, b.cfg, b.ports[p]);
    }
  }

  /** A network of bridges of different regions, each with any past of ticks, BPDUs and link changes in which it did not
      claim the root itself, forgets the root within three Hello Times for each second of the largest Max Age. */
  lemma AnyPastIsForgotten(n: Net, pasts: seq<Past>, seconds: seq<Second>, root: BridgeId)
    requires NetOk(n) && RegionsDiffer(n) && |pasts| == |n.bridges|
    requires forall v :: 0 <= v < |n.bridges| ==>
      Lived(n.bridges[v], pasts[v], root) && n.marks[v] == SentSoFar(n.bridges[v])
    requires SettlesEverySecond(n, seconds) && |seconds| >= 3 * HELLO_TIME * 255
    ensures AllForgotten(PassAll(n, seconds), root)
  {
    hide BridgeOk, Lived, SettlesEverySecond, PassAll, AllForgotten, BridgeOld, SentSoFar;
    forall v | 0 <= v < |n.bridges| ensures BridgeOld(Anything(root), n.bridges[v], n.marks[v]) {
      LivedIsOld(n.bridges[v], pasts[v], root);
    }
    StaleInformationDies(n, seconds, root, 255);
  }
}
