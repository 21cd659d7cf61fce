/**
 Two bridges joined by one cable, at rest: what the network theorems are about exists.
 */
module TwoBridges {
  import opened Types
  import opened PortInvariant
  import opened BridgeRun
  import opened SpanningTree
  import opened NetworkAtRest
  import PT = PortTransmit
  import RS = RoleSelection
  import RM = RoleMachine
  import TC = TopologyChange

  const LOW_ID: BridgeId := 0x8000_0000_0000_0001
  const HIGH_ID: BridgeId := 0x8000_0000_0000_0002
  const PORT_ID: PortId := 0x8001
  const COST: U32 := 20000

  /** What the root bridge offers on its port, and the other bridge on its own. */
  const ROOT_OFFER := Vector(LOW_ID, 0, LOW_ID, 0, LOW_ID, PORT_ID)
  const OTHER_OFFER := Vector(LOW_ID, COST, HIGH_ID, 0, HIGH_ID, PORT_ID)

  const ROOT_TIMES := Times(20, 15, 20, 0, 2)
  const OTHER_TIMES := Times(20, 15, 20, 1, 2)

  /** An enabled port with nothing to do. */
  function RestingPort(state: RoleState, role: Role, infoIs: InfoIs, des: Vector, times: Times): (r: Port)
    ensures WellSized(r.rx.bpdu)
  {
    Port(PortConfig(true, true, false, false, COST, false, false, false, false, false, false, false),
         [PtpConfig(PORT_ID, COST)],
         Rx(RxReceive, false, false, false, false, PT.BlankBpdu(), 0, 3),
         Migration(Sensing, 0, false, true),
         EdgeVars(NotEdge, false),
         Tx(TransmitIdle, 0, 2, false, false, false, []),
         PortFlags(false, false, false),
         Assurance(false, 6),
         [Info(InfoCurrent, infoIs, OtherInfo, false, false, if infoIs == IoReceived then 6
           else 0, 0, ROOT_OFFER, ROOT_TIMES, ROOT_OFFER, ROOT_TIMES)],
         [Selection(true, false, role, des, times)],
         [Handshake(false, false, true, false, false, false, true, false, false, false, false)],
         [RoleVars(state, role, true, true, 0, if role == RoleRoot then 15 else 0, 0)],
         [ForwardingVars(Forwarding, true, true, BrForwarding)],
         [Topology(TcActive, 0, false, false)])
  }

  const CONFIG := BridgeConfig(PROTO_RSTP, 20, 15, 20, 2, 6, 3, ConfigId(0, [], 0, []), [0])

  function RootBridge(): Bridge {
    Bridge(CONFIG, [Tree(0, LOW_ID, OwnVector(LOW_ID), ROOT_TIMES, OwnVector(LOW_ID), 0, ROOT_TIMES, RoleSelection)],
           [RestingPort(DesignatedPort, RoleDesignated, IoMine, ROOT_OFFER, ROOT_TIMES)])
  }

  function OtherBridge(): Bridge {
    Bridge(CONFIG,
        [Tree(0, HIGH_ID, OwnVector(HIGH_ID), ROOT_TIMES, ROOT_OFFER.(extCost := COST, rRootId := HIGH_ID), PORT_ID,
            OTHER_TIMES, RoleSelection)],
           [RestingPort(RootPort, RoleRoot, IoReceived, OTHER_OFFER, OTHER_TIMES)])
  }

  lemma PortsAreIdle(prt: Port)
    requires prt == RestingPort(DesignatedPort, RoleDesignated, IoMine, ROOT_OFFER, ROOT_TIMES)
          || prt == RestingPort(RootPort, RoleRoot, IoReceived, OTHER_OFFER, OTHER_TIMES)
    ensures PortOk(CONFIG, prt) && (forall k: Phase :: !PhaseDue(k, CONFIG, prt)) && TC.Next(prt, 0).None?
  {
    hide PT.BlankBpdu;
    assert NodeOk(prt, 0);
    assert PortOk(CONFIG, prt);
    forall k: Phase ensures !PhaseDue(k, CONFIG, prt) {
    }
  }

  lemma RootBridgeIsSettled()
    ensures BridgeOk(RootBridge()) && Settled(RootBridge())
  {
    var b := RootBridge();
    PortsAreIdle(b.ports[0]);
    hide PhaseDue, PortOk, PT.BlankBpdu, TC.Next;
    assert Shape(b) by { ShapeOfOk(b); }
    assert RM.Next(b, 0, 0).None?;
  }

  lemma OtherBridgeIsSettled()
    ensures BridgeOk(OtherBridge()) && Settled(OtherBridge())
  {
    var b := OtherBridge();
    PortsAreIdle(b.ports[0]);
    hide PhaseDue, PortOk, PT.BlankBpdu, TC.Next;
    assert Shape(b) by { ShapeOfOk(b); }
    assert RM.Next(b, 0, 0).None?;
  }

  lemma RootBridgeRests()
    ensures Resting(RootBridge())
  {
    var b := RootBridge();
    RootBridgeIsSettled();
    ShapeOfOk(b);
    hide Settled, PortOk, PT.BlankBpdu;
    assert RS.Choose(b.cfg, b.trees[0], 0, b.ports, 0) == RS.Best(b.trees[0].bridgePriority, 0, None);
    assert RS.NewTree(b.cfg, b.trees[0], 0, b.ports) == b.trees[0];
    assert RS.SelectPort(b.trees[0], 0, b.ports[0], false, false) == b.ports[0];
    assert RS.EnterSelection(b, 0).ports == b.ports;
  }

  lemma OtherBridgeRests()
    ensures Resting(OtherBridge())
  {
    var b := OtherBridge();
    OtherBridgeIsSettled();
    ShapeOfOk(b);
    hide Settled, PortOk, PT.BlankBpdu;
    assert RS.Choose(b.cfg, b.trees[0], 0, b.ports, 0) == RS.Best(b.trees[0].bridgePriority, 0, None);
    assert RS.NewTree(b.cfg, b.trees[0], 0, b.ports) == b.trees[0];
    assert RS.SelectPort(b.trees[0], 0, b.ports[0], true, false) == b.ports[0];
    assert RS.EnterSelection(b, 0).ports == b.ports;
  }

  function Example(): Network {
    Network([RootBridge(), OtherBridge()], map[End(0, 0) := End(1, 0), End(1, 0) := End(0, 0)])
  }

  /** The network is quiescent, so all theorems of NetworkAtRest apply to it. */
  lemma ExampleIsQuiescent()
    ensures Quiescent(Example())
  {
    RootBridgeRests();
    OtherBridgeRests();
    hide Resting;
    var n := Example();
    assert BridgesRest(n);
    MessageIsOffer(RootBridge(), 0);
    assert CableAt(n, End(0, 0)) && CableAt(n, End(1, 0));
    assert HoldsWhatItHears(n, End(0, 0)) && HoldsWhatItHears(n, End(1, 0));
    assert NotSuperior(n, End(0, 0)) && NotSuperior(n, End(1, 0));
  }
}
