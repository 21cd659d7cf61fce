/**
 The data of the spanning-tree engine (`mstp.h`).

 The structures of the engine become immutable records.  The fields of `per_tree_port_t` and
 `port_t` are grouped by the state machine that owns them, so that "this machine leaves that
 machine's variables alone" is a plain equality of one group.  Wherever the engine follows a list
 pointer, the model uses an index: `ports[p].info[t]` holds the Port Information variables of the
 node of port `p` in tree `t`, and tree 0 is the CIST.
 */
module Types {

  datatype Option<+T> = None | Some(value: T)

  // ---- Fixed-width integers -------------------------------------------------------------------------

  type U8 = x: int | 0 <= x < 0x100
  type U16 = x: int | 0 <= x < 0x1_0000
  type U32 = x: int | 0 <= x < 0x1_0000_0000

  const UINT32_MAX: U32 := 0xFFFF_FFFF
  const MAX_PATH_COST: U32 := 200_000_000
  const MAX_STANDARD_MSTIS := 64
  const MAX_IMPLEMENTATION_MSTIS := 63
  const MAX_MSTID := 4094

  /** A bridge identifier: 16 bits of priority and system-id extension, then the 48 bits of the MAC. */
  type BridgeId = x: int | 0 <= x < 0x1_0000_0000_0000_0000

  type Mac = x: int | 0 <= x < 0x1_0000_0000_0000

  /** A port identifier: 4 bits of priority, then the 12 bits of the port number. */
  type PortId = U16

  function MacOf(id: BridgeId): Mac { id % 0x1_0000_0000_0000 }

  // ---- Vectors and times ----------------------------------------------------------------------------

  datatype Vector = Vector(rootId: BridgeId, extCost: U32, rRootId: BridgeId, intCost: U32,
                           desBridge: BridgeId, desPort: PortId)

  datatype Times = Times(remainingHops: U8, forwardDelay: U8, maxAge: U8, messageAge: U8, helloTime: U8)

  // ---- BPDUs ----------------------------------------------------------------------------------------

  /** The message array of a `bpdu_t` always has room for 64 MSTI messages. */
  type MstiIndex = x: int | 0 <= x < MAX_STANDARD_MSTIS

  /** The two octets of a time in a BPDU: whole seconds and 1/256ths. */
  datatype WireTime = WireTime(seconds: U8, fraction: U8)

  datatype MstiMessage = MstiMessage(flags: bv8, rRootId: BridgeId, intCost: U32,
                                     bridgePriority: U8, portPriority: U8, remainingHops: U8)

  /** MST configuration identifier: selector, name, revision and digest, compared as one block. */
  datatype ConfigId = ConfigId(selector: U8, name: seq<U8>, revision: U16, digest: seq<U8>)

  datatype Bpdu = Bpdu(protocolId: U16, version: U8, bpduType: U8, flags: bv8,
                       rootId: BridgeId, extCost: U32, rRootId: BridgeId, portId: PortId,
                       messageAge: WireTime, maxAge: WireTime, helloTime: WireTime, forwardDelay: WireTime,
                       version1Len: U8, version3Len: U16, configId: ConfigId,
                       intCost: U32, bridgeId: BridgeId, remainingHops: U8,
                       mstis: seq<MstiMessage>)

  predicate WellSized(b: Bpdu) { |b.mstis| == MAX_STANDARD_MSTIS }

  const PROTO_STP: U8 := 0
  const PROTO_RSTP: U8 := 2
  const PROTO_MSTP: U8 := 3

  const BPDU_TYPE_CONFIG: U8 := 0
  const BPDU_TYPE_RST: U8 := 2
  const BPDU_TYPE_TCN: U8 := 128

  const FLAG_TC: bv8 := 0x01
  const FLAG_PROPOSAL: bv8 := 0x02
  const FLAG_LEARNING: bv8 := 0x10
  const FLAG_FORWARDING: bv8 := 0x20
  const FLAG_AGREEMENT: bv8 := 0x40
  const FLAG_TC_ACK: bv8 := 0x80  // in an MSTI message the same bit is the Master flag

  const ENCODED_MASTER: bv8 := 0
  const ENCODED_ALTERNATE_BACKUP: bv8 := 1
  const ENCODED_ROOT: bv8 := 2
  const ENCODED_DESIGNATED: bv8 := 3

  predicate HasFlag(flags: bv8, flag: bv8) { flags & flag != 0 }

  function EncodedRole(flags: bv8): bv8 { (flags >> 2) & 3 }

  // ---- Enumerations ---------------------------------------------------------------------------------

  datatype Role = RoleDisabled | RoleRoot | RoleDesignated | RoleAlternate | RoleBackup | RoleMaster

  datatype InfoIs = IoDisabled | IoMine | IoAged | IoReceived

  datatype RcvdInfo = OtherInfo | SuperiorDesignatedInfo | RepeatedDesignatedInfo
                    | InferiorDesignatedInfo | InferiorRootAlternateInfo

  datatype ReceiveState = RxDiscard | RxReceive
  datatype MigrationState = CheckingRstp | SelectingStp | Sensing
  datatype EdgeState = Edge | NotEdge
  datatype TransmitState = TransmitInit | TransmitConfig | TransmitTcn | TransmitRstp | TransmitPeriodic | TransmitIdle
  datatype InfoState = InfoDisabled | InfoAged | InfoUpdate | InfoSuperior | InfoRepeated | InfoInferior
                     | InfoNotDesignated | InfoOther | InfoCurrent | InfoReceive
  datatype SelectionState = InitTree | RoleSelection
  datatype RoleState =
    | InitPort | DisablePort | DisabledPort
    | MasterProposed | MasterAgreed | MasterSynced | MasterRetired
    | MasterForward | MasterLearn | MasterDiscard | MasterPort
    | RootProposed | RootAgreed | RootSynced | ReRoot | RootForward | RootLearn | ReRooted | RootPort
    | DesignatedPropose | DesignatedAgreed | DesignatedSynced | DesignatedRetired
    | DesignatedForward | DesignatedLearn | DesignatedDiscard | DesignatedPort
    | BlockPort | BackupPort | AlternateProposed | AlternateAgreed | AlternatePort
  datatype ForwardingState = Discarding | Learning | Forwarding
  datatype TopologyState = TcInactive | TcLearning | TcDetected | TcNotifiedTcn | TcNotifiedTc
                         | TcPropagating | TcAcknowledged | TcActive

  /** The port state handed to the kernel (`BR_STATE_*`). */
  datatype BrState = BrDisabled | BrBlocking | BrLearning | BrForwarding

  // ---- Per-tree ports -------------------------------------------------------------------------------
  //
  // A `per_tree_port_t` is spread over these groups: entry `t` of each belongs to tree `t`.

  /** Configuration. */
  datatype PtpConfig = PtpConfig(portId: PortId, intPathCost: U32)

  /** Port Information state machine; `rcvdMsti` is the index of the tree's message in the received BPDU. */
  datatype Info = Info(state: InfoState, infoIs: InfoIs, rcvdInfo: RcvdInfo, rcvdMsg: bool, updtInfo: bool,
                       rcvdInfoWhile: nat, rcvdMsti: MstiIndex, msgPriority: Vector, msgTimes: Times,
                       portPriority: Vector, portTimes: Times)

  /** What role selection computes for the port. */
  datatype Selection = Selection(selected: bool, reselect: bool, selectedRole: Role,
                                 designatedPriority: Vector, designatedTimes: Times)

  /** The flags of the proposal/agreement handshake, and those a received message sets. */
  datatype Handshake = Handshake(proposed: bool, proposing: bool, agree: bool, agreed: bool, disputed: bool,
                                 sync: bool, synced: bool, reRoot: bool, mastered: bool, master: bool, rcvdTc: bool)

  /** Port Role Transitions state machine. */
  datatype RoleVars = RoleVars(state: RoleState, role: Role, learn: bool, forward: bool,
                               fdWhile: nat, rrWhile: nat, rbWhile: nat)

  /** Port State Transition state machine. */
  datatype ForwardingVars = ForwardingVars(state: ForwardingState, learning: bool, forwarding: bool, brState: BrState)

  /** Topology Change state machine. */
  datatype Topology = Topology(state: TopologyState, tcWhile: nat, tcProp: bool, fdbFlush: bool)

  // ---- Ports ----------------------------------------------------------------------------------------

  /** What the outside world and the operator set; no state machine writes these. */
  datatype PortConfig = PortConfig(portEnabled: bool, operPointToPoint: bool, restrictedRole: bool, restrictedTcn: bool,
                                   extPathCost: U32, adminEdge: bool, autoEdge: bool, networkPort: bool,
                                   dontTxmt: bool, bpduFilter: bool, bpduGuard: bool, deleted: bool)

  datatype Rx = Rx(state: ReceiveState, rcvdBpdu: bool, rcvdRSTP: bool, rcvdSTP: bool, rcvdInternal: bool,
                   bpdu: Bpdu, numMstis: nat, edgeDelayWhile: nat)

  datatype Migration = Migration(state: MigrationState, mdelayWhile: nat, mcheck: bool, sendRSTP: bool)

  datatype EdgeVars = EdgeVars(state: EdgeState, operEdge: bool)

  /** `sent` records every BPDU handed to MSTP_OUT_tx_bpdu with its length. */
  datatype Tx = Tx(state: TransmitState, txCount: nat, helloWhen: nat, newInfo: bool, newInfoMsti: bool,
                   tcAck: bool, sent: seq<(Bpdu, nat)>)

  datatype PortFlags = PortFlags(infoInternal: bool, rcvdTcAck: bool, rcvdTcn: bool)

  datatype Assurance = Assurance(inconsistent: bool, rcvdInfoWhile: nat)

  datatype Port = Port(cfg: PortConfig, conf: seq<PtpConfig>, rx: Rx, mig: Migration, edge: EdgeVars, tx: Tx,
                       flags: PortFlags, ba: Assurance,
                       info: seq<Info>, sel: seq<Selection>, hs: seq<Handshake>, rv: seq<RoleVars>,
                       fw: seq<ForwardingVars>, tc: seq<Topology>)

  // ---- Trees and bridges ----------------------------------------------------------------------------

  datatype Tree = Tree(mstid: U16, bridgeId: BridgeId, bridgePriority: Vector, bridgeTimes: Times,
                       rootPriority: Vector, rootPortId: PortId, rootTimes: Times, state: SelectionState)

  datatype BridgeConfig = BridgeConfig(version: U8, maxHops: U8, forwardDelay: U8, maxAge: U8, helloTime: U8,
                                       holdCount: nat, migrateTime: nat, configId: ConfigId, mstids: seq<U16>)

  datatype Bridge = Bridge(cfg: BridgeConfig, trees: seq<Tree>, ports: seq<Port>)

  /** 17.20.11 of IEEE 802.1D. */
  predicate RstpVersion(cfg: BridgeConfig) { cfg.version >= PROTO_RSTP }

  /** Every port has one node per tree, and there is at least the CIST. */
  predicate PortShape(cfg: BridgeConfig, prt: Port) {
    && 1 <= |cfg.mstids| && cfg.mstids[0] == 0 && WellSized(prt.rx.bpdu)
    && |cfg.mstids| == |prt.conf| == |prt.info| == |prt.sel| == |prt.hs| == |prt.rv| == |prt.fw| == |prt.tc|
  }

  predicate PortsShape(cfg: BridgeConfig, ports: seq<Port>) {
    forall p :: 0 <= p < |ports| ==> PortShape(cfg, ports[p])
  }

  predicate TreesShape(cfg: BridgeConfig, trees: seq<Tree>) {
    && |trees| == |cfg.mstids| && 1 <= |trees|
    && (forall t :: 0 <= t < |trees| ==> trees[t].mstid == cfg.mstids[t] && (trees[t].mstid == 0 <==> t == 0))
  }

  predicate Shape(b: Bridge) { TreesShape(b.cfg, b.trees) && PortsShape(b.cfg, b.ports) }
}
