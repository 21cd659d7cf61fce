# A verified model of the spanning-tree engine

The engine is a set of interacting state machines for each bridge: Port Receive, Protocol Migration, Bridge
Detection, Port Transmit, Port Information, Role Selection, Role Transitions, Port State Transition and Topology
Change (clauses 13.27 to 13.36 of IEEE 802.1Q-2005).  Ticks, BPDUs and configuration changes disturb them, and passes
over all of them repeat until a dry run finds nothing left to do.  This project models them transition by transition
and proves what they achieve: for one call, for one bridge over whole histories, and for networks of bridges.

`dafny verify dfyconfig.toml` checks everything.

## How it is built

- **Values.** `Types` holds the data of the engine as immutable records.  The fields of a per-tree port are grouped
  by the machine that owns them, so that what a machine leaves alone is an equality.  `Priority`, `PortInformation`,
  `RoleSelection`, `RoleTransitions`, `RoleMachine`, `PortMachines`, `PortTransmit` and `TopologyChange` give for
  every machine its guards (`Next`), its actions (`Enter`) and its recursion (`Run`), with a measure that every
  transition lowers.
- **One bridge.** `PortInvariant` and `BridgeRun` show what every machine keeps and put the machines together to a
  pass; `Settled` is the dry run answering false.  `Events` adds ticks, BPDUs and configuration changes, and whole
  histories of them.  `SettledBridge`, `Passes`, `DisabledPorts`, `Freshness`, `Unnoticed`, `InsideRegion` and
  `WaitingBpdus` prove what holds over all histories; `RoleCalls` says which calls of the role machine return.
- **In place.** `BridgeMachine` is the engine as an object whose ports and trees are updated in place by methods with
  the loops, recursion and early exits of the C code; each method is proved against the functions above.
- **Networks.** `SpanningTree` proves what agreement of neighbours means for a graph, `NetworkAtRest` that a quiescent
  network of bridges has it; `TwoBridges` is such a network.  `StaleInformation`, `StaleBridge` and `StaleNetwork`
  follow information about a root that is gone through ticks, passes and deliveries until nothing is left of it.
- **Around it.** `BpduRoundTrip` (what is sent is what is understood), `Md5` (streaming MD5 and HMAC), `ConfigTables`
  (tables and cached digest), `LinkedLists` and `Mesh` (ports, trees and their lists), `CableTable` (virtual cables of
  the browser build), `IntervalTables` (printing and parsing of tables).

## Where the code does not do what one would expect

- **A role machine that never returns.** The Master branch lets a port learn and forward on `allSynced` while the
  condition for discarding still holds.  `RoleTransitions.TerminatesExactly` gives the exact states from which a call
  does not return, all of them with the Master role; `RoleCalls.CallReturnsExactly` says so of the nodes of a bridge,
  `RoleCalls.MasterDivergesSomewhere` is a bridge with such a node, and on the CIST every call returns
  (`RoleCalls.CistIsTame`).
- **The Repeated case is dead.** A hello with the port's own vector comes from the same bridge address and port
  number and is classified as Superior (`PortInformation.RepeatedIsNeverClassified`).
- **A disabled port may go on forwarding.** Disabling a port forgets what was received but not a pending update, and
  the role machine waits for the update.  On every tree, a settled disabled port forwards if and only if it was asked
  to forward with an update pending when it went down (`DisabledPorts.DisabledPortForwards`).  That takes a pass cut
  short by the one-second limit: `DisabledPorts.DisabledPortForwardsSomewhere` is a history that leads there, and
  without one it cannot happen (`DisabledPorts.SettledIsPatient`, `DisabledPorts.QuietHistoryShape`).
- **Role selection may be out of date.** After any history of careful events and passes, a settled bridge has on the
  CIST the roles that role selection would choose, inside a region too (`Freshness.SettledIsCurrent`).  What is not
  careful changes what role selection reads and asks for nothing; for each kind there is a theorem that says exactly
  when the roles are still right.  For single events these are a path cost computed from a new link speed on an enabled
  port (`Unnoticed.CostChangeExactly`, `RestingCostChange`), a role restriction (`RestrictionExactly`,
  `RestingRestriction`), and the identifier and times of a bridge without ports (`PortlessIdentifierExactly`,
  `PortlessTimesExactly`).  A new port identifier on a disabled port is not noticed either, but concerns only the
  vector that port would send (`DisabledIdentifierExactly`).  For passes there are two kinds.  A BPDU that says nothing
  new may make a port internal or external, and so change how its root path is computed (`InsideRegion.HeardExactly`;
  `WaitingBpdus.OwnRegionGoesUnnoticed` is one that does).  A port that begins or ceases to send STP BPDUs names another
  regional root in its designated vector, unless the bridge is the regional root itself (`HeardExactly` for a BPDU,
  `CheckExactly` for a migration check; `CheckGoesUnnoticed` is a check that does).  A bridge that hears other regions
  only need not care about its passes (`Freshness.OuterIsCareful`).
- **A change that looks like a proposal.** A topology change announced from another region sets `proposed`, not
  `rcvdTc`, on the MSTIs (`PortInformation.ExternalChangeIsTakenForProposal`).
- **A BPDU may stay unread.** A settled bridge leaves an arriving BPDU unread if and only if a message waits for an
  MSTI of the port whose information has aged (`WaitingBpdus.LeftUnreadExactly`): at a region boundary such a node has
  nothing to update when it holds the bridge's own vector, and then takes no message
  (`WaitingBpdus.BpduStaysUnreadSomewhere` is a history).  A bridge without MSTIs, and one that hears other regions
  only, reads every BPDU (`WaitingBpdus.SingleTreeReadsAll`, `WaitingBpdus.OutsideReadsAll`).
- **Frames outlive their port.** Deleting a port of the browser build leaves frames to it in the queue
  (`CableTable.Cables.PortDelete`), and the next port may get the same handle.  `CableTable.Cables.PortCreate` says
  exactly when that matters, and `CableTable.FramesOutliveTheirPort` is a run in which it does.

## Hypotheses of the network theorems

`NetworkAtRest.Quiescent` asks that every bridge has settled with role selection up to date (for one bridge:
`Freshness.SettledHistoryRests`), that bridge identifiers differ, that a port with received information holds what the
designated port at the other end sends, and that no other message would be taken for Superior.  `NetworkAtRest.Plain`
asks for positive path costs, different port identifiers, no restricted roles, information from other regions only and
costs that do not saturate.  A link may join two ports of one bridge.

`StaleNetwork.StaleInformationDies` starts from bridges with any past of ticks, BPDUs of other regions and link
changes (`StaleNetwork.LivedIsOld`).  It asks that cables join different regions, that every second ends with all bridges
settled, and that BPDUs do not outlive the second they were sent in.  They may be lost, duplicated and reordered within
it, and links may come and go.

## Model

| member | source | states |
|---|---|---|
| Priority.ComparisonIsLexicographic | mstp.c:1705-1753 | the nested comparison of two vectors is the lexicographic order of their components |
| Priority.ComparisonIsTotalPreorder | mstp.c:1705-1753 | the comparison is reflexive, total and transitive, and vectors better than each other have the same components |
| Priority.ByteOrderIsNumericOrder | mstp.h:28-40 | comparing big-endian fields byte by byte, as `cmp` does, is comparing the numbers |
| PortInformation.RepeatedIsNeverClassified | mstp.c:1959-1994 | the Repeated case of `rcvInfo` is never reached; a message with the port's own vector is Superior |
| PortInformation.ExternalMessageSpeaksForAll | mstp.c:2008-2142 | at a region boundary proposals, agreements and disputes are recorded alike for the CIST and all MSTIs |
| PortInformation.InternalMessageSpeaksForItsTree | mstp.c:2008-2142 | inside a region a message only touches the flags of its own tree |
| PortInformation.ExternalChangeIsTakenForProposal | mstp.c:2285-2308 | a topology change from another region sets `proposed`, not `rcvdTc`, on the MSTIs |
| PortInformation.EnterTouchesFlags | mstp.c:3343-3490 | which flags a transition may touch beyond its own node: those of other trees only for a CIST message from outside the region or a TCN, rcvdTcn only for a TCN, rcvdTcAck only on the CIST |
| PortInformation.TransitionDecreases | mstp.c:3343-3620 | every transition of the Port Information machine, from any state whatever, lowers one measure |
| PortInformation.Run | mstp.c:3492-3620 | one call of `PISM_run` returns, with no guard left that holds |
| RoleSelection.ChosenIsAttained | mstp.c:2611-2666 | the chosen root vector is the bridge's own or the root path of the port it names |
| RoleSelection.ChosenIsLeast | mstp.c:2611-2666 | no candidate root path, nor the bridge's own vector, is better than the chosen one |
| RoleSelection.ChosenExactly | mstp.c:2611-2666 | the first loop of `updtRolesTree` finds a vector, port identifier and port if and only if they are attained, at least as good as all candidates and better than all later ones |
| RoleSelection.SelectionIsIdempotent | mstp.c:2602-2858 | running role selection a second time changes nothing in the whole bridge |
| RoleSelection.SelectionKeepsCandidates | mstp.c:2602-2858 | what role selection reads of the candidates it does not write |
| RoleSelection.RootIsUnique | mstp.c:2811-2820 | at most one port of a tree is selected as Root: the one whose root path was chosen |
| RoleSelection.CurrentExactly | mstp.c:2700-2740 | where selecting again changes nothing that matters, it changes nothing at all if and only if no disabled port has a new identifier |
| RoleTransitions.TransitionIsSafe | mstp.c:3692-4132 | every transition keeps forward within learn, quiet roles quiet and the state in the family of the role |
| RoleTransitions.TransitionDecreases | mstp.c:4134-4590 | every transition from a tame state leads to a tame state and lowers one measure |
| RoleTransitions.RunTerminates | mstp.c:4134-4590 | from a tame state one call returns, with no guard left, within the measure |
| RoleTransitions.RunDiverges | mstp.c:4305-4350 | from a state of the diverging Master family a call never returns |
| RoleTransitions.TerminatesExactly | mstp.c:4134-4590 | a call on a safe node returns if and only if the node is not of that family |
| RoleTransitions.DesignatedNeedsAgreement | mstp.c:4428-4510 | a Designated port that is no edge port cannot be brought to forwarding by one call without an agreement |
| RoleTransitions.RootNeedsRetirement | mstp.c:4351-4427 | a Root port cannot be brought to forwarding by one call while another port was Root not long ago |
| RoleTransitions.AgreementNeedsSync | mstp.c:4351-4427 | a Root port agrees only when all other ports of the tree are synchronised |
| RoleMachine.EnvIsStable | mstp.c:4134-4163 | a transition changes nothing the machine reads of the port or of the other ports, so computing it once per outer call is right |
| RoleMachine.RunIsIterate | mstp.c:4134-4590 | inside the bridge one call runs the machine of the node |
| RoleMachine.RunSettles | mstp.c:4134-4590 | for a tame node the bounded call leaves no guard that holds |
| RoleMachine.RunFrame | mstp.c:2246-2283 | of other ports a call only raises `sync` and `reRoot` in its tree |
| RoleMachine.RunIsSafe | mstp.c:3692-4590 | a call keeps the node safe |
| RoleCalls.CistIsTame | mstp.c:4134-4590 | in a bridge that keeps its invariant every CIST node is tame, so every call on the CIST returns |
| RoleCalls.CallReturnsExactly | mstp.c:4134-4590 | the call a pass makes on any node of such a bridge ends with no guard left if and only if the node is not of the diverging family |
| RoleCalls.MasterDivergesSomewhere | mstp.c:4305-4350 | a whole bridge that keeps its invariant, with an MSTI node on which a call never returns |
| PortMachines.FindMsti | mstp.c:2218-2240 | the first message whose regional root carries the MSTID, and none when there is no such message |
| PortMachines.SetRcvdMsgs | mstp.c:2193-2243 | the CIST always gets rcvdMsg, an MSTI exactly if it had it or an internal BPDU has a message with its MSTID, and then the index is that of such a message |
| PortMachines.EnterReceive | mstp.c:2921-2934 | the BPDU is taken, some tree has its message, operEdge is cleared, rcvdRSTP or rcvdSTP follows the version and rcvdInternal tells the region |
| PortMachines.RunMigration | mstp.c:2980-3066 | with a positive Migrate Time no guard is left; only the migration variables, rcvdRSTP and rcvdSTP change |
| PortMachines.MigrationFollowsNeighbour | mstp.c:3045-3062 | past the migration delay a port sends STP exactly if its neighbour was last heard to |
| PortMachines.RunForwarding | mstp.c:4597-4685 | the state machine of the port state returns with no guard left |
| PortMachines.ForwardingFollowsRole | mstp.c:4597-4685 | afterwards the port learns and forwards exactly as the role machine asked |
| PortTransmit.TransitionDecreases | mstp.c:3142-3330 | with a positive Hello Time every transition of the transmit machine lowers one measure |
| PortTransmit.Run | mstp.c:3142-3330 | one call of `PTSM_run` returns with no guard left, changing transmit variables only |
| PortTransmit.InitIsIdle | mstp.c:3144-3160 | on a disabled port entering TRANSMIT_INIT is the identity exactly if the dry run answers false, and leaves it so |
| PortTransmit.IdleRun | mstp.c:3237-3330 | when the dry run of the machine answers false, its actual run is the identity |
| TopologyChange.TransitionDecreases | mstp.c:4691-4903 | every transition of the Topology Change machine, from any state, consumes a pending flag or moves towards rest |
| TopologyChange.Run | mstp.c:4806-4903 | one call of `TCSM_run` returns with no guard left |
| TopologyChange.NothingPendingAtRest | mstp.c:4806-4903 | at rest a machine that is not inactive has consumed every flag, and is active only on an active port |
| TopologyChange.RunFrame | mstp.c:4691-4903 | of other ports a call only raises `tcProp` in its tree |
| TopologyChange.PropagationRunsTimer | mstp.c:4777-4787 | a change noticed elsewhere leaves the timer of an active port running and is sent on |
| TopologyChange.DetectionReachesOthers | mstp.c:4735-4749 | a detected change reaches every other port of the tree |
| TopologyChange.FlushDoesNotReenter | mstp.c:2162-2190 | however often the driver reports a flush from within the request, the state machines are not started again, and no flush stays pending |
| PortInvariant.InfoTransitionOk | mstp.c:3343-3620 | the state of Port Information tells the origin of the information, and role, updtInfo and origin of a CIST node fit together |
| PortInvariant.InformationKeepsPort | mstp.c:3492-3620 | Port Information keeps the port invariant |
| PortInvariant.ReceiveKeepsPort | mstp.c:2936-2976 | so does Port Receive |
| PortInvariant.TransmitCount | mstp.c:3237-3330 | txCount never exceeds Transmit_Hold_Count |
| PortInvariant.ForwardingKeepsPort | mstp.c:4597-4685 | Port State Transition keeps the invariant and makes the port state follow the role |
| PortInvariant.SelectionKeepsPort | mstp.c:2602-2858 | role selection keeps the invariant, establishing how role and information go together |
| PortInvariant.RolesKeepPort | mstp.c:3692-4590 | so does a call of the role machine, on its own port and on the others |
| PortInvariant.TopologyKeepsPort | mstp.c:4691-4903 | so does a call of the Topology Change machine |
| BridgeRun.RunPorts | mstp.c:5051-5097 | one step of a pass on every port; the bridge invariant is kept |
| BridgeRun.RunSelections | mstp.c:5099-5104 | role selection on the trees in order; the invariant is kept |
| BridgeRun.RunOnce | mstp.c:5045-5136 | a whole pass; the invariant is kept |
| BridgeRun.RunMachines | mstp.c:5141-5168 | passes until the dry run answers false or time runs out; the invariant is kept |
| SettledBridge.SettledIsFixedPoint | mstp.c:5041-5155 | the dry-run contract: when the dry run answers false, the actual run is the identity |
| SettledBridge.EarlyExitIsFixedPoint | mstp.c:5141-5168 | leaving the loop through the dry run means leaving it at a fixed point, whatever the time limit |
| SettledBridge.SettledPortStates | mstp.c:4648-4685 | in a settled bridge learning and forwarding equal learn and forward; Alternate, Backup and Disabled ports discard |
| SettledBridge.SettledShape | mstp.c:5045-5136 | in a settled bridge every CIST port is selected with nothing pending and its role decides the origin of its information; for a pending BPDU see module WaitingBpdus |
| WaitingBpdus.SettledMessageWaits | mstp.c:3492-3520 | in a settled bridge a port has a message pending if and only if it waits for an MSTI whose information has aged |
| WaitingBpdus.LeftUnreadExactly | mstp.c:2936-2976 | a BPDU that arrives at a settled bridge is still unread after any number of passes if and only if such a message waits and Port Receive is in RECEIVE |
| WaitingBpdus.PendingBpduExactly | mstp.c:2936-2976 | every BPDU pending in a settled bridge was left unread so |
| WaitingBpdus.SingleTreeReadsAll | mstp.c:2936-2976 | a settled bridge without MSTIs has no BPDU pending |
| WaitingBpdus.OutsideReadsAll | mstp.c:2936-2976 | nor has one that hears other regions only, after any history of such BPDUs and careful events, with passes cut short or not |
| WaitingBpdus.BpduStaysUnreadSomewhere | mstp.c:2748-2775 | a history from rest - a second, two BPDUs of the own region - after which a settled bridge has a BPDU pending |
| DisabledPorts.DisabledPortForwards | mstp.c:3343-3361 | once the machines have settled, a disabled port forwards on a tree if and only if, before they ran, it had an update pending there and was asked to forward |
| DisabledPorts.DisabledPortForwardsSomewhere | mstp.c:5141-5168 | a history from rest - a new identifier, a second with time for one pass, a link failure - after which a settled disabled port forwards |
| DisabledPorts.PassKeepsPending | mstp.c:2735-2740 | a pass neither raises nor clears updtInfo on any tree of a disabled port, and leaves the port without information |
| DisabledPorts.SettledDisabledPort | mstp.c:3343-3361 | on every tree a settled disabled port forwards if and only if it has an update pending and is asked to; with nothing pending it is Disabled and does not learn |
| DisabledPorts.SettledNode | mstp.c:3343-3361 | a settled node has its selected role unless an update is pending, and an update is pending on a disabled port only |
| DisabledPorts.PassKeepsRole | mstp.c:2735-2740 | a pass keeps role, learn and forward of a disabled port on every tree with something pending |
| DisabledPorts.SettledIsPatient | mstp.c:5141-5168 | in a settled bridge any link may go down: nothing is pending on an enabled port |
| DisabledPorts.HistoriesStayQuiet | mstp.c:5141-5168 | over every history in which links go down only while nothing is pending on their ports, nothing is ever pending on any tree of a disabled port |
| DisabledPorts.QuietHistoryShape | mstp.c:5141-5168 | the shape of every node of every settled state such a history leads to, disabled ports included |
| SpanningTree.NothingBetterAlong | mstp.c:2611-2666 | along any path, what a bridge believes is at least as good as what the far end offers |
| SpanningTree.RootPathOf | mstp.c:2655-2666 | following root ports leads to the root at exactly the cost the bridge holds |
| SpanningTree.RootAgreement | mstp.c:2602-2858 | bridges at rest that are connected agree on the smallest identifier |
| SpanningTree.LeastCost | mstp.c:2602-2858 | the cost held is the least over all paths, and attained |
| SpanningTree.ActiveLinksSpan | mstp.c:2735-2857 | active links connect whatever is connected |
| SpanningTree.ActiveLinksAreAcyclic | mstp.c:2735-2857 | no closed walk of active links uses each link once |
| NetworkAtRest.RestingRoot | mstp.c:2611-2666 | the root of a resting bridge is its own identifier or comes from its root port, with the port cost added |
| NetworkAtRest.RestingPort | mstp.c:2735-2857 | role, origin and vector of every enabled port of a resting bridge |
| NetworkAtRest.MessageIsOffer | mstp.c:2349-2505 | all BPDU formats carry the designated vector, and a receiver reads it back |
| NetworkAtRest.OneDesignatedEnd | mstp.c:1959-1990 | a link of a quiescent network has exactly one designated end |
| NetworkAtRest.LinkIsStable | mstp.c:2602-2858 | no neighbour offers a bridge anything better than what it has |
| NetworkAtRest.QuiescentLabelling | mstp.c:2602-2858 | a quiescent network satisfies the hypotheses of the tree theorems |
| NetworkAtRest.NetworkRoot | mstp.c:2611-2666 | root agreement: connected bridges name the same root, the smallest identifier among them |
| NetworkAtRest.NetworkCost | mstp.c:2611-2666 | least cost: ExtRootPathCost is the minimum over all paths to the root |
| NetworkAtRest.ActiveLinksConnect | mstp.c:2735-2857 | links without an Alternate, Backup or Disabled end connect each component |
| NetworkAtRest.ActiveLinksDoNotLoop | mstp.c:2735-2857 | and they contain no cycle |
| NetworkAtRest.NoForwardingLoop | mstp.c:4597-4685 | no closed walk over links that forward at both ends: frames cannot loop |
| TwoBridges.ExampleIsQuiescent | mstp.c:2602-2858 | two bridges and a cable at rest, field by field: the hypotheses of the network theorems can be met |
| Events.BeginIsOk | mstp.c:4983-5035 | BEGIN establishes the port invariant |
| Events.Begin | mstp.c:4983-5035 | and with it the bridge invariant |
| Events.TickIsOk | mstp.c:2862-2893 | a tick keeps the port invariant |
| Events.Tick | mstp.c:517-546 | one second on every port; the bridge invariant is kept |
| Events.AnnouncedMstis | mstp.c:627-660 | no more than 64 MSTI messages are ever announced |
| Events.Validate | mstp.c:598-672 | validation changes nothing of a BPDU but the version it is treated as |
| Events.ReceiveIsOk | mstp.c:564-696 | taking a BPDU keeps the port invariant |
| Events.ComputePathCost | mstp.c:91-98 | every path cost computed from a speed is between 1 and 200000000 |
| Events.Apply | mstp.c:386-1291 | every event keeps the bridge invariant, leaves ports and trees in number and changes no other bridge setting than times, hold count, version and region identifier |
| Events.After | mstp.c:386-1291 | so does every history of events, with or without passes cut short |
| Events.HelloTimeNeverMoves | mstp.c:2145-2159 | from BEGIN on, over every history whatever, the Hello Time of every port is 2 |
| Passes.LateMachinesFrame | mstp.c:5106-5133 | the machines after role selection change no information, no selection and nothing sent |
| Passes.SelectionsFrames | mstp.c:2602-2858 | role selection only writes selections, updtInfo and handshake flags |
| Passes.TransmitRemembers | mstp.c:3162-3196 | every BPDU handed over is counted |
| Passes.TransmissionIsBounded | mstp.c:3237-3330 | over any history with k ticks and no reset a port sends at most Transmit_Hold_Count + k BPDUs, less what was already counted |
| StaleInformation.RecordedMessageIsOld | mstp.c:1837-1956 | what is recorded of a BPDU is as old as the BPDU says |
| StaleInformation.InformationRunIsOld | mstp.c:3492-3620 | Port Information keeps information about an unclaimed root at its level |
| StaleInformation.BuiltFramesAreOld | mstp.c:2349-2521 | whatever is sent about the root is one second older than what was received |
| StaleInformation.PhaseIsOld | mstp.c:5051-5097 | every step on a port keeps information old |
| StaleInformation.PhaseKeepsBacking | mstp.c:3362-3421 | a step that disturbs the root port asks for role selection |
| StaleInformation.InformationInforms | mstp.c:2533-2571 | information that is still there after Port Information has run is within its Max Age |
| StaleBridge.NewTreeIsOld | mstp.c:2680-2692 | a root chosen from received information is one second older than that information |
| StaleBridge.PassIsOld | mstp.c:5045-5136 | a whole pass keeps information about the root old |
| StaleBridge.MachinesAreOld | mstp.c:5141-5168 | so do any number of passes |
| StaleNetwork.TickIsOld | mstp.c:2890-2891 | a tick uses up a second of the youngest information |
| StaleNetwork.OrdinaryEventIsOld | mstp.c:564-696 | a BPDU of the current second, or a link that comes or goes, makes nothing younger |
| StaleNetwork.SettledIsOlder | mstp.c:3572-3578 | when the time of a level has run out in a settled bridge, everything about the root is one level older |
| StaleNetwork.OldestIsForgotten | mstp.c:2533-2571 | at the level of the Max Age nothing about the root is left |
| StaleNetwork.SecondIsOld | mstp.c:517-546 | one second of a whole network, with losses, duplicates and any order of arrival |
| StaleNetwork.LevelsRise | mstp.c:2533-2571 | level by level, six seconds each |
| StaleNetwork.StaleInformationDies | mstp.c:2533-2571 | information naming a root no bridge claims is gone everywhere after 3 x Hello_Time x Max_Age seconds, on any topology |
| StaleNetwork.LivedIsOld | mstp.c:4983-5035 | a bridge with any past of ticks, outside BPDUs and link changes from BEGIN on, holding whatever it has heard, is in the state the theorem starts from |
| StaleNetwork.AnyPastIsForgotten | mstp.c:2533-2571 | so a network of bridges with any such pasts forgets a root none of them claimed within 3 x Hello_Time x 255 seconds |
| Freshness.UnchosenDoNotMatter | mstp.c:2611-2666 | dropping candidates that were not chosen does not change the choice |
| Freshness.SelectionIsUpToDate | mstp.c:3640-3650 | right after role selection it is up to date |
| Freshness.MovedIsUpToDate | mstp.c:3374-3395 | a designated port taking over its own vector leaves role selection up to date |
| Freshness.PassIsFresh | mstp.c:5045-5136 | on the CIST, inside a region too, a pass that changes what role selection reads asks for it, unless a BPDU changes rcvdInternal of a port with received information, or sendRSTP changes under a foreign regional root |
| Freshness.EventIsFresh | mstp.c:386-1291 | so does every event but the path costs, restrictions and portless changes of module Unnoticed |
| Freshness.BeginIsFresh | mstp.c:4983-5035 | BEGIN establishes what the theorems about histories start from |
| Freshness.UpToDateIsFixedPoint | mstp.c:2602-2858 | in a settled bridge that is up to date, selecting roles again changes nothing but the identifier of disabled ports |
| Freshness.SettledIsCurrent | mstp.c:5141-5168 | after any careful history, inside a region too, once settled, selecting roles again would change nothing but the identifier of disabled ports |
| Freshness.OuterIsCareful | mstp.c:5045-5136 | a bridge that hears other regions only need not care about its passes: they are all careful |
| Freshness.SettledHistoryRests | mstp.c:5141-5168 | such a bridge is what the network theorems ask for |
| Unnoticed.CurrentExactly | mstp.c:2611-2723 | a settled bridge settles again, changed on one port only: the roles are right if and only if the port is still the root port with the same path, or still not better than it, and sends the same kind of BPDUs or the bridge is its own regional root |
| Unnoticed.CurrentUnderNewSettings | mstp.c:2611-2666 | a new path cost or restriction on an enabled port leaves the bridge settled; the roles are still right if and only if the port is still the root port with the same path, or still not better than it |
| Unnoticed.CostChangeExactly | mstp.c:446-466 | the same for a link that comes up again with any cost |
| Unnoticed.RestingCostChange | mstp.c:446-466 | at rest: if and only if the cost is the same, the port is no candidate, or it is not the root port and its new path is no better |
| Unnoticed.RestrictionExactly | mstp.c:1145-1151 | the same for a restriction set or lifted |
| Unnoticed.RestingRestriction | mstp.c:1145-1151 | at rest: if and only if the restriction is not set, or not on the root port |
| InsideRegion.HeardExactly | mstp.c:2921-2934 | a BPDU from anywhere at a settled bridge, once settled again: the roles are right if and only if the BPDU is news, or the port is still the root port with the same path or still not better, and sends the same kind of BPDUs or the bridge is its own regional root |
| InsideRegion.CheckExactly | mstp.c:1275-1291 | a migration check at a settled bridge, once settled again: the roles are right if and only if the bridge is its own regional root or the port sends the same kind of BPDUs |
| WaitingBpdus.OwnRegionGoesUnnoticed | mstp.c:2921-2934 | a BPDU of the own region that says nothing makes the port internal: a settled bridge whose roles were right is then settled with another root path to choose |
| InsideRegion.CheckGoesUnnoticed | mstp.c:2712-2713 | a settled bridge whose roles were right, told to check for migration, is then settled with another designated vector to choose |
| Unnoticed.DisabledIdentifierExactly | mstp.c:1265-1271 | a new identifier on a disabled port is not noticed, and selecting again would change something if and only if it is another |
| Unnoticed.PortlessIdentifierExactly | mstp.c:944-971 | a new identifier of a bridge without ports is not noticed: its root is right if and only if the identifier is the same |
| Unnoticed.PortlessTimesExactly | mstp.c:906-937 | nor are new times of such a bridge |
| BpduRoundTrip.BridgeIdRoundTrip | mstp.h:74-80 | a bridge identifier is rebuilt from priority octet, MSTID and MAC |
| BpduRoundTrip.PortIdRoundTrip | mstp.h:74-80 | a port identifier is rebuilt from priority octet and port number |
| BpduRoundTrip.FlagsRoundTrip | mstp.h:228-233 | role and flags are read back as sent |
| BpduRoundTrip.MstBpduIsValid | mstp.c:598-672 | what `txMstp` builds with up to 63 MSTIs passes validation as an MST BPDU with all its messages |
| BpduRoundTrip.MessageIsFound | mstp.c:2193-2243 | a same-region receiver finds the message of every MSTI |
| BpduRoundTrip.NoOtherMessageIsFound | mstp.c:2193-2243 | and none for an MSTI the sender does not have |
| BpduRoundTrip.CistRoundTrip | mstp.c:1899-1934 | the receiver rebuilds the sender's CIST vector, hops and times exactly |
| BpduRoundTrip.MstiRoundTrip | mstp.c:1936-1956 | and for every common MSTI its vector and hops |
| BridgeMachine.BridgeMachine.SetRcvdMsgs | mstp.c:2193-2243 | the loop over the trees of a port computes the messages of the specification |
| BridgeMachine.BridgeMachine.FindMsti | mstp.c:2218-2240 | the search loop finds the first message of the tree |
| BridgeMachine.BridgeMachine.PrsmRun | mstp.c:2936-2976 | `PRSM_run`, actual and dry |
| BridgeMachine.BridgeMachine.PpmsmRun | mstp.c:3017-3066 | `PPMSM_run`, guard by guard, actual and dry |
| BridgeMachine.BridgeMachine.BdsmRun | mstp.c:3099-3135 | `BDSM_run`, guard by guard, actual and dry |
| BridgeMachine.BridgeMachine.ReadTransmit | mstp.c:3265-3283 | the loop over the nodes of a port behind allTransmitReady and mstiMasterPort |
| BridgeMachine.BridgeMachine.PtsmRun | mstp.c:3237-3330 | `PTSM_run`, guard by guard, actual and dry; its recursion ends |
| BridgeMachine.BridgeMachine.PismFlags | mstp.c:3343-3490 | the flags the `PISM_to_*` functions set, in their order |
| BridgeMachine.BridgeMachine.PismRecord | mstp.c:3343-3490 | the information they record, in their order |
| BridgeMachine.BridgeMachine.PismRun | mstp.c:3492-3620 | `PISM_run`, guard by guard, actual and dry; its recursion ends |
| BridgeMachine.BridgeMachine.SelectRoot | mstp.c:2611-2698 | the first loop of `updtRolesTree` finds the root vector, port and times |
| BridgeMachine.BridgeMachine.SetDesignated | mstp.c:2700-2723 | the second loop sets the designated vectors and times |
| BridgeMachine.BridgeMachine.SyncMaster | mstp.c:2326-2345 | `syncMaster` resynchronises the MSTIs of internal ports |
| BridgeMachine.BridgeMachine.SelectRole | mstp.c:2735-2857 | one port of the third loop, branch by branch |
| BridgeMachine.BridgeMachine.ReselectMstis | mstp.c:2592-2600 | `reselectMSTIs` |
| BridgeMachine.BridgeMachine.UpdtRolesTree | mstp.c:3640-3650 | the loops one after the other are role selection of the specification |
| BridgeMachine.BridgeMachine.PrssmRun | mstp.c:3652-3676 | `PRSSM_run`, actual and dry |
| BridgeMachine.BridgeMachine.ReadOthers | mstp.c:4202-4232 | the loops behind allSynced and reRooted |
| BridgeMachine.BridgeMachine.RaiseInTree | mstp.c:2246-2283 | setSyncTree and setReRootTree |
| BridgeMachine.BridgeMachine.PrtsmNode | mstp.c:3692-4132 | the assignments of the `PRTSM_to_*` functions to the node, in their order |
| BridgeMachine.BridgeMachine.PrtsmRun | mstp.c:4134-4590 | `PRTSM_runr`, guard by guard, up to a number of transitions, actual and dry |
| BridgeMachine.BridgeMachine.PstsmRun | mstp.c:4648-4685 | `PSTSM_run`, guard by guard, actual and dry |
| BridgeMachine.BridgeMachine.SetTcPropTree | mstp.c:2311-2323 | setTcPropTree |
| BridgeMachine.BridgeMachine.TcsmActions | mstp.c:4691-4804 | the actions of the `TCSM_to_*` functions, in their order |
| BridgeMachine.BridgeMachine.TcsmRun | mstp.c:4806-4903 | `TCSM_run`, guard by guard, actual and dry; its recursion ends |
| BridgeMachine.BridgeMachine.RunPass | mstp.c:5045-5136 | `__br_state_machines_run`: the dry run changes nothing and answers exactly whether the bridge is settled; the actual run is the pass of the specification |
| BridgeMachine.BridgeMachine.RunStateMachines | mstp.c:5141-5168 | `br_state_machines_run` |
| BridgeMachine.BridgeMachine.TickOne | mstp.c:2862-2893 | `PTSM_tick` |
| BridgeMachine.BridgeMachine.OneSecondPasses | mstp.c:517-546 | `MSTP_IN_one_second` |
| BridgeMachine.BridgeMachine.BpduReceived | mstp.c:564-696 | `MSTP_IN_rx_bpdu`: guard, filter, pending BPDU, validation and the passes after it |
| BridgeMachine.StagesSelectPort | mstp.c:2602-2858 | the stages of role selection on one port, one after the other, are role selection |
| Md5.AbsorbSplits | hmac_md5.c:240-256 | complete blocks may be absorbed first and the rest later |
| Md5.CounterIsExact | hmac_md5.c:232-235 | the two-word bit counter with its carry counts modulo 2^64 for every input length |
| Md5.CounterGivesIndex | hmac_md5.c:229-230 | the counter gives the number of buffered bytes |
| Md5.CounterBytes | hmac_md5.c:264-265 | the encoded counter is the 64-bit length of section 3.2 of RFC 1321 |
| Md5.Context.Transform | hmac_md5.c:119-204 | the 64 steps are the compression function |
| Md5.Context.Update | hmac_md5.c:223-253 | feeding a message in any pieces is feeding the message |
| Md5.Context.Final | hmac_md5.c:258-280 | the digest is that of the padded message (sections 3.1 and 3.2 of RFC 1321) |
| Md5.HmacMd5 | hmac_md5.c:285-350 | HMAC of section 2 of RFC 2104, long keys included |
| ConfigTables.Tables.Recalculate | mstp.c:74-86 | the digest is the HMAC of the composed VID-to-MSTID table |
| ConfigTables.Tables.SetVid2Fid | mstp.c:1294-1314 | validity kept; the digest is recomputed and the machines begin exactly when the composed table changes |
| ConfigTables.Tables.SetAllVids2Fids | mstp.c:1317-1341 | the same for all VIDs at once; bad values keep the present FID |
| ConfigTables.Tables.SetFid2Mstid | mstp.c:1344-1389 | the same for a FID; only existing MSTIs are accepted |
| ConfigTables.Tables.SetAllFids2Mstids | mstp.c:1392-1445 | the same for all FIDs at once, all or nothing |
| ConfigTables.Tables.CreateMsti | mstp.c:1465-1541 | exactly the MSTI is added, the list stays ascending, the digest stays right |
| ConfigTables.Tables.DeleteMsti | mstp.c:1544-1600 | refused exactly when a FID uses the MSTI |
| LinkedLists.AddKeepsLists | list.h:82-106 | adding an entry keeps every list linked in both directions and changes one list only |
| LinkedLists.DelKeepsLists | list.h:126-143 | so does deleting one |
| LinkedLists.InitKeepsLists | list.h:72-74 | so does a new head |
| LinkedLists.NextInList | list.h:64-66 | following the links goes through the list and back |
| Mesh.PortTreeMesh.MakeCist | mstp.c:231-265 | a bridge begins with the CIST only |
| Mesh.PortTreeMesh.ListAdd | list.h:100-103 | list_add puts the entry behind the given one |
| Mesh.PortTreeMesh.ListAddTail | list.h:113-116 | list_add_tail puts it at the end |
| Mesh.PortTreeMesh.ListDel | list.h:138-143 | list_del takes it out |
| Mesh.PortTreeMesh.CreatePort | mstp.c:267-326 | a new port gets one node for every tree, in their order, at the tail of the lists of the trees |
| Mesh.PortTreeMesh.DeletePort | mstp.c:328-349 | all nodes of the port go, the others stay |
| Mesh.PortTreeMesh.CreateMsti | mstp.c:1465-1541 | a new MSTI gets one node for every port, at the place its MSTID belongs |
| Mesh.PortTreeMesh.DeleteMsti | mstp.c:1544-1600 | all nodes of the MSTI go, the others stay |
| CableTable.UnplugKeepsMatching | wasm/wasm_api.c:431-441 | pulling a cable out of both ends keeps the matching |
| CableTable.PlugKeepsMatching | wasm/wasm_api.c:970-979 | so does plugging one in |
| CableTable.UpTogether | wasm/wasm_api.c:386-394 | with a cable in sync both ends are up or neither is |
| CableTable.Cables.SyncCarrier | wasm/wasm_api.c:400-424 | both carriers are set before either port is told, so no port comes up before its far end |
| CableTable.Cables.Unplug | wasm/wasm_api.c:431-441 | the exact table afterwards |
| CableTable.Cables.PortSetEnable | wasm/wasm_api.c:940-953 | matching, carriers and clean queue kept |
| CableTable.Cables.ShutdownPort | wasm/wasm_api.c:774-781 | guard shutdown takes down both ends of the cable |
| CableTable.Cables.Link | wasm/wasm_api.c:970-993 | the exact table afterwards: a and b are joined, their old peers are free and no longer mute, everything else is as it was; for a one-way link exactly the receiving end is mute |
| CableTable.Cables.Unlink | wasm/wasm_api.c:996-1002 | both ends are free |
| CableTable.Cables.PortCreate | wasm/wasm_api.c:893-938 | the first free slot; the queue stays clean exactly when no frame of a deleted predecessor is under way |
| CableTable.Cables.PortDelete | wasm/wasm_api.c:955-966 | the exact table afterwards; the frames to the port stay in the queue |
| CableTable.FramesOutliveTheirPort | wasm/wasm_api.c:893-966 | a port with a frame under way to it is deleted and the next port gets its handle and the frame: the queue is not clean |
| CableTable.Cables.BridgeDelete | wasm/wasm_api.c:865-889 | exactly the ports of the bridge go |
| CableTable.Cables.PurgeTo | wasm/wasm_api.c:358-377 | exactly the frames to the port are dropped |
| IntervalTables.ShowValue | ctl_main.c:1918-1938 | the intervals printed for a value are its maximal runs, and exactly its entries are overwritten |
| IntervalTables.Show | ctl_main.c:1884-1951 | the printer returns; its lines show every value once, ascending |
| IntervalTables.ParseList | ctl_main.c:2054-2143 | which lines are accepted and what they do to the table |
| IntervalTables.ProperItemsAssign | ctl_main.c:2091-2138 | printed intervals, read back, put the value exactly where it was |
| IntervalTables.PrintedTableIsReread | ctl_main.c:2054-2143 | reading back all printed lines rebuilds the table |
| IntervalTables.PrintedLinesAreAccepted | ctl_main.c:2091-2138 | every printed interval is accepted |

## Left out

- Netlink, sockets, the control protocol, the daemon, logging and scripts.
- The kernel driver: it is taken to return the requested port state and to flush at once, so `fdbFlush` is false again when the call that requested the flush returns.
- Topology-change strings, statistics, uptime and the rapid-ageing timer: they are copies or counters that no machine reads.
- The ageing time, and what happens to a bridge while it is disabled: the event Reenable of module Events switches it off and on again.
- Freshness.SettledIsCurrent: covers the CIST; whether role selection is up to date on the MSTIs is not proved.
- Events.Apply: creating and deleting ports and MSTIs are no events of a running bridge; their lists are in Mesh, the digest in ConfigTables.
- RoleCalls.MasterDivergesSomewhere: the bridge keeps the invariant; whether some history from BEGIN leads to it is open.
- WaitingBpdus.BpduStaysUnreadSomewhere: the history starts from a settled bridge that keeps the invariant, not from BEGIN.
- The administrative values behind path costs and point-to-point links: an event carries the value that results.
- The clock: the one-second limit of `br_state_machines_run` is a number of passes.
- RoleMachine.Run: bounded by 400 transitions, which is enough for every tame node; the C recursion is unbounded and does not return on the diverging family.
- Shared media, and networks in which one port hears both its own and other regions.
- Convergence: that a network becomes quiescent within some time is not proved.
- BridgeMachine.BridgeMachine.PrtsmRun: the recursion is cut after a given number of transitions, so a call that does not return in the engine returns here.
- BridgeMachine.BridgeMachine.BpduReceived: a BPDU on a guarded port is dropped; that the driver then shuts the port down is a LinkDown event of its own.
- BridgeMachine.BridgeMachine.PtsmActions: the assignments of one transition are updates of the port's record, written back at its end; the same holds for the other machines.
- Mesh.PortTreeMesh.CreatePort: allocation always succeeds, and the `next` and `prev` fields of all entries are two tables.
- CableTable.Cables.Enqueue: the frame queue is a sequence of source and destination; the tail pointer, the payload, delivery and the capture ring are not modelled.
- Md5.Context.Transform: the 64 unrolled lines are a loop over tables of constants, word indices and rotations.
- IntervalTables.ParseList: numbers and separators are already tokens; decimal conversion and error texts are not modelled.
- BPDU bytes beyond the transmitted length: they are zero in the model and never read.
