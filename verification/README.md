# HABI: a verified model of the bearer ledger

HABI is a ledger of bearer instruments that keeps working while its nodes are cut off from each other. Every node
keeps two sets: the bearers it holds (`ledger`) and the bearers it has itself spent (`spent`). Nodes exchange
holdings over links that go up and down, and a settlement barrier, Conversion Day, reconciles them. This project
models that system in Dafny for any number of nodes and bearers and proves what its runs keep, what they can
reach, and how the distributed protocol relates to the central model it transliterates.

`dafny verify dfyconfig.toml` checks everything.

## What is here

| file | subject |
|---|---|
| `Core.dfy` | options and results, the order strings are sorted in, the sorted listing of a set |
| `NetworkSpec.dfy` | the central network as a state machine: five calls, and runs of calls in which a failing call changes nothing |
| `NetworkRuns.dfy` | run invariants, the audit of the log, exactly when a bearer can gain a spender or be spent twice |
| `Desync.dfy` | exactly when some run leaves a live link between a spender and a holder |
| `Settlement.dfy` | full and partial settlement, finality, conflict reports |
| `Gossip.dfy` | termination, the closed form of quiescence, confluence |
| `Network.dfy`, `ConversionDay.dfy` | the `Network` object, its two checkers, the settlement barrier and its safety check, each proved against the state machine |
| `Scanner.dfy`, `Wire.dfy` | escaping, field and list scanning, the three message types |
| `SharedState.dfy`, `PeerProtocol.dfy`, `Coordinator.dfy`, `HabiNode.dfy` | one distributed node: its locked state, message handlers, settlement arithmetic, administrator's commands |
| `Protocol.dfy` | the distributed system: lock-atomic steps and a bag of messages that may be delayed, reordered or lost, and are read as the codec leaves them |
| `ProtocolSafety.dfy`, `ProtocolExposure.dfy` | its invariant, finality and exposure |
| `ProtocolPolling.dfy`, `ProtocolSettlement.dfy`, `ProtocolReach.dfy` | settlement rounds whose snapshots are not taken at one moment: what success, failure and a burn mean, and exactly which double spends runs can reach, past a round or not |
| `Refinement.dfy`, `RefinementRuns.dfy`, `RefinementRounds.dfy`, `RefinementSessions.dfy`, `RefinementProgress.dfy` | exactly when commands run one at a time do what the central network does; that they can always complete |
| `BlankBearer.dfy` | the blank bearer, which the wire can lose: runs in which a link-up and a round miss it |
| `Persistence.dfy` | the state file: its text, loading any text, and a save that a crash may cut short |
| `BarrierGossip.dfy`, `PolicyGate.dfy` | the two TLA+ designs, at any size |

A call of the central network that returns an error leaves it as it was, so a run is any list of calls. In the
distributed system a step is one critical section of one node, or a message delivered or lost. `Started` states are
freshly started nodes; `Sane` is the invariant every later state satisfies.

## Where the code does less than its documentation says

- The two safety checkers of `src/network.rs` are not invariants of its runs, as `tests/invariants.rs` also shows.
  `NetworkRuns.DoubleSpendExact` and `Desync.AlwaysSyncedExactly` say exactly from which states they can fail, and
  `Settlement.SettledExactly` which runs keep both.
- A list holding one empty string is encoded like the empty list, and a message whose encoding ends in a newline
  loses it. `Wire.PeerRoundTrip` and its two companions give the exact condition for each message to survive.
- So the blank bearer, which `ADMIN_SEED|` creates, can be lost between nodes: a list that is the blank bearer alone is
  read as empty, and nothing else is lost of a message without newlines (`Wire.HeardExactly`). A node that holds it alone
  hands nothing over, and a node that has spent it alone reports nothing. The machine of `Protocol` reads messages as
  the codec leaves them, so all its theorems cover the blank bearer. Those that then need a condition have an exact one:
  - a round during which nobody spends succeeds if and only if it hears of no two spenders of one bearer
    (`ProtocolSettlement.QuietRoundIsExact`), and `QuietRoundSeesAll` says exactly when that is the same as no double
    spend. Two spends of the blank bearer alone escape every such round (`BlankBearer.BlankSpendsEscape`);
  - a link-up, a propagate or a settlement run alone does what the central call does if and only if it is `Faithful`
    (`RefinementSessions.CommandRefines`), and sessions follow their central calls if and only if all their commands are
    (`SessionFollowsExactly`). A lone link-up can move less than the central one, and it can also leave more: where one
    end has spent the blank bearer alone, the other goes on holding it over the live link
    (`BlankBearer.BlankSpendIsNotTold`, reached from started nodes in `SpenderFacesHolder`).
- A state file value that ends in a carriage return loses it when loaded (`Persistence.CarriageReturnLost`); the
  round trip holds exactly for the values `Persistence.SaveLoadExactly` names.
- `src/persistence.rs` promises that a crash leaves the old file or the new one. That fails when the path itself has
  the extension `tmp`, because the temporary file is then the target (`Persistence.SaveAtomicExactly`).
- A Conversion Day round of the distributed node can succeed while a bearer has two spenders: a node may spend after
  its snapshot was taken. `ProtocolReach.SlipExactly` says exactly from which states, and `SlipFromStarted` that two
  started nodes and one seeded bearer are enough. What a round does guarantee is in `SuccessBlamesLateSpends` and
  `QuietRoundIsExact`.
- A bearer that a distributed round has burnt can come back to its coordinator (`ProtocolReach.BurntComesBack`).
  `ProtocolReach.BurnIsFinalExactly` says when it cannot.
- The barrier gossip design keeps its two stated properties at every size, but a double spend across nodes is
  reachable as soon as two nodes have something to spend (`BarrierGossip.DoubleSpendReachableExactly`).

## Model

| member | source | states |
|---|---|---|
| `NetworkRuns.RunInvariants` | src/network.rs:92-222 | after every run from unspent, disjoint ledgers: links symmetric, ledger and spent disjoint at each node, held-or-spent bearers unchanged, the logged spends of each bearer as many as its spenders, total spends at most nodes times bearers |
| `NetworkRuns.RunConserves` | src/network.rs:92-222 | no run creates or loses a bearer: what is held or spent somewhere stays the same set |
| `NetworkRuns.RunKeepsDisjoint` | src/network.rs:199-222 | in every run no node holds what it has itself spent |
| `NetworkRuns.RunKeepsSpent` | src/network.rs:199-222 | a recorded spend survives every run |
| `NetworkRuns.RunKeepsAudit` | src/network.rs:82-87 | every run keeps the log in step with the spends: one spend entry per spender of each bearer |
| `NetworkRuns.AbsentForever` | src/network.rs:112-222 | a bearer held nowhere is held nowhere and gains no spender in every later run |
| `NetworkRuns.ExposureExact` | src/network.rs:199-222 | some continuation adds a spender to a bearer if and only if some ledger still holds it |
| `NetworkRuns.SplitSpendWorks` | tests/invariants.rs:24-38 | the disconnection trace ends with both ends having spent the bearer, from any state where one holds it unspent |
| `NetworkRuns.DoubleSpendExact` | tests/invariants.rs:24-38 | a double spend of a bearer is reachable if and only if it has happened, or the bearer is still held and there are two nodes |
| `Desync.DesyncExactly` | src/network.rs:264-294 | some run makes the pairwise checker fail on a bearer if and only if it fails now, or there are a holder, a second node that has not spent the bearer, and a third node |
| `Desync.AlwaysSyncedExactly` | src/network.rs:264-294 | pairwise synchronisation holds through all runs if and only if it holds now and no bearer is at such risk |
| `Desync.StaleNeighbour` | src/network.rs:112-144 | where a third node has spent a bearer, two reconnections put it next to that node: link the third to the second, then the holder to the second |
| `Desync.LateCopy` | tests/invariants.rs:50-67 | where nobody on the way has spent: share, part, link to the third, spend, and the second hands its stale copy to the third, a neighbour of the spender |
| `Desync.RisklessStep` | src/network.rs:92-222 | without that risk no call joins a spender to a holder, and none creates the risk |
| `NetworkSpec.ExecHolds` | src/network.rs:92-222 | who holds what after each of the five calls, succeeding or failing, stated without the update expressions |
| `NetworkSpec.ExecSpent` | src/network.rs:199-222 | only a successful spend at a node adds to its spent set, and only that bearer |
| `NetworkSpec.ExecLinks` | src/network.rs:92-144 | only a successful link-up or link-down changes a link, in both directions at once |
| `NetworkSpec.ExecValid` | src/network.rs:43-61 | every call keeps the link table square and symmetric and the set of nodes fixed |
| `NetworkSpec.SettlementAt` | src/conversion_day.rs:80-114 | a settlement in terms of the participants it is given: when it succeeds and what it takes from whom |
| `NetworkSpec.ExecLog` | src/network.rs:82-222 | each successful call logs one entry that names the call and exactly the bearers it newly delivered or found spent; a failing call logs nothing |
| `Settlement.SettledExactly` | src/network.rs:230-294 | starting settled, every state of a run stays settled if and only if each spend in it reaches all current holders, whatever the links do |
| `Settlement.ReachingRunsAreSafe` | src/network.rs:230-294 | in runs whose spends reach all holders, both checkers stay empty under any link flapping |
| `Settlement.SettlementSettles` | src/conversion_day.rs:76-130 | a full settlement succeeds if and only if nothing is double spent; success leaves nothing spent held anywhere, failure changes nothing |
| `Settlement.SettlementFinal` | src/conversion_day.rs:76-130 | after a successful full settlement every bearer spent so far is never held or spent again and keeps exactly one spender, through every later run |
| `Settlement.ConflictForever` | src/conversion_day.rs:83-105 | a conflict persists: every later full settlement fails, with at least the same spenders |
| `Settlement.PartialSettlement` | src/conversion_day.rs:80-130 | success among some participants clears all they spent from their ledgers and synchronises every live link between them |
| `Settlement.ClearedExactly` | src/conversion_day.rs:60-76 | the calls that undo a clearing are exactly the enabled link-ups and propagates that bring a cleared bearer in from outside |
| `Settlement.ClearedUntilBroughtBack` | src/conversion_day.rs:60-76 | through any run with no such call the participants stay cleared |
| `Settlement.ReportEmptyExactly` | src/conversion_day.rs:83-105 | the conflict report is empty if and only if no bearer has two spenders among the participants |
| `Settlement.ReportUnique` | src/conversion_day.rs:98-105 | there is only one sorted report for a spender index, so any two ways of computing it agree |
| `Settlement.SpendersBlamed` | src/network.rs:230-256 | a report over some nodes names exactly those of them that have spent a bearer another of them has spent |
| `Settlement.ConflictFreeExact` | src/conversion_day.rs:83-105 | conflict-free over all nodes means that no bearer has two spenders |
| `Gossip.PropagateProgress` | src/network.rs:159-192 | a successful propagate strictly shrinks the missing pairs and leaves the unspent pairs |
| `Gossip.SpendProgress` | src/network.rs:199-222 | a successful spend strictly shrinks the unspent pairs |
| `Gossip.GossipTerminates` | src/network.rs:159-222 | a run of successful propagates and spends has at most p * (p + 2) calls, for p nodes times bearers |
| `Gossip.HeldOnlyIfReached` | src/network.rs:159-192 | propagation brings a bearer to a node only along a path of live links whose nodes have not spent it |
| `Gossip.QuiescentExactly` | src/network.rs:159-192 | when no propagate is left, a node holds a bearer if and only if such a path leads to it from a holder at the start |
| `Gossip.GossipConfluent` | src/network.rs:159-192 | all maximal propagate-only runs from one state end in the same nodes |
| `Gossip.QuiescenceReachable` | src/network.rs:159-192 | some propagate-only run reaches quiescence from every state |
| `Gossip.QuiescentComponent` | src/network.rs:159-192 | at quiescence the two ends of a path of nodes that have not spent a bearer both hold it or neither does |
| `Networks.Network.constructor` | src/network.rs:43-61 | a new network holds and has spent nothing, and every link between different nodes is up |
| `Networks.Network.ConnectedTo` | src/network.rs:63-72 | the live neighbours, none for an unknown node |
| `Networks.Network.LinkDown` | src/network.rs:92-103 | the new state of the machine, or an error and no change; which error depends on the link table alone |
| `Networks.Network.LinkUp` | src/network.rs:112-144 | the new state of the machine, with both ledgers merged, or an error and no change; which error depends on the link table alone |
| `Networks.Network.Propagate` | src/network.rs:159-192 | the new state of the machine if the link is up and something is deliverable, or the error and no change |
| `Networks.Network.SpendAt` | src/network.rs:199-222 | the new state of the machine, with the bearer taken from the spender and its live neighbours only, or an error and no change |
| `Networks.Network.NoDoubleSpendAcrossNodes` | src/network.rs:230-256 | the scan names exactly the nodes that have spent a bearer another node has spent, bearers and nodes in ascending order |
| `Networks.Network.EdgeViolations` | src/network.rs:275-290 | the violations on one link: spent at one end and held at either |
| `Networks.Network.PairwiseSyncedNoDoubleSpend` | src/network.rs:264-294 | exactly the live links and bearers spent at either end and held at either end, in ascending order by node, node and bearer; none if and only if all links are synchronised |
| `Core.BelowExactly` | src/network.rs:247-254 | the order everything is sorted in: a proper prefix comes first, otherwise the first difference decides |
| `Core.TwoListed` | tests/invariants.rs:24-37 | so the two spenders of the reported conflict are listed smaller first |
| `Networks.PairViolationsExact` | src/network.rs:264-294 | the list is empty if and only if no live link joins a spender to a holder |
| `Networks.FoundIsIndex` | src/network.rs:230-256 | the per-bearer scan and the inverted index give the same report |
| `Networks.SortedReport` | src/conversion_day.rs:91-101 | the sorted report of a spender index |
| `ConversionDay.GatherSpent` | src/conversion_day.rs:81-90 | the inverted index lists for each bearer exactly the participants that have spent it |
| `ConversionDay.IndexesExactly` | src/conversion_day.rs:83-90 | an index with that property is unique |
| `ConversionDay.Burn` | src/conversion_day.rs:107-114 | every participant loses exactly the given bearers; other nodes lose nothing |
| `ConversionDay.RunConversionDay` | src/conversion_day.rs:76-130 | the new state of the machine; an error carries the full report and changes nothing |
| `ConversionDay.CheckPostBarrierSafety` | src/conversion_day.rs:146-164 | true if and only if no participant holds a bearer some participant has spent |
| `ConversionDay.ClearedAt` | src/conversion_day.rs:146-164 | that, in terms of the participants the check is given |
| `ConversionDay.SettleAndCheck` | src/conversion_day.rs:107-164 | the safety check passes after every successful settlement of the same participants |
| `Coordinator.ComputeConversionDay` | src/conversion_day_coordinator.rs:48-77 | the burn set is everything recorded spent when no bearer has two recorded spenders; otherwise the full sorted report |
| `Coordinator.CheckPostConversionDaySafety` | src/conversion_day_coordinator.rs:82-94 | true if and only if no snapshot holds a bearer any snapshot records as spent |
| `Coordinator.CoordinatorAgrees` | src/conversion_day_coordinator.rs:41-77 | over snapshots of all nodes the coordinator has the index, burn set and verdict of the central barrier |
| `Coordinator.SnapshotReportEmptyExactly` | src/conversion_day_coordinator.rs:61-74 | the report is empty if and only if the snapshots have no conflict |
| `Scanner.EscapeIsOnePass` | src/wire.rs:107-109 | three replacements one after another are one pass over the characters |
| `Scanner.UnescapeEscape` | src/wire.rs:107-129 | unescaping undoes escaping, for every string |
| `Scanner.UnescapeLoop` | src/wire.rs:111-129 | the character loop computes the recursive unescape, unknown escapes and a trailing backslash included |
| `Scanner.SplitLoop` | src/wire.rs:141-158 | the field scanner computes the recursive split |
| `Scanner.JoinSplit` | src/wire.rs:141-158 | joining the pieces of any line gives the line back, and no piece has an unescaped separator |
| `Scanner.SplitJoin` | src/wire.rs:141-158 | splitting a join gives the pieces back, when they have no unescaped separator and do not end inside an escape |
| `Scanner.DecodeListLoop` | src/wire.rs:167-190 | the list scanner computes the split at commas with each item unescaped |
| `Scanner.ListRoundTrip` | src/wire.rs:163-190 | a list survives encoding if and only if it is not the list of one empty string |
| `Scanner.EncodeListScans` | src/wire.rs:163-165 | an encoded list has no unescaped bar, so lists nest in fields |
| `Wire.PeerRoundTrip` | src/wire.rs:193-267 | a peer message decodes from its encoding if and only if no list is one empty string and the encoding does not end in a newline |
| `Wire.PeerCanonical` | src/wire.rs:230-267 | whatever line a peer message was decoded from, its encoding decodes to it again |
| `Wire.PeerFrame` | src/wire.rs:193-267 | a peer message survives a newline-terminated frame, whatever follows, if and only if it has no newline and no list of one empty string |
| `Wire.HeardExactly` | src/bin/habi_node.rs:55-122 | what a peer reads of any message without newlines: the message, with each list that is the blank bearer alone read as empty |
| `Wire.CommandsAreOneLine` | src/bin/habi_node.rs:405-414 | whatever is sent to a node, no command it reads names anything with a newline in it |
| `Wire.PeerByShape` | src/wire.rs:193-267 | encoding and decoding follow one field layout per message: tag, order, text or list |
| `Wire.LinkLine` | src/wire.rs:193-228 | the lines of the messages about links, spelled out |
| `Wire.SpreadLine` | src/wire.rs:193-228 | the lines of the messages that spread holdings and spends |
| `Wire.StatusLine` | src/wire.rs:193-228 | the lines of the messages of a round |
| `Wire.AdminRoundTrip` | src/wire.rs:270-305 | the round trip of administrator commands, with its exact condition |
| `Wire.AdminCanonical` | src/wire.rs:283-305 | every decoded command is one that round-trips |
| `Wire.AdminFrame` | src/wire.rs:270-305 | a command survives a frame if and only if it has no newline |
| `Wire.AdminByShape` | src/wire.rs:270-305 | the field layout of administrator commands |
| `Wire.AdminLine` | src/wire.rs:270-281 | the line of each command, spelled out |
| `Wire.ReplyRoundTrip` | src/wire.rs:308-338 | the round trip of replies, with its exact condition |
| `Wire.ReplyCanonical` | src/wire.rs:323-338 | every decoded reply is one that round-trips |
| `Wire.ReplyFrame` | src/wire.rs:308-338 | a reply survives a frame if and only if it has no newline and no list of one empty string |
| `Wire.ReplyByShape` | src/wire.rs:308-338 | the field layout of replies |
| `Wire.ReplyLine` | src/wire.rs:308-321 | the line of each reply, spelled out |
| `Wire.ShapeRoundTrip` | src/wire.rs:141-267 | any layout with a clean tag parses from its print if and only if it is carried |
| `Wire.ParsedIsCarried` | src/wire.rs:141-267 | whatever is parsed from any line is carried |
| `Wire.FrameRoundTrip` | src/wire.rs:141-231 | the same across a newline-terminated frame |
| `SharedState.NodeShared.constructor` | src/shared_state.rs:54-59 | a new node holds nothing, has spent nothing and has no links |
| `SharedState.NodeShared.ConnectedPeers` | src/shared_state.rs:73-82 | exactly the peers whose link is up, in ascending order |
| `SharedState.NodeShared.ComputeLinkUpMerge` | src/shared_state.rs:89-102 | everything either side holds, less what either has spent |
| `SharedState.NodeShared.ApplyLinkUp` | src/shared_state.rs:108-111 | the ledger becomes the merge and the link goes up; nothing else changes |
| `SharedState.NodeShared.ApplySpentNotify` | src/shared_state.rs:136-138 | the node stops holding the bearer and records no spend |
| `SharedState.NodeShared.LocalSpend` | src/shared_state.rs:147-157 | a held bearer moves from ledger to spent; otherwise an error and no change |
| `PeerProtocol.HandleIncomingPeerMessage` | src/peer_protocol.rs:20-92 | each message has the reaction of the specification: new local state, and a reply with the state before it |
| `PeerProtocol.RefusedExactly` | src/peer_protocol.rs:26-92 | refused are exactly the replies nobody asked for, and a propagate request over a link that is down or unknown |
| `PeerProtocol.ReactionLeaves` | src/peer_protocol.rs:26-92 | bearer by bearer and link by link, what an accepted message makes of the node |
| `PeerProtocol.ReactionReplies` | src/peer_protocol.rs:26-92 | which messages are answered, and with what: the sorted holdings and spends as they were before |
| `PeerProtocol.AbsorbedExactly` | src/peer_protocol.rs:99-131 | bearer by bearer and link by link, what a reply makes of the node that waited for it |
| `PeerProtocol.ApplyLinkUpReply` | src/peer_protocol.rs:99-112 | an acknowledgement is merged with the current state; anything else is an error and no change |
| `PeerProtocol.ApplyPropagateReply` | src/peer_protocol.rs:119-131 | a reply adds what is neither held nor spent here; anything else is an error and no change |
| `PeerProtocol.HandshakeConverges` | src/peer_protocol.rs:20-112 | undisturbed, and each hearing all of the other's sets, both ends of a handshake end with the same merged ledger and the link up |
| `HabiNode.HandleAdminCommand` | src/bin/habi_node.rs:138-397 | each command succeeds under stated conditions, sends stated requests, and has a stated effect on the node as other handlers have left it while it waited, with exact notices; a failing one says why, makes nothing of the node and sends no notice |
| `HabiNode.CommandSucceedsExactly` | src/bin/habi_node.rs:145-236 | when the other commands succeed: the peer known and answering as expected, a propagate over its live link, a spend of what is held |
| `HabiNode.ErrorExactly` | src/bin/habi_node.rs:138-397 | error by error, when a failing command gives it; a missing quorum names exactly the silent peers and a conflict exactly the double spenders |
| `HabiNode.EffectAt` | src/bin/habi_node.rs:145-397 | bearer by bearer, what each command makes of ledger and spends: a seed adds that one bearer and keeps the others |
| `HabiNode.EffectLinks` | src/bin/habi_node.rs:145-397 | link by link, what each command makes of the links, and the name kept |
| `HabiNode.NoticesExactly` | src/bin/habi_node.rs:229-366 | every notice a command broadcasts, once each, and nothing else |
| `HabiNode.WaitsExactly` | src/bin/habi_node.rs:138-397 | a command lets go of the lock if and only if it has sent something to a peer, or is a round |
| `HabiNode.RunRound` | src/bin/habi_node.rs:259-366 | a round goes through if and only if every peer sends a status and no bearer is reported spent by two nodes, its own snapshot being taken first; then the node, as it has become by then, burns everything recorded and tells every peer of every burnt bearer once |
| `HabiNode.RoundSucceedsExactly` | src/bin/habi_node.rs:320-340 | that condition, read from the answers alone |
| `HabiNode.Gather` | src/bin/habi_node.rs:280-318 | the snapshots of the peers that answered, and exactly the peers that did not |
| `HabiNode.BurnLocally` | src/bin/habi_node.rs:345-350 | one removal at a time takes the burn set out of the ledger and nothing else |
| `HabiNode.SpendHere` | src/bin/habi_node.rs:229-257 | a spend tells exactly the connected known peers, once each |
| `HabiNode.AskPeer` | src/bin/habi_node.rs:145-227 | a link-up or propagate command: its request, the answer applied to the node as the answer finds it, or why it fails |
| `HabiNode.CutLink` | src/bin/habi_node.rs:178-191 | a link-down command: its message first, then its own half, applied to the node as it then is |
| `HabiNode.GatheredRecords` | src/bin/habi_node.rs:280-318 | the snapshots record a spend if and only if the node or a peer that answered reports it |
| `HabiNode.GatheredExactly` | src/bin/habi_node.rs:280-318 | the snapshots are the node's own and what each answering peer sent, nothing else |
| `HabiNode.OrderIrrelevant` | src/bin/habi_node.rs:286-318 | the order in which peers are asked changes neither verdict, burn set nor conflict index |
| `HabiNode.SpendIsStep` | src/bin/habi_node.rs:229-257 | the spend command is the spend step of the distributed system |
| `HabiNode.SeedIsStep` | src/bin/habi_node.rs:382-395 | the seed command is the seed step of the distributed system |
| `HabiNode.OpenIsStep` | src/bin/habi_node.rs:276-285 | the settlement command begins with the opening step: the coordinator's own snapshot |
| `HabiNode.AskIsStep` | src/bin/habi_node.rs:286-301 | its requests are the asking steps, one to each peer and never again |
| `HabiNode.StatusIsStep` | src/bin/habi_node.rs:291-318 | a status as it is read adds the snapshot the command gathers from it, once per peer |
| `HabiNode.RoundIsStep` | src/bin/habi_node.rs:325-363 | the round can close if and only if every peer has answered, and then closes as the settlement command ends, whatever has become of the coordinator and the others since; otherwise the command fails |
| `Protocol.DoHolds` | src/bin/habi_node.rs:61-366 | who holds what after each step of the distributed system, messages being read as the codec leaves them |
| `Protocol.DoSpent` | src/bin/habi_node.rs:229-236 | only a spend step records a spend |
| `Protocol.ReceivedNode` | src/peer_protocol.rs:26-131 | what any delivered message can do to a ledger: add its cargo unless spent here, drop what it reports spent |
| `ProtocolSafety.DoKeepsSane` | src/bin/habi_node.rs:145-366 | every step keeps the invariant: in-flight spent lists are no larger than the sender's own, what messages name was seeded, notices name spent bearers, snapshots lie between what there was to hear at the opening and the present, and every message in flight is read whole but for the blank bearer where it is alone |
| `ProtocolSafety.PlayKeepsSane` | src/bin/habi_node.rs:145-366 | every run keeps the invariant |
| `ProtocolSafety.AsynchronousConservation` | src/bin/habi_node.rs:145-366 | in every run from started nodes, with messages delayed, reordered or lost and any bearers a command can seed, what is held or spent is exactly what was seeded, and no node holds what it has spent |
| `ProtocolSafety.KeepsTruthful` | src/peer_protocol.rs:26-71 | messages stay true however stale they become |
| `ProtocolSafety.HoldingsNeedLiveLink` | src/peer_protocol.rs:56-65 | in no step of any run are holdings put in flight to a node unless the sender's own link flag for it is up |
| `ProtocolSafety.DeadLinkRefuses` | src/peer_protocol.rs:56-60 | a propagate request that arrives over a link down or unknown changes no node and is not answered |
| `ProtocolSafety.ReadsExactly` | src/bin/habi_node.rs:61-121 | in every state of the invariant, what encoding, framing and decoding leave of each message in flight |
| `ProtocolExposure.DistributedFinality` | src/bin/habi_node.rs:342-363 | a seeded bearer held by no node, and by no message as it will be read carried to a node that could take it, is never held or spent again |
| `ProtocolExposure.DistributedExposureExact` | src/bin/habi_node.rs:342-363 | some run adds a spender if and only if the bearer is held or on its way to a node that could take it |
| `ProtocolSettlement.ConflictIsGenuine` | src/bin/habi_node.rs:334-340 | when a round fails some bearer is double spent, every spend its snapshots record is real, and reporting it changes no node and sends nothing |
| `ProtocolSettlement.ReportIsGenuine` | src/bin/habi_node.rs:334-340 | every bearer and node a conflict report names is double spent and a current spender, and every double spend there was to hear of when the round opened is in the report |
| `ProtocolSettlement.BlamesExactly` | src/conversion_day_coordinator.rs:61-74 | a report names a bearer with a node if and only if the snapshots record that spend and another one of the same bearer |
| `ProtocolSettlement.SuccessBlamesLateSpends` | src/conversion_day_coordinator.rs:48-77 | when a round succeeds, of two spenders of one bearer at least one spent it after the round opened, or was a peer that had then spent the blank bearer alone |
| `ProtocolSettlement.QuietRoundIsExact` | src/bin/habi_node.rs:276-340 | from any state of the invariant and whatever else happens and is in flight, if nobody spends between opening and closing, the round succeeds if and only if no bearer has two spenders it hears of: its coordinator, or a peer that has spent more than the blank bearer |
| `ProtocolSettlement.QuietRoundSeesAll` | src/bin/habi_node.rs:276-340 | and that is the same as nothing being double spent if and only if the blank bearer is not double spent or some conflict is heard |
| `ProtocolSettlement.OnlyBlankIsMissed` | src/bin/habi_node.rs:276-340 | what is heard twice is double spent, and every double spend of a bearer that is not blank is heard |
| `ProtocolSettlement.OpeningKept` | src/bin/habi_node.rs:276-318 | a round number is never used twice and keeps its coordinator and its opening record |
| `ProtocolPolling.PollOne` | src/bin/habi_node.rs:291-301 | asking one peer takes three steps, with anything else in flight, and leaves behind only its answer as it is read |
| `ProtocolPolling.OpenAndPoll` | src/bin/habi_node.rs:276-318 | from every state of the invariant a round at any node can hear from everyone, and then shows what there was to hear of all spends when it opened |
| `ProtocolReach.SlipExactly` | src/bin/habi_node.rs:276-340 | some run opens a round at a node and reaches a close that succeeds although a given bearer is double spent, if and only if it is double spent already, or held or on its way to a taker with two nodes there, and nothing has two spenders yet that such a round would hear of |
| `ProtocolReach.LateSpendSlipsThrough` | src/bin/habi_node.rs:276-340 | the gap itself, from any state without a conflict to hear of and whatever is in flight: the round hears from everyone, then the bearer is spent twice, and the round still succeeds |
| `ProtocolReach.UnheardSlipsThrough` | src/bin/habi_node.rs:276-340 | a double spend that is not heard of slips through without any late spend |
| `ProtocolReach.SlipFromStarted` | src/bin/habi_node.rs:276-340 | two started nodes and one seeded bearer are enough for it |
| `ProtocolReach.DoubleSpendReachExactly` | src/bin/habi_node.rs:229-257 | a double spend is reachable in the distributed system if and only if it has happened, or the bearer is held or on its way to a taker and there are two nodes |
| `ProtocolReach.BurnIsFinalExactly` | src/bin/habi_node.rs:342-363 | after a successful round a burnt bearer is never held or spent again, in any run, if and only if at the close no node but the coordinator held it and no message carried it to a taker |
| `ProtocolReach.BurntComesBack` | src/bin/habi_node.rs:342-363 | otherwise a holder the notice has not reached hands it back to the coordinator, and delivering all notices does not take it away |
| `Refinement.LinkUpOutcome` | src/bin/habi_node.rs:145-176 | a link-up command run alone leaves both flags up and each end with what it heard merged, whatever steps carry it out |
| `Refinement.LinkUpExactly` | src/bin/habi_node.rs:145-176 | that is what the central link-up leaves if and only if neither end holds the blank bearer alone unknown to the other, nor has spent it alone while the other holds it |
| `Refinement.EndsAgreeExactly` | src/peer_protocol.rs:20-112 | under the same condition, and no other, the two ends end with the same ledger |
| `Refinement.CuttingEnds` | src/bin/habi_node.rs:178-191 | a link-down command run alone does what the central link-down does, its two halves in either order |
| `Refinement.PullExactly` | src/bin/habi_node.rs:193-227 | what a propagate command run alone delivers is what the central propagate delivers if and only if the source does not hold the blank bearer alone, unknown to the other end |
| `RefinementRuns.SpendRefines` | src/bin/habi_node.rs:229-257 | a spend with its notices delivered in any order is the central spend |
| `RefinementRounds.RoundOutcome` | src/bin/habi_node.rs:259-366 | a settlement round run alone, its notices delivered in any order, burns at every node what it hears of, unless it hears of a conflict |
| `RefinementRounds.RoundRefines` | src/bin/habi_node.rs:259-366 | that is the central full settlement if and only if no peer has spent the blank bearer alone, or the round hears of a conflict, or the bearers the two would burn differently are held by nobody |
| `RefinementSessions.PullRefines` | src/bin/habi_node.rs:193-227 | a propagate command run alone does what the central propagate does, or nothing where that fails, under exactly that condition |
| `RefinementSessions.CommandRefines` | src/bin/habi_node.rs:145-366 | every command run alone with every peer responding does what its central calls do if and only if it is faithful where it starts; spends and link-downs always are |
| `RefinementSessions.SessionFollowsExactly` | src/bin/habi_node.rs:145-366 | any session of such commands follows its central calls command by command if and only if each is faithful where it starts |
| `RefinementSessions.SessionRefines` | src/bin/habi_node.rs:145-366 | such a session simulates the run of its central calls and leaves nothing in flight |
| `RefinementSessions.UnblankSession` | src/bin/habi_node.rs:145-366 | where the blank bearer was never seeded every session is one |
| `RefinementProgress.SessionLinksSymmetric` | src/bin/habi_node.rs:145-191 | link flags agree at both ends after every session, faithful or not |
| `RefinementProgress.CentralImageExactly` | src/bin/habi_node.rs:145-191 | a distributed state looks like some central network if and only if its link flags agree |
| `RefinementProgress.SeededStart` | src/bin/habi_node.rs:382-395 | started nodes, however seeded, are where a session may begin |
| `RefinementProgress.CommandCompletes` | src/bin/habi_node.rs:145-366 | every command that can start from a quiet state has a run that completes it |
| `BlankBearer.StatusArrivesExactly` | src/wire.rs:163-190 | a status reply is read as it was sent if and only if no name has a newline and neither of its lists is the blank bearer alone |
| `BlankBearer.BlankIsNotHandedOver` | src/bin/habi_node.rs:145-176 | over any undisturbed link-up, a node holding the blank bearer alone does not hand it to an end that has never had it |
| `BlankBearer.BlankSpendIsNotTold` | src/bin/habi_node.rs:145-176 | over any undisturbed link-up, the other end of a node that has spent the blank bearer alone goes on holding it, with both flags up |
| `BlankBearer.SpenderFacesHolder` | src/bin/habi_node.rs:145-176 | from started nodes a run leads to such a spender and holder over a link just brought up |
| `BlankBearer.BlankSpendsEscape` | src/bin/habi_node.rs:276-340 | from started nodes a run has two nodes spend the blank bearer alone, and then every round at any node during which nobody spends succeeds |
| `Persistence.SaveLoadExactly` | src/persistence.rs:33-100 | saving and loading gives the node back if and only if no value contains a newline or ends in a carriage return |
| `Persistence.LoadStrips` | src/persistence.rs:56-100 | what loading makes of a saved node: each value less one final carriage return |
| `Persistence.CarriageReturnLost` | src/persistence.rs:68-87 | a bearer ending in a carriage return comes back without it |
| `Persistence.LoadedNewlineFree` | src/persistence.rs:68-100 | no file whatsoever loads a value with a newline |
| `Persistence.SavedFilesDiffer` | src/persistence.rs:33-54 | different storable nodes have different files |
| `Persistence.SaveCompletes` | src/persistence.rs:33-54 | a completed save leaves the rendered node under the path, no temporary file and every other file alone |
| `Persistence.SaveAtomicExactly` | src/persistence.rs:33-54 | cut short at any operation or inside any write, the path has its old or its new content, if and only if its extension is not that of the temporary file |
| `Persistence.CanonicalUnique` | src/persistence.rs:33-34 | two paths with the same directory and file name, split as the standard library splits them, are the same path |
| `Persistence.CrashLoadsOldOrNew` | src/persistence.rs:33-100 | so a crash at any point loads the old node or the new one |
| `Persistence.FileStore.SaveNodeState` | src/persistence.rs:33-54 | exactly the operations of a save, in order, whatever order the sets are iterated in |
| `Persistence.LoadNodeState` | src/persistence.rs:56-100 | no node if and only if there is no file; the first unknown tag is the error; a file without a name is an error; otherwise the last name and exactly the bearers its lines list |
| `Persistence.LoadExactly` | src/persistence.rs:56-100 | the same of the function it computes |
| `Persistence.LinesOfText` | src/persistence.rs:62-68 | the lines of a text: each newline ends one, less a carriage return before it, and a last one without newline is kept as it is |
| `Persistence.RenderedLines` | src/persistence.rs:33-52 | the file of a node, spelled out line by line |
| `BarrierGossip.BarrierSafety` | tla/barrier/DIL_CRDT_Barrier.tla:74-98 | every reachable state, at any number of nodes and bearers, satisfies both stated properties |
| `BarrierGossip.NextKeeps` | tla/barrier/DIL_CRDT_Barrier.tla:32-79 | the inductive invariant: a spent bearer is behind the barrier or held nowhere, links symmetric, linked nodes synchronised |
| `BarrierGossip.SpendKeeps` | tla/barrier/DIL_CRDT_Barrier.tla:56-66 | spending keeps it, isolated or not |
| `BarrierGossip.ClearKeeps` | tla/barrier/DIL_CRDT_Barrier.tla:68-72 | clearing the barrier keeps it |
| `BarrierGossip.NextTidy` | tla/barrier/DIL_CRDT_Barrier.tla:32-79 | no node holds what it has spent, and the barrier has only what someone has spent |
| `BarrierGossip.SpendsExactly` | tla/barrier/DIL_CRDT_Barrier.tla:56-66 | a bearer is spent only where it is held, and fenced at once if its spender lacks a link |
| `BarrierGossip.BarrierExactly` | tla/barrier/DIL_CRDT_Barrier.tla:56-72 | the barrier takes in only what a partially isolated node spends, and is lifted only as a whole, with every link up and nothing behind it held |
| `BarrierGossip.GainsExactly` | tla/barrier/DIL_CRDT_Barrier.tla:39-55 | a node gains only what a live neighbour holds, it has not spent and no barrier fences |
| `BarrierGossip.LinkStepsPossible` | tla/barrier/DIL_CRDT_Barrier.tla:32-46 | a link can be cut or joined whenever it is up or down, with this merge |
| `BarrierGossip.OtherStepsPossible` | tla/barrier/DIL_CRDT_Barrier.tla:48-66 | what is held can be spent, and handed to a neighbour that lacks it |
| `BarrierGossip.DoubleSpendReachableExactly` | tla/barrier/DIL_CRDT_Barrier.tla:74-85 | from every state of the invariant, initial ones among them, a double spend across nodes is reachable if and only if it is there, or there are two nodes and something to spend |
| `PolicyGate.ApprovalNeedsEveryNode` | tla/policy-gate/PolicyGate.tla:84-86 | in every run an approved action has been confirmed by every node |
| `PolicyGate.DecisionsAreWriteOnce` | tla/policy-gate/PolicyGate.tla:97-103 | a decision, once taken, never changes |
| `PolicyGate.DecisionIsFinal` | tla/policy-gate/PolicyGate.tla:26-80 | no step changes a decided action or its confirmations |
| `PolicyGate.ConfirmationsGrow` | tla/policy-gate/PolicyGate.tla:34-41 | a confirmation is added only to an open action by a reachable node, and never taken back |
| `PolicyGate.ConfirmedWhileReachable` | tla/policy-gate/PolicyGate.tla:88-95 | in every run each confirmation was given while its node was reachable and the action open |
| `PolicyGate.DecisionsExactly` | tla/policy-gate/PolicyGate.tla:43-65 | approval, block and deferral are each taken only on an open action and for their own reason |
| `PolicyGate.DecisionsPossible` | tla/policy-gate/PolicyGate.tla:43-65 | and can be taken whenever that reason is there |
| `PolicyGate.ConfirmedIsStable` | tla/policy-gate/PolicyGate.tla:49-80 | full confirmation of an open action lasts until it is approved or blocked |
| `PolicyGate.EventuallyDecided` | tla/policy-gate/PolicyGate.tla:49-82 | under weak fairness of approval a fully confirmed action is eventually approved or blocked |
| `PolicyGate.GateStepProgress` | tla/policy-gate/PolicyGate.tla:26-63 | every effective step of the gate adds one to its progress |
| `PolicyGate.GateWorkIsBounded` | tla/policy-gate/PolicyGate.tla:73-82 | a run has at most actions times (nodes + 2) effective steps besides link changes |

## Left out

- Sockets, listeners, threads, retries and process start-up of `src/bin/habi_node.rs`, and all of
  `src/bin/habi_admin.rs`: input and output. Lock-atomic state changes and messages are what is modelled.
- The peers file and address maps: each node is taken to know every other node, under unique names.
- `print_state`, `src/main.rs`, error texts and the wording of log lines: presentation. Errors are tags, and log
  entries are structured values with sets where the source prints lists.
- The iteration order of hash sets and maps: an arbitrary choice in the methods; results are proved not to depend on it.
- Sorting: insertion into a sorted list stands for the library sort. Report entries are sorted by bearer alone, which
  orders them completely because no bearer occurs twice.
- Unrestricted `Seed`: the distributed system seeds only bearers never seeded before and without a newline, as every
  command read from a connection is (`Wire.CommandsAreOneLine`), and node names have no newline, as names from a peers
  file cannot. `HabiNode.HandleAdminCommand` has no such limit.
- HabiNode.HandleAdminCommand: what other handlers make of the node while a command waits is a parameter, any value at
  all; that it comes from steps of the same system is said by `Protocol`, where every critical section is a step.
- HabiNode.RunRound: the best-effort sends of notices are recorded as sent, whether they arrive or not; loss is a step
  of `Protocol`.
- Crash and restart of a running node: message handlers do not save their changes, so no run theorem would survive a
  restart. The state file is treated on its own.
- I/O errors of the state file other than a save cut short, text that is not UTF-8, and file names without a stem.
- PolicyGate.EventuallyDecided: liveness is proved for the design's actions with fairness of approval stated as an
  assumption on the run, because the design itself states none.
- RefinementSessions.SessionRefines: commands overlapping in time have no counterpart in the central network; for them
  the guarantees are those of `ProtocolSafety`, `ProtocolExposure`, `ProtocolSettlement` and `ProtocolReach`.
- The fixed three-node, two-bearer starting state of the barrier design: any sets of nodes and bearers and any placement
  are allowed instead.
- `tla/DIL_CRDT.tla`, the lifecycle design and the Coq files: fixed in size or covered by the machines above.
