# ProxyBridge: verified models of the traffic core

ProxyBridge routes the traffic of single applications through proxies: a packet core in C on Windows, a
transparent proxy provider in Swift on macOS. This project models the parts of it whose correctness spans many
calls, and proves what they guarantee over every input and every run.

| files | what they model |
|---|---|
| `RelayPool`, `RelayInvariant`, `RelaySteps`, `RelayList`, `RelayLifetime`, `RelayTheorems`, `RelayDrain`, `RelayDelivery`, `RelayWires`, `RelayBlame`, `RelayTurns` | the IOCP relay pool as a step system |
| `ConnChains`, `ConnTrack` | the connection tracker: two hash-chain indexes through the same nodes |
| `UdpVerdicts` | the UDP PROXY and DIRECT caches and their generation counter |
| `TcpPath`, `PortBits`, `TcpEngine` | the TCP branch of the packet thread: decision bitmaps, table, rewriting |
| `Rules`, `Glob` | the rule engine, and the wildcard matchers of both platforms |
| `DnsName`, `Socks5` | name decompression (RFC 1035) and SOCKS5 framing (RFC 1928) |
| `MacFlows` | handshakes and UDP associations of the macOS provider |
| `Basics` | the two types that all of them share |

`dafny verify dfyconfig.toml` checks everything.

## How the models are built

**Form.** What one thread does alone is imperative: the chain tables, the packet rewriting, the matchers, the name
parser and the SOCKS5 reads are classes, arrays and loops proved against functions. What several threads do together
is a step system over values, because there the interleaving is the point.

**Relay pool.** A step is one locked section, one interlocked operation, one socket call, one allocation or free, or
one completion. Everything the environment decides (who runs, which posts fail, how many bytes move) is data in the
step, so "for every sequence of steps" means every interleaving with any number of worker threads. Guards do not
exclude misuse: touching a freed connection, freeing twice, using a closed socket or a dangling neighbour sets a
fault flag, and the theorems say that no run ever sets it. Assumptions: a receive moves at most 65536 bytes and a
send at most what it was given, and a post on a socket shut down in both directions fails. Besides the history of
each direction there is one of each socket (`wires`): what the kernel received from it and handed to it. It is kept by
the kernel's steps alone, so the theorems about clients and proxies do not depend on how directions are named.

**Tracker.** `Forward` and `Reverse` are the two chain tables with `next` / `revNext` pointers relinked in place;
`Tracker` owns both and every method is proved to act on one abstract map exactly as the functions in `ConnSpec` say.
The same functions drive the state machines of `UdpVerdicts` and `TcpPath`. `is_tracked` is set by every insertion
and never cleared, so it is not a field. Timestamps and the generation are parameters. The sweep is one atomic step;
its subtraction is unsigned, as in the code.

**UDP caches.** One packet thread (the program starts exactly one) and any number of editors that mutate the policy
and then bump the generation. The clock is monotone and the generation does not wrap. The slot hash is arbitrary.

**TCP branch.** IPv4 and IPv6 are one function with the differences spelled out (only IPv4 looks for proxy endpoints
first; only IPv6 leaves a zero port alone). The action after the localhost and broadcast overrides is an input.
`TcpEngine` is the same branch on the real data: the tracker's hash chains and the two bitmaps of 2048 words, whose bits
denote the port sets of the model; it refines the function.

**macOS.** A step is one locked section of one callback, a datagram, or a tick of the uptime clock; the idle sweep is two
steps with anything in between. History variables record who claimed each handshake and what became of each association.

## What turned out false, and exactly when the code is right

- *A tracked TCP connection is always redirected.* The decision bits are per port and shared by both address families:
  a DIRECT verdict for IPv4 makes a tracked IPv6 connection on the same port bypass the relay
  (`TcpPath.CrossFamilyLeak`). In every state a segment of a tracked connection is redirected if and only if its port
  carries no direct decision (`TcpPath.RedirectedIff`), and in runs where a port is used by one family at a time it
  never does (`TcpPath.DecisionInv`, `TcpPath.TrackedThroughout`).
- *The relay's reply is translated back to the original endpoint.* For port 0 on IPv6 it is not: the code uses a zero
  port to mean "not found" (`TcpPath.RoundTrip` has both directions).
- *Both glob matchers denote the same language.* The Swift matcher compares literally before it looks for a star, so a
  `*` in the text can consume the pattern's star. It decides all patterns correctly on a text if and only if the text
  has no `*` before its last character (`Glob.GreedyIff`, `Glob.GreedyWrong`).
- *`dns_parse_name` accepts exactly the names of section 4.1.4 of RFC 1035.* It reads the reserved length octets 64 to 191
  as labels and follows pointers that go forward (`DnsName.ReservedAccepted`, `DnsName.ForwardAccepted`). What it accepts
  is the expansion defined there if and only if it meets neither on its way (`DnsName.StrictIff`); an over-long label in
  the result tells exactly that it met a reserved octet (`DnsName.LabelsShort`).
- *Both UDP decoders recover what was encoded.* The Swift decoder drops datagrams without payload, and named ones of
  ten bytes or fewer (`Socks5.IpRoundTrip`, `Socks5.NameRoundTrip` give the exact conditions).
- *`add_connection` alone would be safe for UDP.* It writes the current generation, so a verdict that an edit has
  overtaken would be accepted; the stamp that follows is what prevents it (`UdpVerdicts.StampNeeded`).

## Model

| member | source | states |
|---|---|---|
| `RelayLifetime.RunInv` | Windows/src/pb_relay.c:1032-1232 | the pool invariant (who holds each direction, streams, list, buffers, abort position) holds after every run |
| `RelayLifetime.NextKeeps` | Windows/src/pb_relay.c:1032-1232 | every single step of any thread or of the kernel keeps that invariant |
| `RelaySteps.WorkStep` | Windows/src/pb_relay.c:1076-1152 | every action of a worker and every completion keeps it, whatever the outcome |
| `RelayLifetime.TearDownStep` | Windows/src/pb_relay.c:1061-1074 | every stage of releasing the last reference keeps it |
| `RelayInvariant.DispatchKeeps` | Windows/src/pb_relay.c:1128-1149 | the worker's switch goes to a task that fits the bytes still unsent, for every state and byte count; which one it is, is what `RelayTurns.AsksNext`, `RelayBlame.CleanEof` and `RelayBlame.FailureAborts` say |
| `RelayInvariant.PopKeeps` | Windows/src/pb_relay.c:1032-1039 | taking a buffer from the stack or the allocator leaves every buffer in one place |
| `RelayInvariant.PushKeeps` | Windows/src/pb_relay.c:1041-1048 | so does giving one back, with the pool full or not |
| `RelayInvariant.FreeKeeps` | Windows/src/pb_relay.c:1047-1047 | so does freeing the buffer that did not fit |
| `RelayList.LinkFirstKeeps` | Windows/src/pb_relay.c:1219-1226 | linking at the head prepends to a well-formed doubly linked list |
| `RelayList.UnlinkKeeps` | Windows/src/pb_relay.c:1064-1068 | splicing out removes exactly that connection and keeps links, counter and event right |
| `RelayTheorems.StreamIntegrity` | Windows/src/pb_relay.c:1076-1152 | in every reachable state the bytes sent are a prefix of those read; the gap is buf[off..len] in SEND and empty otherwise, and exactly what the buffer still holds while a packet is queued or a thread at work; nothing is missing after the half-close |
| `RelayTheorems.RunGrows` | Windows/src/pb_relay.c:1076-1152 | from any point of a run on, streams only grow, and after the half-close nothing more is read or sent |
| `RelayTheorems.ReverseUnaffected` | Windows/src/pb_relay.c:1076-1082 | the half-close leaves the other direction, the sockets' shutdown state and the reference count as they were; that an end of stream leads to it is `RelayBlame.CleanEof` |
| `RelayTheorems.StepOn` | Windows/src/pb_relay.c:1050-1152 | any step: streams grow, shut sockets stay shut, and once a connection can only go down every step on it lowers its rank |
| `RelayTheorems.DrainBound` | Windows/src/pb_relay.c:1120-1152 | once a connection can only go down, no schedule works on it more often than its rank |
| `RelayTheorems.RankBound` | Windows/src/pb_relay.c:1061-1152 | the rank is at most 33, and zero exactly when the connection is freed |
| `RelayTheorems.DrainMoves` | Windows/src/pb_relay.c:1061-1152 | until such a connection is freed, some step makes progress on it whenever the lock is free |
| `RelayTheorems.Lifetime` | Windows/src/pb_relay.c:1050-1082 | no run faults; refs counts the live directions; each has exactly one holder; unlink, both closes and free happen exactly once |
| `RelayTheorems.DeadStays` | Windows/src/pb_relay.c:1176-1182 | a freed connection is never touched again, and the pool abort never stands on one |
| `RelayTheorems.LiveList` | Windows/src/pb_relay.c:1061-1074 | the list holds exactly the published connections not yet unlinked, the counter is its length, the event is set iff it is empty |
| `RelayDrain.AfterAbort` | Windows/src/pb_relay.c:1176-1182 | after a pool abort every listed connection is closing, and shut or with a thread that can shut it; once that is through, every outstanding operation is cancelled |
| `RelayDrain.WinnerShuts` | Windows/src/pb_relay.c:1050-1059 | each action of the thread that won the exchange shuts one more socket |
| `RelayDrain.PoolAborts` | Windows/src/pb_relay.c:1176-1182 | once it has the lock, a pool abort is through after at most five actions per listed connection, whatever all other threads do meanwhile |
| `RelayDrain.WinnerReady` | Windows/src/pb_relay.c:1050-1059 | while a closing connection has an open socket, that thread can act |
| `RelayDrain.AbortFinishes` | Windows/src/pb_relay.c:1050-1059 | whatever is interleaved, at most two of its actions leave both sockets shut for good |
| `RelayDrain.AllShut` | Windows/src/pb_relay.c:1176-1182 | an aborted pool whose listed connections are shut can only go down, as a whole |
| `RelayDrain.StepSinks` | Windows/src/pb_relay.c:1061-1152 | from then on every effective step lowers the rank of the pool and none raises it |
| `RelayDrain.PoolDrains` | Windows/src/pb_relay.c:1184-1190 | so no continuation contains more actions and completions, over all connections together, than that rank |
| `RelayDrain.PoolRankBound` | Windows/src/pb_relay.c:1061-1152 | which is at most 33 for each connection ever started |
| `RelayDrain.RestIsDone` | Windows/src/pb_relay.c:1184-1190 | an aborted pool comes to rest only with every connection freed, the list empty and the done event signalled |
| `RelayTheorems.NoAdmission` | Windows/src/pb_relay.c:1219-1220 | after a pool abort nothing is admitted any more |
| `RelayTheorems.BufferPlaces` | Windows/src/pb_relay.c:1032-1118 | no buffer is owned twice or both owned and pooled, the pool has at most 256 without duplicates, a waiting direction owns none |
| `RelayTheorems.TransitPlaces` | Windows/src/pb_relay.c:1041-1048 | a buffer about to be freed by a thread is in no other place |
| `RelayTheorems.NoLeak` | Windows/src/pb_relay.c:1032-1118 | every allocated buffer is pooled, owned, or about to be freed |
| `RelayTheorems.StopFreesAll` | Windows/src/pb_relay.c:1184-1199 | after a stop every connection and every buffer is freed |
| `RelayDelivery.SendDelivers` | Windows/src/pb_relay.c:1111-1148 | however the kernel cuts a send, the direction ends with exactly buf[off..len] sent |
| `RelayDelivery.OwnStepIs` | Windows/src/pb_relay.c:1100-1149 | a successful step of a direction changes that direction and its buffer, and nothing else in the pool |
| `RelayDelivery.Foreign` | Windows/src/pb_relay.c:1032-1232 | while its destination is not shut, no other step of the pool touches a direction or its buffer |
| `RelayDelivery.Interleaved` | Windows/src/pb_relay.c:1032-1232 | so in every interleaving a direction fares as if it ran alone |
| `RelayDelivery.Delivers` | Windows/src/pb_relay.c:1100-1149 | in every interleaving in which its own steps succeed, a chunk that a direction reads and sends in pieces of any positive sizes is sent whole and in order; to whom, is `RelayWires.DeliversAcross` |
| `RelayDelivery.PassesEof` | Windows/src/pb_relay.c:1136-1139 | from any reachable state with a read outstanding, in every interleaving: a completion with no bytes, its packet, the switch and what that decides on end with the direction half-closed, unless its destination was shut meanwhile |
| `RelayDelivery.Undisturbed` | Windows/src/pb_relay.c:1032-1232 | while its destination is not shut, a direction that does no step of its own is left alone by any number of other steps |
| `RelayWires.RunWires` | Windows/src/pb_relay.c:1216-1217 | in every run dir[0] is from the client's socket to the proxy's and dir[1] the reverse: bytes received, bytes handed over and half-closes agree with the history of the sockets |
| `RelayWires.EndToEnd` | Windows/src/pb_relay.c:1216-1217 | in every run the bytes handed to the proxy are a prefix of those received from the client and vice versa, and a socket is half-closed only when it got everything the other one sent |
| `RelayWires.DeliversAcross` | Windows/src/pb_relay.c:1100-1149 | a chunk delivered in the sense of `RelayDelivery.Delivers` is received from the client and handed to the proxy, or the reverse |
| `RelayWires.EofAcross` | Windows/src/pb_relay.c:1076-1082 | the end of the client's stream half-closes the proxy's socket, and vice versa, in every interleaving |
| `RelayBlame.CleanEof` | Windows/src/pb_relay.c:1076-1082 | if moreover no step is a reason to abort, then nothing is closing or shut afterwards, and the other direction is where its own steps brought it |
| `RelayBlame.HasCause` | Windows/src/pb_relay.c:1129-1149 | in every run a connection that is closing or on its way there has had a reason: a failed operation, post or allocation, a send that moved nothing, or the abort of the pool |
| `RelayBlame.ClosingHasCause` | Windows/src/pb_relay.c:1050-1059 | in particular `closing` is only ever set after such a reason |
| `RelayBlame.FailureAborts` | Windows/src/pb_relay.c:1129-1149 | conversely each failure and each empty send aborts the connection within three more steps of its direction, in every interleaving |
| `RelayTurns.AsksNext` | Windows/src/pb_relay.c:1131-1148 | after a wait the direction asks the kernel for a read, after a read with bytes for a send, after a partial send for the rest, after a whole one for a wait if the chunk was shorter than 16384 bytes and a read otherwise; five steps of its own suffice, in every interleaving without a reason to abort |
| `RelayTurns.KeepsGoing` | Windows/src/pb_relay.c:1120-1152 | without such a reason a direction neither ends nor half-closes before a read of its own finds the end of the stream |
| `ConnChains.Forward.Lookup` | Windows/src/pb_conntrack.c:361-377 | the chain walk finds the node of a key, its position and predecessor, or shows there is none |
| `ConnChains.Forward.Push` | Windows/src/pb_conntrack.c:134-135 | pushing at the head prepends to one chain and changes no other |
| `ConnChains.Forward.Unlink` | Windows/src/pb_conntrack.c:366-374 | the chain loses exactly that node; all links stay right |
| `ConnChains.Reverse.Insert` | Windows/src/pb_conntrack.c:20-28 | the node is linked in the bucket its current destination hashes to |
| `ConnChains.Reverse.Unlink` | Windows/src/pb_conntrack.c:30-37 | the node leaves its bucket if it was in one; the table stays well formed |
| `ConnTrack.Tracker.Add` | Windows/src/pb_conntrack.c:39-138 | both indexes stay consistent and the map gains or overwrites exactly this key, port reuse included |
| `ConnTrack.Tracker.Rekey` | Windows/src/pb_conntrack.c:48-63 | re-keying a reused port in place keeps both indexes and changes one map entry |
| `ConnTrack.Tracker.Remove` | Windows/src/pb_conntrack.c:359-379 | the map loses exactly this key |
| `ConnTrack.Tracker.IsTracked` | Windows/src/pb_conntrack.c:264-281 | true exactly if the map has the key |
| `ConnTrack.Tracker.Get` | Windows/src/pb_conntrack.c:283-334 | returns the entry before the call, or none, and refreshes only its activity |
| `ConnTrack.Tracker.Stamp` | Windows/src/pb_conntrack.c:191-198 | overwrites only the generation of the UDP entry |
| `ConnTrack.Tracker.Fin` | Windows/src/pb_conntrack.c:381-394 | adds one side's FIN to the TCP entry and refreshes it |
| `ConnTrack.Tracker.Validate` | Windows/src/pb_conntrack.c:202-224 | true exactly for a live flow with these endpoints; otherwise the port's UDP entry is evicted |
| `ConnTrack.Tracker.FindSender` | Windows/src/pb_conntrack.c:162-182 | one reverse bucket finds a client iff a scan of the whole table would, and one of maximal activity |
| `ConnTrack.Tracker.ReplyTarget` | Windows/src/pb_relay.c:375-400 | the IPv4 reply path picks the same, and refreshes only the winner |
| `ConnTrack.Tracker.Sweep` | Windows/src/pb_conntrack.c:396-423 | the map keeps exactly the entries that are not stale, in the sense of `ConnSpec.SweptIs` |
| `ConnSpec.SweptIs` | Windows/src/pb_conntrack.c:396-423 | an entry survives a sweep exactly until 1800000 ms after its last activity, or 60000 ms once both sides have sent FIN, and unchanged |
| `ConnSpec.AcceptedRefreshes` | Windows/src/pb_conntrack.c:202-224 | an accepted UDP packet makes its flow answer for exactly 20000 ms more; a rejected one leaves no flow on the port |
| `ConnSpec.FinsAdd` | Windows/src/pb_conntrack.c:381-394 | the FIN of the application and that of the relay are kept apart, add up, and count as activity |
| `ConnTrack.NewTracker` | Windows/src/pb_conntrack.c:7-18 | the tracker with the program's own hash starts valid, empty and owned by the caller |
| `UdpVerdicts.RunInv` | Windows/src/ProxyBridge.c:385-534 | the invariant of both caches and the packet thread holds after every interleaving of packets, edits, ticks and sweeps |
| `UdpVerdicts.FreshFlow` | Windows/src/ProxyBridge.c:806-912 | an accepted PROXY flow was evaluated after every edit whose bump has happened |
| `UdpVerdicts.FreshDirect` | Windows/src/ProxyBridge.c:766-774 | the same for an accepted DIRECT entry |
| `UdpVerdicts.NeverBoth` | Windows/src/ProxyBridge.c:418-438 | the two caches never both answer for one 5-tuple |
| `UdpVerdicts.StampNeeded` | Windows/src/ProxyBridge.c:911-912 | between add and stamp an overtaken verdict would be accepted |
| `UdpVerdicts.RememberedIff` | Windows/src/pb_conntrack.c:243-262 | through any steps until the slot is overwritten, it answers exactly for that flow, for five seconds, iff no bump came since the verdict's snapshot |
| `UdpVerdicts.StampedIff` | Windows/src/pb_conntrack.c:191-224 | through any steps until another flow is added under the key, a stamped verdict answers exactly for its flow iff it was not evicted, was active within twenty seconds and no bump came since its snapshot |
| `UdpVerdicts.DirectFrom` | Windows/src/pb_conntrack.c:252-262 | in every run a flow in the DIRECT cache was once decided DIRECT, with a known owner, by an evaluation of its own |
| `UdpVerdicts.ProxyFrom` | Windows/src/pb_conntrack.c:39-138 | in every run a tracked UDP flow was once decided PROXY, through the proxy its entry names, by an evaluation of its own |
| `UdpVerdicts.Evaluated` | Windows/src/ProxyBridge.c:766-844 | a packet is evaluated exactly if neither cache answers for its flow when asked, whatever editors, clock, relay and cleanup do in between, and under the generation of its arrival |
| `TcpPath.BitsInv` | Windows/src/pb_internal.h:257-280 | in every run a direct bit implies a decided bit and the relay port has neither |
| `TcpPath.DecisionInv` | Windows/src/ProxyBridge.c:118-130 | with one family per port, a direct bit excludes a tracked connection |
| `TcpPath.RedirectedIff` | Windows/src/ProxyBridge.c:1006-1071 | in any state a segment of a tracked connection is redirected iff its port has no direct decision |
| `TcpPath.TrackedRedirected` | Windows/src/ProxyBridge.c:1045-1071 | with one family per port it always is, FIN and RST included |
| `TcpPath.StaysTracked` | Windows/src/ProxyBridge.c:985-1071 | only RST, a fresh SYN or idle expiry ends a tracked connection |
| `TcpPath.ResetForgets` | Windows/src/ProxyBridge.c:985-1071 | conversely a reset of either side ends the tracking at once, and after a fresh SYN the port is tracked exactly if the rules proxy it |
| `TcpPath.TrackedThroughout` | Windows/src/ProxyBridge.c:985-1197 | until one of the three happens, every segment of the connection is redirected |
| `TcpPath.DroppedIff` | Windows/src/ProxyBridge.c:1160-1165 | a segment is dropped iff it is outbound, not the relay's, not to a configured endpoint, has neither FIN nor RST, is subject to the rules, is judged by them (fresh SYN, or port neither tracked nor direct) and they say BLOCK |
| `TcpPath.ToRelayIff` | Windows/src/ProxyBridge.c:1045-1197 | a segment goes to the relay iff its connection is tracked and its port not direct, or the rules judge it and say PROXY |
| `TcpPath.PassesIff` | Windows/src/ProxyBridge.c:985-1164 | a segment passes as it is iff its destination is an endpoint, its port is direct, or it is judged and is a FIN or RST, not subject to rules, or DIRECT |
| `TcpPath.DirectFrom` | Windows/src/ProxyBridge.c:1096-1164 | in every run a direct bit goes back to a DIRECT verdict with a known owner for that port |
| `TcpPath.LeavesUnproxied` | Windows/src/ProxyBridge.c:976-1216 | in every run whatever leaves with its original destination is unchanged and had a reason: endpoint, a DIRECT verdict now or earlier for the port, FIN or RST, or no rules to ask |
| `TcpPath.HeardRun` | Windows/src/pb_conntrack.c:381-394 | over any run without RST, fresh SYN or expiry an entry records exactly the FINs of either side and the last activity |
| `TcpPath.Expiry` | Windows/src/pb_conntrack.c:396-423 | so from its first packet on a connection survives a sweep exactly until 1800000 ms after its last activity, and 60000 ms once both FINs were seen |
| `TcpPath.CrossFamilyLeak` | Windows/src/ProxyBridge.c:572-586 | a run in which a tracked IPv6 connection bypasses the relay because of an IPv4 verdict |
| `TcpPath.RoundTrip` | Windows/src/ProxyBridge.c:1019-1071 | the relay accepts the rewritten peer and its reply is rewritten to the original endpoints, iff not port 0 on IPv6 |
| `TcpPath.TurnTurn` | Windows/src/ProxyBridge.c:589-632 | rewriting the reply undoes rewriting the request, loopback or not, for both families |
| `TcpPath.StartTracks` | Windows/src/ProxyBridge.c:1166-1197 | a first packet that the rules proxy is redirected at once and remembered with both endpoints, its port decided and not direct |
| `TcpPath.EntryKeptRun` | Windows/src/ProxyBridge.c:985-1071 | short of RST, a fresh SYN or expiry, no run changes the endpoints an entry names |
| `TcpPath.EndToEnd` | Windows/src/ProxyBridge.c:985-1197 | so from the first packet S:sp -> D:dp on, the relay accepts the peer and each of its replies arrives as D:dp -> S:sp |
| `TcpPath.DirectThroughout` | Windows/src/ProxyBridge.c:999-1012 | a port decided DIRECT passes unchanged over whole runs, until FIN, RST, a fresh SYN or a toggle |
| `TcpPath.DirectIff` | Windows/src/ProxyBridge.c:999-1012 | after a segment its port is direct iff the segment neither opens nor ends a connection and it was, or the rules now say DIRECT for a known owner |
| `TcpPath.ToggleForgets` | Windows/src/ProxyBridge.c:1243-1256 | after a toggle every segment of an untracked connection is judged anew |
| `PortBits.SetTest` | Windows/src/pb_internal.h:266-275 | or-ing the mask into a word sets its bit and no other |
| `PortBits.ClearOther` | Windows/src/pb_internal.h:276-280 | and-ing its complement leaves every other bit |
| `PortBits.WithPorts` | Windows/src/pb_internal.h:266-275 | on the whole bitmap that adds exactly this port to the set the words denote |
| `PortBits.WithoutPorts` | Windows/src/pb_internal.h:276-280 | and this removes exactly this port |
| `PortBits.Decisions.IsDecided` | Windows/src/pb_internal.h:258-261 | reading the bit of a port tells whether it is in the set |
| `PortBits.Decisions.SetDirect` | Windows/src/pb_internal.h:266-270 | adds the port to both sets, whatever other bits share the words |
| `PortBits.Decisions.SetDecided` | Windows/src/pb_internal.h:271-275 | adds the port to the decided set only |
| `PortBits.Decisions.Clear` | Windows/src/pb_internal.h:276-280 | removes the port from both sets |
| `PortBits.Decisions.ClearAll` | Windows/src/ProxyBridge.c:1249-1253 | zeroing the words empties both sets |
| `TcpEngine.Engine.Handle` | Windows/src/ProxyBridge.c:976-1216 | hash chains and bitmap words, updated in place, refine the model: after any segment they denote exactly its next state, and the header is exactly its verdict, of which `TcpPath.DroppedIff`, `ToRelayIff` and `PassesIff` say what it is |
| `TcpEngine.Engine.Toggle` | Windows/src/ProxyBridge.c:1243-1256 | a toggle refines the model's |
| `Glob.WildcardMatch` | Windows/src/pb_rules.c:363-389 | the recursive matcher accepts exactly the declarative `*` language, case folded |
| `Glob.GreedyMatch` | MacOS/ProxyBridge/extension/AppProxyProvider.swift:127-143 | the index loop of the Swift matcher terminates and computes `Greedy` |
| `Glob.GreedyCorrect` | MacOS/ProxyBridge/extension/AppProxyProvider.swift:510-537 | remembering only the last star decides the language from every state of the loop |
| `Glob.GreedyIff` | MacOS/ProxyBridge/extension/AppProxyProvider.swift:510-537 | it is right for all patterns iff the text has no `*` before its last character |
| `Glob.GreedyWrong` | MacOS/ProxyBridge/extension/AppProxyProvider.swift:131-134 | on every other text there is a pattern it gets wrong |
| `Glob.MatchersAgree` | Windows/src/pb_rules.c:363-389 | on those texts both platforms give the same answer |
| `Rules.MatchRule` | Windows/src/pb_rules.c:613-722 | the loop with the deferred wildcard answers with the action and proxy of the first specific rule that matches; if there is none, of the first eligible fully wildcard rule; if there is none either, with DIRECT |
| `Rules.FirstSpecificIs` | Windows/src/pb_rules.c:613-722 | that verdict's first choice is the matching specific or filtered rule of least index |
| `Rules.FirstFallbackIs` | Windows/src/pb_rules.c:738-821 | its second choice is the eligible fully wildcard rule of least index |
| `Rules.VerdictIs` | Windows/src/pb_rules.c:697-717 | the verdict is that of the rule that decides: the first specific match, or without one the first applicable wildcard; DIRECT if none does |
| `Rules.DecidingRule` | Windows/src/pb_rules.c:626-704 | the deciding rule is enabled, fits the protocol, and none of its filters excludes the query; a TCP rule decides UDP only to proxy DNS |
| `Rules.MatchingRule` | Windows/src/pb_rules.c:626-717 | an enabled rule whose filters all match is passed over only for an earlier one, or, if fully wildcard, for a specific one |
| `Rules.CheckedBy` | Windows/src/pb_rules.c:831-888 | the check of a packet, case by case: bypassed loopback and own traffic, unknown owner under either policy, and the deciding rule's action with BLOCK in place of a proxy that cannot be used |
| `Rules.FailsClosed` | Windows/src/pb_rules.c:831-888 | a PROXY rule is never answered DIRECT, PROXY only with a usable proxy, and with fail-closed an unknown owner is blocked |
| `Rules.ConfigFor` | Windows/src/pb_proxy.c:6-17 | the proxy of an id is the first configured one with that id, else the first of all |
| `Rules.WildPositionIrrelevant` | Windows/src/pb_rules.c:738-821 | where the fully wildcard rules stand among the others changes no verdict |
| `Rules.SwapNeighbours` | Windows/src/pb_rules.c:613-722 | swapping one with a specific neighbour changes no verdict |
| `Rules.DnsFlag` | Windows/src/pb_rules.c:633-643 | the UDP DNS flag matters for UDP port 53 only, and when off that is never proxied |
| `Rules.ActiveFlags` | Windows/src/pb_rules.c:1271-1301 | the flags say whether an enabled rule, and an enabled rule with a domain filter, exists |
| `Rules.Inactive` | Windows/src/pb_rules.c:1271-1301 | a false active flag means DIRECT for every input |
| `Rules.SkippedLookup` | Windows/src/pb_rules.c:618-623 | a false domain flag means the DNS cache cannot change the verdict |
| `DnsName.ParseName` | Windows/src/pb_dns.c:135-172 | terminates, stays in bounds, writes the dotted name and a terminator, and advances the offset inside the message |
| `DnsName.WalkIff` | Windows/src/pb_dns.c:135-172 | it accepts exactly the names with at most ten pointers whose dotted form fits, reading length octets as it does |
| `DnsName.StrictIff` | Windows/src/pb_dns.c:153-165 | what it accepts is the expansion of section 4.1.4 of RFC 1035 iff it meets no reserved length octet and no pointer that does not go back |
| `DnsName.LabelsShort` | Windows/src/pb_dns.c:162-168 | a returned label exceeds 63 octets iff a reserved length octet was met |
| `DnsName.ReservedAccepted` | Windows/src/pb_dns.c:162-165 | every length octet of 64 to 191 is taken for a label |
| `DnsName.ForwardAccepted` | Windows/src/pb_dns.c:153-160 | a pointer may go forward |
| `DnsName.WalkEnds` | Windows/src/pb_dns.c:146-161 | the offset after an accepted name is strictly advanced and within the message |
| `DnsName.LegalDecodes` | Windows/src/pb_dns.c:135-172 | every name legal under section 2.3.4 of RFC 1035 with at most ten pointers decodes into 256 bytes |
| `DnsName.PutLabel` | Windows/src/pb_dns.c:162-169 | one label extends the dotted text in place |
| `Socks5.Socket.RecvN` | Windows/src/pb_util.c:171-180 | returns exactly the next n bytes of the stream however it is cut, or fails if it ends before |
| `Socks5.ReadConnectReply` | Windows/src/pb_socks5.c:10-31 | succeeds iff a complete success reply is there, and leaves exactly what follows it |
| `Socks5.ReplyRecognised` | Windows/src/pb_socks5.c:17-29 | every success reply of section 6 of RFC 1928, of any address type, is recognised whatever follows |
| `Socks5.ReadReplyThen` | Windows/src/pb_socks5.c:10-31 | reading such a reply from any segmentation succeeds and leaves the following stream unread |
| `Socks5.EncapsulateInto` | Windows/src/pb_relay.c:256-299 | the send buffer holds the header of section 7 of RFC 1928 and the payload; empty or oversized ones are dropped |
| `Socks5.EncapsulateSwift` | MacOS/ProxyBridge/extension/AppProxyProvider.swift:1693-1728 | the macOS encoder produces the same bytes, refusing exactly oversized payloads and names |
| `Socks5.IpRoundTrip` | Windows/src/pb_relay.c:359-437 | for IP destinations the C decoder recovers every datagram, the Swift one exactly those with payload |
| `Socks5.OnTheWire` | Windows/src/pb_relay.c:256-299 | octet by octet: address type codes 1, 3 and 4, version 5 in a reply, and the port with its high octet first |
| `Socks5.Port443` | Windows/src/pb_relay.c:359-437 | a datagram for 10.0.0.1:443 starts 0 0 0 1 10 0 0 1 1 187, and those octets are read as that endpoint |
| `Socks5.NameRoundTrip` | MacOS/ProxyBridge/extension/AppProxyProvider.swift:1730-1774 | a named datagram comes back iff it has payload and is longer than ten bytes |
| `MacFlows.RunInv` | MacOS/ProxyBridge/extension/AppProxyProvider.swift:743-809 | the invariant of handshakes and associations holds after every interleaving |
| `MacFlows.ClaimedOnce` | MacOS/ProxyBridge/extension/AppProxyProvider.swift:907-949 | an armed handshake is still pending or was claimed by exactly one contender |
| `MacFlows.WaitsUntil` | MacOS/ProxyBridge/extension/AppProxyProvider.swift:907-949 | a waiting handshake is over exactly when it completes, its own timer fires, its connection is closed or re-armed, or a stop begins |
| `MacFlows.ArmsIff` | MacOS/ProxyBridge/extension/AppProxyProvider.swift:743-809 | a handshake can be armed exactly while no stop has begun since the last start |
| `MacFlows.CompletedPublishes` | MacOS/ProxyBridge/extension/AppProxyProvider.swift:1458-1495 | a handshake that completes while the proxy runs ends in an association for its flow when it is inserted, whatever happens in between, unless a stop has begun |
| `MacFlows.ArmedPublishes` | MacOS/ProxyBridge/extension/AppProxyProvider.swift:907-1495 | the whole way from arming: if nobody else claims it first, the association is published for the flow it was armed for |
| `MacFlows.StopSafe` | MacOS/ProxyBridge/extension/AppProxyProvider.swift:779-809 | while stopping nothing is pending; after the second section no association is left |
| `MacFlows.StopHolds` | MacOS/ProxyBridge/extension/AppProxyProvider.swift:1481-1495 | until the next start nothing in flight can insert either again |
| `MacFlows.LeavesIff` | MacOS/ProxyBridge/extension/AppProxyProvider.swift:1519-1536 | in every reachable state a step takes an association off its flow iff it is its own callback, a newer insert, a stop, or a sweep that finds it idle |
| `MacFlows.LeavesOnlyBy` | MacOS/ProxyBridge/extension/AppProxyProvider.swift:1458-1536 | over whole runs, with nothing assumed about other callbacks and sweeps, it has left only through one of these |
| `MacFlows.ReplacementSafe` | MacOS/ProxyBridge/extension/AppProxyProvider.swift:889-905 | so within the idle timeout of its last activity neither callbacks of what it replaced nor sweeps that collected the flow before it was there remove a replacement |
| `MacFlows.ActiveSafe` | MacOS/ProxyBridge/extension/AppProxyProvider.swift:889-905 | for 120000 ms after a datagram an association stays, whatever sweeps and other callbacks do |
| `MacFlows.IdleReaped` | MacOS/ProxyBridge/extension/AppProxyProvider.swift:889-905 | an association that a sweep finds idle for more than 120000 ms is gone when the sweep comes back to it, unless it was active since |
| `MacFlows.FateFinal` | MacOS/ProxyBridge/extension/AppProxyProvider.swift:1458-1536 | every association leaves the map once and its fate is final |

## Left out

- WinDivert, Winsock, NetworkExtension, threads and timers: they appear only as inputs of steps.
- A toggle that runs beside the packet thread: it is one step of the model, though it clears the bitmaps word by word.
- The lock release inside `cleanup_stale_connections`: the sweep is atomic, so what a concurrent change does to its cursor is not modelled.
- Update in place of the UDP DIRECT array, the relay records and the macOS dictionaries: they are values in step systems; the DIRECT array is a map from slots.
- Wrap-around of the generation counter, and owner events, which bump before they insert.
- `begin_connection_worker` / `end_connection_worker`: connection handlers are taken to have finished when the pool stops.
- Failed attachment of a socket to the completion port in `relay_start`: the record is freed before anyone can see it.
- The blocking fallback relay, HTTP CONNECT, credentials, and the proxy test calls.
- The token lists for processes, hosts, ports and domains, and finding the owner of a packet: parameters of the rule model.
- Editing and moving rules: the rule list is an input.
- The DNS cache and the record loop of `snoop_dns_response` around the name parser.
- Rewriting of UDP packets and the select loop of the UDP relay: only verdicts, encapsulation and reply lookup are modelled.
- Allocation failures outside the relay's buffers.
- Address texts on macOS and Unicode case folding: addresses are bytes, and `Glob` folds ASCII letters.
- Logging, connection log, PID cache, ring buffers, and the Swift rule selection.
