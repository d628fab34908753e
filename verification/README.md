# Verified models of the spaceship proxy

This project models the stateful cores of the spaceship proxy in Dafny and proves what each of them
promises, for every input and every interleaving.

* **SOCKS5 UDP relay** — the resource limiters, the NAT table and the entry's close-once are classes
  (`Limiter.dfy`, `NatTable.dfy`), proved against functions on values. `UdpRelay.dfy` is a transition
  system over those functions: any number of relays, of `getOrCreateNAT` calls merged by singleflight,
  of reverse relays, closers and settings changes, interleaved step by step. `UdpRelayProof.dfy` holds
  its invariant and theorems. `NatKey.dfy` is the flow key, `SocksCodec.dfy` the wire formats of sections
  5, 6 and 7 of RFC 1928 with the two parsers, the reply buffer and the in-place reverse path.
* **Router** — `RouteTable.dfy` is the CLOCK cache as a map and a list changed in place, refining a closed
  form; `HostName.dfy` host normalisation; `Route.dfy` one rule with its match caches; `Router.dfy` the
  lookup through the cache and the edits; `RouterRuns.dfy` concurrent lookups, edits and optimistic rebuilds.
* **Tunnel session** — `SessionWire.dfy` has the messages and both peers' languages, `ServerSession.dfy` the
  server side of a stream (five goroutines), `TcpClient.dfy` and `PacketClient.dfy` the two client sides,
  `Deadline.dfy` the deadline. `StreamSession.dfy` and `DatagramSession.dfy` put a client and the server
  together over a stream that keeps order and may be cut anywhere.
* **Connection pool** — `ConnPool.dfy` has the wrapper and queue objects, `PoolRuns.dfy` lookups, racing
  replacements and destruction, `LoadBalance.dfy` how even the loads stay.

A transition system is a state datatype, one predicate per step and `Run`, a sequence of states each reached
from the one before by a step of some goroutine. What happens while a mutex is held without a blocking
operation, and touches only what that mutex guards, is one step; tests of a context or a deadline, which no mutex
guards, sends, receives, reads, writes, dials and waits are steps of their own, and their
outcomes, timers and cancellation are arbitrary. A theorem about a run takes any run and any index in it.

Six statements turned out false as one would first write them; the code is kept and each comes with its
exact condition:

* the route cache is transparent exactly for hosts that settle (`Router.TransparentIff`; a host with white space
  before its trailing dots does not);
* flow keys of two clients can collide exactly when one client text continues the other with a bar and a text that
  can begin a target (`NatKey.KeysCollideIff`); no two UDP addresses do (`NatKey.RealClientKeyInjective`) unless a
  zone could hold a colon (`NatKey.BarInZoneCollides`);
* the TCP client never calls a server message invalid (`StreamSession.ClientNeverObjects`), but may find a payload
  empty, exactly when the server dials the address as a datagram target (`StreamSession.EmptyPayloadIff`);
* datagram boundaries survive exactly when the address is not `tcp://` before a host and port
  (`DatagramSession.BoundariesKeptIff`);
* a Send can begin after Close was called (`PacketClient.SendAfterClose`), exactly one and only of a writer already
  past its tests (`PacketClient.OneSendAfterClose`), and none once CloseSend has started
  (`PacketClient.NoSendAfterCloseSend`);
* loads stay within p of each other exactly as long as no 32-bit counter wraps (`LoadBalance.BalanceIff`,
  `LoadBalance.UseKeepsIff`).

## Model

| member | source | states |
|---|---|---|
| `ResourceLimiter.Limiter.Acquire` | internal/socks/udp.go:178-193 | grants a unit exactly while the total and the client stand below their caps, a cap of 0 being none; exactly that client and the total go up by one, and only then |
| `ResourceLimiter.Limiter.Release` | internal/socks/udp.go:195-209 | gives one unit of that client back if it holds one, touches no other client and forgets a client at zero |
| `ResourceLimiter.AcquireValid` | internal/socks/udp.go:178-193 | an acquisition keeps total equal to the sum over clients, all counts positive and both caps |
| `ResourceLimiter.ReleaseValid` | internal/socks/udp.go:195-209 | a release keeps the same |
| `ResourceLimiter.TallyAcquire` | internal/socks/udp.go:178-193 | a granted unit is one more for exactly that client's holders |
| `ResourceLimiter.TallyReleaseFirst` | internal/socks/udp.go:195-209 | a holder's release removes exactly its own unit; the guard against surplus releases never fires |
| `ResourceLimiter.TallyHandOver` | internal/socks/udp.go:724-737 | passing a unit from a dial to its entry leaves the limiter exact |
| `ResourceLimiter.NatEntry.Close` | internal/socks/udp.go:429-439 | only the first close releases, to the limiter and client the entry was charged to |
| `NatTable.Table.Install` | internal/socks/udp.go:363-391 | keeps a taken key and says so, otherwise stores the entry; evicts exactly when the table is full, changes no other key and reports the one that went |
| `NatTable.InstallBounded` | internal/socks/udp.go:363-391 | the table stays within its limit; a victim is taken exactly for a new key in a full table, has a smallest stamp, and nothing else is lost |
| `NatTable.Table.DeleteIf` | internal/socks/udp.go:393-401 | removes a key exactly if it names the expected entry, touches nothing else and says which |
| `NatTable.Table.Drain` | internal/socks/udp.go:418-427 | returns all entries, each once, and empties the table |
| `NatKey.ItoaInverse` | internal/socks/request.go:57-62 | a printed port reads back |
| `NatKey.AddressInjective` | internal/socks/request.go:57-62 | host text and port are determined by the joined address, IPv6 brackets included |
| `NatKey.KeyInjective` | internal/socks/udp.go:668-673 | client, host text and port are determined by the key when neither client text holds a bar |
| `NatKey.KeysCollideIff` | internal/socks/udp.go:668-673 | two client texts can share a key, over all targets a datagram header can name, exactly when one continues the other with a bar and a text that can begin such a target: without a colon, or opening a bracket, and short enough |
| `NatKey.ClientKeyInjective` | internal/socks/udp.go:668-673 | for client texts that are a joined host and port, the key determines client host and port, target host and port, while the client hosts hold no bar |
| `NatKey.RealClientKeyInjective` | internal/socks/udp.go:668-673 | for the UDP addresses the relay admits, an IP and perhaps a zone without a colon, the key determines everything, bars or not |
| `NatKey.BarInZoneCollides` | internal/socks/udp.go:668-673 | with a bar and a colon in an IPv6 zone two such texts do collide, for every client and every continuation that fits |
| `UdpRelayProof.NextRefs` | internal/socks/udp.go:675-771 | every step keeps entries, calls, relays and reverse relays naming each other correctly |
| `UdpRelayProof.NextRest` | internal/socks/udp.go:675-771 | every step keeps one flight per key and somebody bound to close every open entry, through the store-then-recheck of `done` |
| `UdpRelayProof.NextBudget` | internal/socks/udp.go:103-117 | every step keeps every limiter, current or replaced, equal to what is held from it |
| `UdpRelayProof.NatBudgetConserved` | internal/socks/udp.go:715-748 | in every state a NAT limiter's total is the sum of its clients and counts exactly dials holding a unit plus unclosed entries over all relays; caps hold |
| `UdpRelayProof.AssociationBudgetConserved` | internal/socks/udp.go:508-544 | the same for association limiters and the associations that hold their unit |
| `UdpRelayProof.TableCapped` | internal/socks/udp.go:363-391 | no association ever holds more entries than its own limit, 64 unless one was configured |
| `UdpRelayProof.ConfiguredCapsHold` | internal/socks/udp.go:93-117 | the limiters a settings change installs carry the caps it was called with, each its own or its default, and keep within them for the rest of the run |
| `UdpRelayProof.RefusedOnlyAtCap` | internal/socks/udp.go:715-738 | a call is refused for the budget only with a limiter it may be charged to at a cap, and granted a unit only below both |
| `UdpRelayProof.ClosedRefuses` | internal/socks/udp.go:675-680 | a call that has yet to test `done` when it is closed gets nothing but the refusal |
| `UdpRelayProof.ShutdownLeavesNothing` | internal/socks/udp.go:903-922 | once Close has returned and no call is mid-flight: table empty, every entry closed, no unit held |
| `UdpRelayProof.EverythingReturned` | internal/socks/udp.go:903-922 | with all associations gone and no call under way every limiter ever installed is back at zero |
| `UdpRelayProof.FlowIsolation` | internal/socks/udp.go:675-771 | an entry handed to a caller was built for the association, client and target the call was made with, and stays so, for bar-free client texts and for all texts of UDP addresses |
| `UdpRelayProof.ReverseOnlyToOwnClient` | internal/socks/udp.go:814-890 | every datagram a reverse relay wrote went to its entry's client |
| `UdpRelayProof.LeavesTableOnly` | internal/socks/udp.go:393-401 | in any step from any state an entry leaves its table only as the reported victim, by the drain or by its own flow, never by an older flow with the same key |
| `UdpRelayProof.InstallsFresh` | internal/socks/udp.go:740-748 | inside its flight a call always installs: the branch for a taken key is dead |
| `SocksCodec.WireUnique` | internal/socks/udp.go:235-288 | the address grammar is prefix-free |
| `SocksCodec.ReadAddrExact` | internal/socks/request.go:308-355 | an address is read exactly from the strings that begin with an encoded one, consuming that encoding |
| `SocksCodec.ParseUdpHeader` | internal/socks/udp.go:235-288 | the parser with its moving offset computes the specified header or error on every buffer |
| `SocksCodec.UdpParseExact` | internal/socks/udp.go:235-288 | accepted exactly: two zero bytes, any FRAG, an encoded address; the payload begins behind it; exactly when the type is reported unknown |
| `SocksCodec.MarshalIsWire` | internal/socks/udp.go:291-321 | a marshalled header is the three zero bytes and the encoding of the normalised address |
| `SocksCodec.MarshalExact` | internal/socks/udp.go:291-321 | which addresses marshal, as what, and exactly when a name is too long; IPv4-mapped addresses go out as IPv4 |
| `SocksCodec.HeaderLayout` | internal/socks/udp.go:291-321 | the bytes of a header: zeros, type, address with the length of a name in front, port with its high byte first |
| `SocksCodec.MarshalThenParse` | internal/socks/udp.go:291-321 | a marshalled header before any payload parses back to the normalised address, FRAG 0, offset equal to its length, at most 262 |
| `SocksCodec.ParseThenMarshal` | internal/socks/udp.go:235-321 | re-marshalling an accepted FRAG 0 header gives its bytes back exactly unless the address is IPv4-mapped IPv6 or an empty name |
| `SocksCodec.ReadAddrSpec` | internal/socks/request.go:308-355 | the stream parser computes the same specified address and consumes exactly its bytes, or the same error |
| `SocksCodec.ParseBoth` | internal/socks/request.go:308-355 | both parsers at work on the same bytes accept together, with equal address and equal bytes used, and report an unknown type together |
| `SocksCodec.SendReply` | internal/socks/request.go:359-393 | a reply is written exactly for a missing address and for an IP of 4 or 16 bytes; it is version, code, zero and the encoding of the bound address |
| `SocksCodec.ReplyReadBack` | internal/socks/request.go:359-393 | reading a reply from its address-type byte returns the bound address |
| `SocksCodec.EmitReverse` | internal/socks/udp.go:821-890 | the reused buffer ends up holding exactly header then payload, within bounds |
| `RouteTable.Table.Set` | internal/router/table.go:38-71 | the table after it, against the one before: the pair is stored, a known key or room left changes no other, and a full table loses exactly its rearmost unreferenced entry, or the rearmost if all are referenced |
| `RouteTable.Table.Scan` | internal/router/table.go:54-60 | the scan ends with an unreferenced entry at the rear, having rotated and cleared only referenced ones |
| `RouteTable.Table.Evict` | internal/router/table.go:53-65 | drops the rearmost unreferenced entry, or the rearmost if all are referenced; cleared suffix, then untouched prefix |
| `RouteTable.Table.Get` | internal/router/table.go:73-87 | answers from the list and marks the entry referenced |
| `RouteTable.Table.Reset` | internal/router/table.go:89-95 | empties the table |
| `RouteTable.RotationIsEvicted` | internal/router/table.go:53-65 | rotating until an unreferenced entry is at the rear and dropping it is the closed form of eviction |
| `RouteTable.EvictedKeeps` | internal/router/table.go:53-65 | eviction shortens the list by one, keeps keys distinct and changes no pair |
| `RouteTable.OnlyVictimLeaves` | internal/router/table.go:53-65 | every entry but the victim stays |
| `RouteTable.SetListCorrect` | internal/router/table.go:38-71 | Set stays within the bound with keys distinct, stores the new pair and changes no pair it keeps |
| `RouteTable.SetListStored` | internal/router/table.go:38-71 | the pairs that must be there after Set: a known key keeps all others and the size, a new one below the bound adds one pair, at the bound exactly one goes, the rearmost unreferenced or else the rearmost |
| `RouteTable.ReadSurvives` | internal/router/table.go:73-87 | an entry read since survives the next eviction while another unreferenced one is there |
| `HostName.NormalForm` | internal/utils/net.go:41-49 | a non-empty normal form holds no capital letter A to Z, no space in front and no dot at the end |
| `HostName.NormalizeHostIs` | internal/utils/net.go:41-49 | a text that is white space, a name, dots, white space normalises to that name in lower case |
| `HostName.CutExists` | internal/utils/net.go:41-49 | every text has such parts, the name without white space in front or dot at the end |
| `HostName.CaseBlind` | internal/utils/net.go:41-49 | hosts that differ in the case of letters only have one normal form |
| `HostName.RouteKeyIdempotentIff` | internal/router/cache.go:46-51 | normalising a key again changes nothing exactly for hosts that settle |
| `HostName.NoInnerSpaceSettles` | internal/utils/net.go:41-49 | every host without inner white space settles |
| `HostName.WarmHost` | internal/utils/net.go:41-49 | a host whose lookup stores a route under a form that is not its own key |
| `HostName.SettlesByNormalForm` | internal/utils/net.go:41-49 | the condition on the text, dots and white space at the end, is the condition on the normal form |
| `Routing.DomainMatchIff` | internal/router/route.go:170-188 | a domain rule matches exactly the names that equal, or end with a dot and, a non-empty normalised source |
| `Routing.MatchSuffixes` | internal/router/route.go:179-188 | the label-stripping loop ends and finds exactly the label suffixes in the set |
| `Routing.BuildHostSet` | internal/router/route.go:106-118 | the set of non-empty normalised sources |
| `Routing.BuildPrefixes` | internal/router/route.go:120-132 | the trimmed CIDR sources in order, or failure exactly when one does not parse |
| `Routing.BuildPatterns` | internal/router/route.go:133-144 | the untrimmed regex sources in order, or failure exactly when one does not compile |
| `Routing.RouteRule.GenerateCache` | internal/router/route.go:93-148 | builds exactly the cache of the rule's type, or fails and says so |
| `Routing.RouteRule.Match` | internal/router/route.go:151-202 | answers the match relation of the rule's type |
| `Routing.MatchesIff` | internal/router/route.go:93-202 | with its cache built a rule matches exactly if it is a default rule or one of its sources matches, and it compiles exactly if its type is known and all its sources do |
| `Router.RouterState.GetRoute` | internal/router/cache.go:53-61 | hit or scan: decision and new cache are those of the lookup function, the cache keeps agreeing with the rules, and a settling host gets the destination of the rule that matches with none before it, or none exactly when no rule matches |
| `Router.RouterState.ScanRoutes` | internal/router/routes.go:23-38 | the loop returns a destination exactly when a rule matches: that of the one with no matching rule before it |
| `Router.FirstMatchIff` | internal/router/routes.go:23-38 | a decision is the first match exactly if it is the destination of a matching rule with none before it, or none while no rule matches |
| `Router.RouterState.ScanAndRemember` | internal/router/routes.go:23-38 | the scan stores what it found under the key it scanned for |
| `Router.RouterState.PrepareRoutes` | internal/router/cache.go:116-130 | fresh clones with built caches, or failure exactly when one does not compile |
| `Router.RouterState.AddToFirstRoute` | internal/router/cache.go:17-28 | a compiling rule goes in front, the version rises and the cache is empty; otherwise nothing changes |
| `Router.RouterState.AddToLastRoute` | internal/router/cache.go:30-41 | the same at the back |
| `Router.RouterState.SetRoutes` | internal/router/cache.go:102-114 | the same for a whole list |
| `Router.LookupAgrees` | internal/router/cache.go:53-61 | a lookup keeps every cached key on the destination of the first rule matching it |
| `Router.Transparent` | internal/router/cache.go:53-61 | with any agreeing cache a settling host is decided as with an empty one, by the rule that matches with none before it |
| `Router.TransparentIff` | internal/router/cache.go:46-61 | a host is decided as with an empty cache after every series of lookups exactly if it settles |
| `Router.UnsettledDiffers` | internal/router/cache.go:46-61 | for every other host: rules and one earlier lookup that change its decision |
| `Router.InnerSpaceExample` | internal/utils/net.go:41-49 | rules under which one written-out host is decided differently after another lookup |
| `RouterRuns.CacheAlwaysAgrees` | internal/router/cache.go:53-114 | in every run of lookups, edits, rebuilds and evictions each cached key maps to the destination of an installed rule that matches it with none before |
| `RouterRuns.DecisionsTransparent` | internal/router/cache.go:53-61 | a concurrent lookup of a settling host, from its start to its decision, decided as with an empty cache under the rules installed at a moment between at which it held the lock |
| `RouterRuns.RulesStableWhileReading` | internal/router/cache.go:53-61 | from taking the read lock to leaving, a lookup sees one set of rules and one version |
| `RouterRuns.NoLostUpdate` | internal/router/cache.go:78-114 | the installed rules are always the successful edits applied in order |
| `RouterRuns.EditTakesEffect` | internal/router/cache.go:17-41 | an edit leaves all rules as they were behind or before the new one, or puts the new list in their place; the version rises and the cache is empty |
| `RouterRuns.PublishChangesNothing` | internal/router/cache.go:89-98 | a rebuild publishes the rules it replaces, with a new version and an empty cache |
| `RouterRuns.RetryIsSomeonesSuccess` | internal/router/cache.go:89-93 | a retry is caused by another writer's success, and there are no more retries than those |
| `SessionWire.ServerLanguageIff` | internal/transport/rpc/server/server.go:135-163 | the server's language is exactly (Error or Accepted Session*)? EOF? |
| `SessionWire.ResolvedFamily` | internal/transport/rpc/server/forwarder.go:26-53 | which family a header resolves to and which address: a scheme decides and is taken off, then the typed field, then the configured network; the IPv4 setting keeps the family |
| `SessionWire.FamilyKept` | internal/transport/common.go:49-61 | forcing IPv4 keeps the family, leaves no dual-stack or IPv6 name and changes no other name |
| `ServerSession.Forwarder.CopyClientToTarget` | internal/transport/rpc/server/forwarder.go:248-271 | one message writes what it carries, or a part and stops; exactly when it goes on, ends the stream or is invalid: an empty payload ends a stream and is a datagram otherwise |
| `ServerSession.ForwardConveys` | internal/transport/rpc/server/forwarder.go:248-271 | what one message adds is a prefix of what it carried, whole unless the loop ends |
| `ServerSession.NextInv` | internal/transport/rpc/server/forwarder.go:93-246 | every step of the five goroutines keeps the session invariant |
| `ServerSession.SendsNeverOverlap` | internal/transport/rpc/server/forwarder.go:93-206 | the server is never inside two Sends on a stream |
| `ServerSession.TraceLanguage` | internal/transport/rpc/server/server.go:135-163 | in every run the sends, and those that get out, form (Error or Accepted Session*)? EOF? |
| `ServerSession.AcceptedOrError` | internal/transport/rpc/server/forwarder.go:197-217 | Accepted and Error never both occur |
| `ServerSession.RefusalTold` | internal/transport/rpc/server/forwarder.go:196-205 | a refused dial, and nothing else, makes the server send Error |
| `ServerSession.EndOfSession` | internal/transport/rpc/server/server.go:145-163 | Proxy returns having sent EOF unless the first error was a cancelled stream |
| `ServerSession.FirstFaultKept` | internal/transport/rpc/server/forwarder.go:273-303 | the error the group keeps is the first |
| `ServerSession.CancelledDownload` | internal/transport/rpc/server/forwarder.go:146-153 | a download under way when the context is done ends with the context's error |
| `ServerSession.ConnectionClosedOnce` | internal/transport/rpc/server/forwarder.go:83-128 | the target connection is closed at most once, exactly once by Proxy's return if dialled; the once-guard is not spent without one |
| `ServerSession.CarriedToTarget` | internal/transport/rpc/server/forwarder.go:208-271 | what reaches the target is a prefix of what the messages carried, and all of it while the loop waits for the next |
| `ServerSession.CarriedBack` | internal/transport/rpc/server/forwarder.go:156-167 | everything the connection gave, with an error or without, is sent but for the chunk in hand: all bytes of a stream, every datagram as it was; a Read with an error is the last; a prefix of that gets out |
| `ServerSession.InvalidMeansMalformed` | internal/transport/rpc/server/forwarder.go:169-178 | an invalid message is reported only for input outside the client's language |
| `TcpClient.Forwarder.CopyTargetToSRC` | internal/transport/rpc/client/forwarder.go:138-183 | one message: what the writer takes, the signal, the close, and exactly when it ends in which error |
| `TcpClient.HandleInvalid` | internal/transport/rpc/client/forwarder.go:138-183 | a message called invalid or of unknown status is none of the server's language; a payload called empty is empty |
| `TcpClient.NextInv` | internal/transport/rpc/client/forwarder.go:74-300 | every step of the client's goroutines keeps its invariant |
| `TcpClient.WriterReleased` | internal/transport/rpc/client/forwarder.go:98-136 | after CopyTargetToSRC or Start has returned nothing is ever written to the caller's writer |
| `TcpClient.SendsInOrder` | internal/transport/rpc/client/forwarder.go:74-96 | sends never overlap; one header, then the chunks read, in order and none empty: all but the one in hand, or but the last after a failed Send or a Read with an error or without bytes |
| `TcpClient.BytesReceived` | internal/transport/rpc/client/forwarder.go:138-165 | the bytes written are a prefix of those received, and all of them while the loop waits for the next message |
| `TcpClient.SignalsBeforeClose` | internal/transport/rpc/client/forwarder.go:167-178 | no acknowledgement channel is sent to after its close, closed twice, or signalled beyond what was accepted |
| `TcpClient.InvalidMeansMalformed` | internal/transport/rpc/client/forwarder.go:138-183 | an invalid message is reported only for input outside the server's language, an empty payload only when one was received |
| `PacketClient.SendNextInv` | internal/transport/rpc/client/packet_conn.go:137-195 | every step of writers, their Send goroutines and closers keeps the send-side invariant |
| `PacketClient.OneSendOperation` | internal/transport/rpc/client/packet_conn.go:137-195 | at most one Send or CloseSend is in progress, through every deadline and cancellation |
| `PacketClient.NoSendAfterCloseSend` | internal/transport/rpc/client/packet_conn.go:187-195 | once a CloseSend has started no Send ever begins again |
| `PacketClient.OneSendAfterClose` | internal/transport/rpc/client/packet_conn.go:137-195 | once a Close has been called at most one Send still begins: that of the writer holding writeMu that was past its tests |
| `PacketClient.SendAfterClose` | internal/transport/rpc/client/packet_conn.go:141-157 | that one can come: a Close between a writer's tests and its Send |
| `PacketClient.WriteReturned` | internal/transport/rpc/client/packet_conn.go:154-184 | a returned WriteTo left no Send behind; success means its Send succeeded and the datagram it was called with is on the stream; a Send that succeeded is reported failed only in a cancelled session |
| `PacketClient.DatagramsSent` | internal/transport/rpc/client/packet_conn.go:137-185 | the stream carries one header, then a prefix of the datagrams whose Send was begun |
| `PacketClient.DatagramsReceived` | internal/transport/rpc/client/packet_conn.go:71-135 | the ReadFrom calls that return a datagram return those received, one each and in order: as much as fits the buffer of that call, reported short exactly if that is not all |
| `PacketClient.RefusedMeansError` | internal/transport/rpc/client/packet_conn.go:111-121 | an error status is reported only if the server sent one or something unknown, and for every such message taken out |
| `Deadline.ClosedAtMostOnce` | internal/transport/rpc/client/packet_conn.go:233-266 | in every interleaving of set, wait and timer callbacks no channel is closed twice |
| `Deadline.OpenMeansCurrent` | internal/transport/rpc/client/packet_conn.go:269-273 | every open channel wait ever returned is the current one |
| `Deadline.BlockedSetIsServed` | internal/transport/rpc/client/packet_conn.go:237-239 | a set that found its timer fired waits only for the channel that callback closes |
| `Deadline.SetOutcome` | internal/transport/rpc/client/packet_conn.go:242-266 | what a set leaves, from the call with a deadline to its end: for none an open channel without a timer, for one ahead an open channel and an armed timer, for one past a closed channel |
| `StreamSession.BytesDelivered` | internal/transport/rpc/client/forwarder.go:74-183 | end to end, the bytes delivered each way are a prefix of those the other end read |
| `StreamSession.CleanEnd` | internal/transport/rpc/client/forwarder.go:174-175 | when the client's loop ended on the server's end of session over an unbroken stream, the caller got exactly the bytes the target connection gave, those that came with an error included |
| `StreamSession.ServerNeverObjects` | internal/transport/rpc/server/forwarder.go:169-178 | the server never calls a message of this client invalid |
| `StreamSession.AcknowledgedOnce` | internal/transport/rpc/client/forwarder.go:167-178 | the acknowledgement is signalled at most once and never after the close |
| `StreamSession.ClientNeverObjects` | internal/transport/rpc/client/forwarder.go:142-180 | the client never calls a server message invalid or its status unknown, at any address |
| `StreamSession.EmptyPayloadIff` | internal/transport/rpc/client/forwarder.go:149-151 | the client can report an empty payload exactly when the address resolves to a datagram network and splits into host and port |
| `DatagramSession.DatagramsDelivered` | internal/transport/rpc/client/packet_conn.go:86-135 | the datagrams ReadFrom got are those the target sent, in order, each as much as fits; with no short report what it returned is a prefix of what the target sent; bytes written are a prefix of those sent |
| `DatagramSession.ServerNeverObjects` | internal/transport/rpc/server/forwarder.go:248-252 | the server never calls a message of this client invalid |
| `DatagramSession.RefusedMeansNotDialled` | internal/transport/rpc/client/packet_conn.go:119-121 | an error status means the dial was refused and nothing was exchanged |
| `DatagramSession.BoundariesKeptIff` | internal/transport/rpc/server/forwarder.go:248-271 | datagrams written are a prefix, in order and with boundaries, of those sent, exactly when the address is not `tcp://` before a host and port |
| `ConnPool.PickLeastLoaded` | internal/transport/rpc/client/wrapper.go:63-84 | the first of the least loaded live connections, or none exactly when all are shut down |
| `ConnPool.GetSummaryStats` | internal/transport/rpc/client/wrapper.go:113-124 | total, how many connections carry load, and the load sum modulo 32 bits |
| `ConnPool.ConnQueue.Add` | internal/transport/rpc/client/queue.go:30-35 | appends with the next ID |
| `ConnPool.ConnQueue.Init` | internal/transport/rpc/client/queue.go:37-48 | fills the queue so that slot i has ID i + 1 |
| `ConnPool.ConnQueue.ReplaceConn` | internal/transport/rpc/client/queue.go:137-163 | installs in the slot of the old connection with its ID and closes the old, or closes the new |
| `ConnPool.ConnQueue.Destroy` | internal/transport/rpc/client/queue.go:61-72 | sets shutdown and closes every connection in a slot |
| `ConnPool.ReplacedAt` | internal/transport/rpc/client/queue.go:137-163 | replacement changes exactly the first slot that holds the old connection |
| `PoolRuns.NextInv` | internal/transport/rpc/client/queue.go:84-163 | every step of lookups, replacements and destruction keeps the pool invariant |
| `PoolRuns.SlotIds` | internal/transport/rpc/client/queue.go:137-163 | slot i always holds ID i + 1 and no connection twice |
| `PoolRuns.OneReplacement` | internal/transport/rpc/client/queue.go:137-163 | two racing replacements that both installed for one dead connection are the same one; an installed or late one leaves it replaced and in no slot |
| `PoolRuns.LoadCountsUsers` | internal/transport/rpc/client/wrapper.go:40-48 | in every run a connection's 32-bit load is the number of callers between Use and Done on it, modulo 2^32 |
| `PoolRuns.CountLoads` | internal/transport/rpc/client/queue.go:119-123 | each Use and Done keeps that count for every connection |
| `PoolRuns.NothingLeaks` | internal/transport/rpc/client/queue.go:50-163 | every dialled connection is in a slot, in flight or closed |
| `PoolRuns.DestroyClosesAll` | internal/transport/rpc/client/queue.go:61-72 | after Destroy, with no replacement in flight, every connection is closed |
| `LoadBalance.BalanceBound` | internal/transport/rpc/client/wrapper.go:63-84 | from equal loads, with at most p callers between pick and Use, loads never differ by more than p as long as no 32-bit counter has wrapped |
| `LoadBalance.BalanceIff` | internal/transport/rpc/client/wrapper.go:40-84 | with two connections or more and p below half the range, a run stays within p throughout exactly when no counter wraps in it |
| `LoadBalance.UseKeepsIff` | internal/transport/rpc/client/wrapper.go:40-42 | for every p: a Use keeps the loads within p exactly when the counter it raises is not at its highest value or no other load is above p |
| `LoadBalance.BoundReached` | internal/transport/rpc/client/wrapper.go:63-84 | for every p a counter can hold, some run reaches a difference of p |

## Left out

- HostName.NormalForm: lower-casing covers ASCII letters only, because host names are ASCII on the wire; Unicode case folding is not modelled.
- RouterRuns.NoLostUpdate: the 64-bit version counter is unbounded.
- Packet-connection, forwarder and relay objects as classes: their goroutines share the fields step by step, so they are transition systems over values; aliasing of the reused message buffers is not captured.
- gRPC, TLS, protobuf encoding and keepalive: a stream is an ordered message sequence that may be cut; a failed Send on a packet stream ends it.
- Sockets, DNS, IP parsing, CIDR containment and regular expressions: arbitrary predicates; only host-port joining and IPv4-mapped normalisation are concrete.
- Route files (`Ext`), nil routes and egress construction in the router.
- The stamps read by one `Install` scan of the NAT table are taken at one moment, although they may move under it.
- The disabled flag of the UDP settings, source filtering of datagrams and the packet worker pool.
- Release of the pool load taken for a server-side route: the handshake never closes that route, so nothing is claimed about it.
- A pool of size 0, a failing pool `Init`, status strings and health labels.
- The HTTP front end, authentication, DNS proxying, configuration, logging and byte statistics: input, output and glue.
- Liveness: nothing says that a blocked send, receive or dial ever returns.
