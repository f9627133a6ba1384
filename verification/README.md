# ZRE protocol model

A Dafny 4.11 model of a Python implementation of the ZeroMQ Realtime Exchange Protocol (RFC 36)
with a czmq-compatible gossip hub, and proofs about it. `dafny verify dfyconfig.toml` checks all of it.

## What is modelled

**Elections** (`Election*.dfy`, `WireIdentity.dfy`). The group leader election is an echo wave with
extinction. A mesh of any number of members is a step system with one FIFO queue per directed link:
a member contests, or a frame is delivered. The handlers count frames, not senders; the heart of the
proof is that on every link the waves have ever smaller ids, so a count of frames of the current wave
is a count of neighbours. From it follow safety (only the least contestant is ever announced),
progress (a mesh with nothing in flight has agreed) and termination with a bound on the frames.
`ElectionMember.dfy` has the handlers as they run, on a record that is updated in place and on
identities that are strings, proved against the functions the theorems are about.

**Peers, groups and events** (`PeerSpec.dfy`, `Node*.dfy`, `Handshake.dfy`, `Membership*.dfy`,
`PeerClass.dfy`).
`NodeSpec` gives the state of a node as a value - two tables, the group index, timers, emitted
events, open sockets, frames sent - and each handler as a function composed of small steps.
`NodeInvariant` and `NodeHandlers` prove that every step keeps the two-way index, the ownership of
sockets and the truth of the event trace; `NodeRuns` draws the theorems over all runs. `NodeEffects`
says what each thing that happens leaves behind - a departure, a sign of life, a sweep, a command, a
dial, a HELLO - in terms of the state and of what was received, and `NodeArrivals` says it from the
octets of the message on.
`NodeLinks` is about what goes out on a link, `NodeSequence` about the numbers that come in,
`NodeThrottle` about EVASIVE, `NodeHeartbeat` about a silent peer, `Handshake` about two nodes that
find each other, `MembershipNet` about two nodes that join and leave groups while they do. `PeerClass` and `NodeClass` have the
objects themselves, from the constructor and the frames of a message on (`NodeMessage`): peers shared
between the tables and the group index, methods with the loops of the source, each proved to compute
the function of `NodeSpec` for the state it finds.

**Wire formats** (`Wire.dfy`, `Codec*.dfy`, `Beacon.dfy`, `Endpoint.dfy`, `Zgs.dfy`). The layouts of
RFC 36, section "Protocol Grammar", of the beacon and of the gossip protocol; the decoding and
encoding loops of the source, proved to read and write them; round trips, prefix-freedom, and the
inputs on which a decoder raises.

**Gossip** (`GossipHub*.dfy`, `GossipClient.dfy`, `GossipNet.dfy`, `GossipHistory.dfy`, `GossipLifetime.dfy`,
`PyDict.dfy`).
The hub's table, broadcast and snapshots, how long a tuple lives, the table of a client, and runs of a hub with any number
of clients that publish, expire, redial and take frames in any interleaving.

**Configuration replicas** (`ConfigSync.dfy`, `ConfigNet.dfy`). The versioned merge of the
configuration example.

Times are integer milliseconds. Outside influences are parameters: the time, whether a connect
succeeds, what becomes of a frame handed to a socket (queued, EAGAIN, another error).

## Where code and promise differ

The model follows the code. Each of these is proved of it, with its exact condition:

- `zgs_decode` is documented to return None on a malformed body; it raises IndexError on a bare
  4-byte PUBLISH head (`Zgs.RaisesExactly`). The beacon handler raises on the bare 3-byte prefix
  (`Beacon.RaisesExactly`).
- A hub accepts tuples it cannot forward - an empty key, a value over 65535 bytes - and then raises
  halfway through, having stored the tuple (`Zgs.ForwardableExactly`, `GossipNet.AgreementNeedsEncodable`).
  As long as such a tuple is stored every HELLO raises, so no new client is sent the whole table
  (`GossipHub.HelloRaisesExactly`).
- A node that stops, in the collision exit or in `stop()`, forgets its peers without an EXIT. An
  application that goes on reading events still believes them present: what the events say of known
  peers is true of a stopped node if and only if they name none (`NodeRuns.EventsTellMembership`).
  Neither exit touches the group index, which is then two-way if and only if it is empty
  (`NodeRuns.GroupIndexIsTwoWay`). `NodeRuns.StopForgets` is a run that ends so.
- A node tells its groups in a HELLO and, by JOIN and LEAVE, to the peers in its table; not to a peer it
  has dialled, and the second HELLO of a ready peer is not looked at for groups. So a node that joins
  a group between its dial and the adoption is not listed there (`MembershipNet.JoinedWhileDialling`)
  until it leaves and joins again. A JOIN of the group with the empty name is ignored. Each group is
  listed as it should be if and only if the other node was told of it
  (`MembershipNet.MembershipConvergesExactly`), and always if the node changes its groups only
  before its first HELLO or with the other in its table (`MembershipNet.SteadyMembersAreListed`).
- A peer whose link met EAGAIN stays in the table; its next HELLO announces it again with no EXIT in
  between (`NodeRuns.EnterRepeatsExactly`; `NodeRuns.EnterRepeats` is such a run), and it is then ready
  without a connection.
- The expected sequence number does not wrap while the sent one does, and only the HELLO of a peer in the
  table sets it to 1. So on a lossless link gaps are reported at the wrap-around, after a HELLO that is
  not number 1, and, when the HELLO that makes a peer ready finds it out of the table - a new peer, or
  one that was only dialled - for the next command, unless it is number 1 (`NodeSequence.GapsSinceHello`). A send that fails with an error other than EAGAIN uses up
  a number (`PeerSpec.FrameNumberExactly`).
- An endpoint announced through a hub with no `://` before its first `|` makes the node raise IndexError
  out of its run loop; only ValueError is caught (`NodeMessage.AnnouncedRaisesExactly`,
  `NodeClass.ZreNode.GossipRequire`).
- The zone id of an unbracketed link-local address is lost on the way (`Endpoint.EndpointRoundTripExactly`).
- The collision exit forgets the peers but leaves dialled sockets open until `stop()`
  (`NodeInvariant.OnCollisionInv`; `NodeRuns.CollisionLeavesSocket` is such a run).

## Model

| member | source | states |
|---|---|---|
| WireIdentity.WireOrder | zre/node.py:1112-1122 | Comparing two peer ids as the uppercase hex that travels, as strings, is comparing the 16-byte uuids as numbers, so a least id is well defined; equal strings are equal uuids |
| WireIdentity.HexOctets | zre/node.py:1112-1122 | Each octet of a uuid becomes two uppercase hex digits, its high half first |
| ElectionMember.IdentOrder | zre/node.py:1174-1179 | The string comparison made by the ELECT handler agrees with the order of the numbers the identities denote |
| ElectionSpec.StartExactly | zre/node.py:1140-1172 | A start opens a wave of our own with no father and nothing counted, forgets the leader of before and queues one ELECT for every other member; alone in the group it ends at once with itself as leader |
| ElectionSpec.OnlyLastLeaderTells | zre/node.py:1174-1276 | The leader of a group and its LEADER events change only with the last of the LEADER frames of an open wave, which records it, closes the wave and is told once |
| ElectionMember.Group.StartElection | zre/node.py:1140-1172 | In place: the record and the frames queued after a start are those of `ElectionSpec.OnStart`; a member with no neighbour finishes at once |
| ElectionMember.Group.HandleElect | zre/node.py:1174-1204 | In place: adoption of a smaller wave, relay to all but the father, the echo count, the echo to the father and the winner's broadcast are those of `ElectionSpec.OnElect` |
| ElectionMember.Group.HandleLeader | zre/node.py:1246-1258 | In place: relay of the first LEADER, the count and the finish are those of `ElectionSpec.OnLeader` |
| ElectionMember.Group.FinishElection | zre/node.py:1260-1276 | In place: leader recorded, election record dropped, one LEADER event emitted |
| ElectionMember.Group.SendToNeighbours | zre/node.py:1170-1172 | The loop over neighbours queues the frame on every link but our own and the skipped one |
| ElectionSpec.FloodAdds | zre/node.py:1188-1190 | What a flood adds, link by link |
| ElectionFlood.FallingSnoc | zre/node.py:1174-1190 | A frame of a smaller wave keeps the ids on a link strictly falling, so a link carries each id at most once |
| ElectionWave.WaveHasCause | zre/node.py:1174-1190 | A member is in a wave because it contested or because it has handled an ELECT |
| ElectionWave.CountKeeps | zre/node.py:1192-1196 | Counting an ELECT of the current wave keeps `erec` equal to the number of distinct neighbours heard from in it |
| ElectionWave.AdoptKeeps | zre/node.py:1179-1196 | Adopting a smaller wave keeps every invariant of the flood, with the sender as father and a count of one |
| ElectionWave.ElectKeeps | zre/node.py:1174-1204 | Every ELECT delivery short of the winning one keeps the flood's invariants |
| ElectionTurn.CompleteHeardAll | zre/node.py:1195-1197 | `erec` never exceeds the number of neighbours, and reaches it if and only if every neighbour has been heard from in the current wave |
| ElectionTurn.HeardIsLast | zre/node.py:1195-1204 | Once a member has heard its wave from a neighbour that is in no smaller one, it has handled everything that neighbour queued for it |
| ElectionTurn.EveryoneComplete | zre/node.py:1174-1204 | Fathers form a tree rooted at the contestant: when it has heard from everyone, everyone has |
| ElectionTurn.WinnerTakesAll | zre/node.py:1197-1200 | When a contestant's wave has come back whole, it is the least contestant, every member is in its wave and complete, and no ELECT is in flight, so no finished member can be reopened |
| ElectionTurn.FloodNeverStops | zre/node.py:1174-1204 | While somebody has contested and no wave has come back whole, a frame is in flight |
| ElectionAnnounce.NoLateContest | zre/node.py:1140-1172 | Once the winner has announced, nobody can contest any more: everyone has handled an ELECT |
| ElectionAnnounce.AnnouncementCompletes | zre/node.py:1246-1276 | When the announcement has stopped, every member has finished with the winner and has emitted exactly one LEADER event |
| ElectionTheorems.NextInv | zre/node.py:1140-1276 | Every legal step of a mesh of any size keeps the global invariant |
| ElectionTheorems.ElectionSafety | zre/node.py:1140-1276 | In every reachable state every LEADER in flight, every recorded leader and every LEADER event names the least id among those that contested |
| ElectionTheorems.ElectionProgress | zre/node.py:1140-1276 | If somebody contested and no frame is in flight, every member has finished with the same, least leader |
| ElectionTheorems.FinishedRunsAgree | zre/node.py:1140-1276 | A run that cannot be continued has ended in agreement |
| ElectionCost.FramesPerLink | zre/node.py:1174-1258 | On each directed link at most one ELECT per contestant and one LEADER |
| ElectionCost.RunsAreFinite | zre/node.py:1140-1276 | With k contestants among n members no run is longer than k starts and k + 1 frames on each of the n(n-1) links |
| Codec.FrameRead | zre/node.py:197-270 | The reader gives back any encodable frame, whatever follows it |
| Codec.ReadFrameSound | zre/node.py:197-270 | The reader accepts encodings and nothing else |
| Codec.TrailingBytesIgnored | zre/node.py:197-270 | Appending bytes to an accepted input leaves the result unchanged |
| Codec.PrefixFree | zre/node.py:197-270 | A shorter prefix is accepted if and only if it still holds the bytes used, and then with the same result |
| Codec.CountsBoundedByInput | zre/node.py:209-251 | 4 octets per group and 5 per header entry, and 17 more, fit in any accepted HELLO, whatever counts it announces |
| Codec.FrameOctets | zre/node.py:121-195 | The octets of a frame: signature, command, version, number with its high octet first, and the fields of each kind of frame in order |
| Codec.ListOctets | zre/node.py:163-174 | Groups follow each other with four octets for their length; so do headers, with one for the length of the name and four for that of the value |
| CodecLoops.EncodeHello | zre/node.py:153-175 | The loops that append groups and headers produce the layout of the frame, or fail where a length or the status does not fit |
| CodecLoops.Decode | zre/node.py:197-270 | The loops over an advancing offset compute `CodecLoops.Meaning` on every input, without reading out of range |
| CodecLoops.DecodeHello | zre/node.py:209-251 | The counted loops of a HELLO end whatever counts are announced and read what the recursive reader reads |
| CodecLoops.DecodeGroups | zre/node.py:218-224 | The loop that collects the groups |
| CodecLoops.DecodeHeaders | zre/node.py:237-245 | The loop that fills the header dict, a repeated key keeping its last value |
| CodecTheorems.HelloRoundTrip | zre/node.py:153-175 | Decoding an encoded HELLO gives its command, sequence number, endpoint, groups, status, name and header dict, whatever bytes follow |
| CodecTheorems.SimpleRoundTrip | zre/node.py:177-186 | The same for SHOUT, JOIN, LEAVE and the commands without fields |
| CodecTheorems.ElectionRoundTrip | zre/node.py:188-195 | The same for ELECT and LEADER |
| CodecTheorems.TruncatedFrameRejected | zre/node.py:197-270 | Every strict prefix of an encoding decodes to None |
| CodecTheorems.EncodingsIncomparable | zre/node.py:153-195 | No encoding begins another |
| Wire.ReadShortSound | zre/node.py:135-142 | `_rs` returns what lies there and reads inside the input, or fails |
| Wire.ReadLongSound | zre/node.py:144-151 | `_rl` likewise |
| Wire.OctetsOf16 | zre/node.py:200-206 | Of two octets the first counts 256 times, written and read |
| Wire.OctetsOf32 | zre/node.py:128-132 | Of four octets the first counts most, written and read |
| Beacon.RoundTrip | zre/node.py:762-773 | A node of the same security mode hears exactly what a beacon announces, one of the other mode ignores it |
| Beacon.BeaconOctets | zre/node.py:762-773 | The octets of a beacon: "ZRE", the version, the uuid, the port with its high octet first, and the key in mode 3 |
| Beacon.HeardOnlyIfBuilt | zre/node.py:1779-1804 | Only a well-formed beacon of the node's own version is heard |
| Beacon.RaisesExactly | zre/node.py:1782-1784 | The handler raises IndexError on the bare 3-byte prefix and on nothing else |
| Endpoint.BracketedRoundTrip | zre/node.py:96-103 | A bracketed host and its port are read back |
| Endpoint.PlainRoundTrip | zre/node.py:96-103 | Without brackets what follows `%` in the host is lost |
| Endpoint.EndpointRoundTripExactly | zre/node.py:89-103 | `_split_endpoint` undoes `_tcp_address` if and only if the host has no zone id; a bracketed address is always read back |
| Endpoint.AddressText | zre/node.py:89-93 | An address of version 6 is printed in brackets unless it has a zone id, any other as it is, and a bracketed one keeps its brackets |
| Endpoint.DecimalDigits | zre/node.py:89-94 | A port is written in decimal digits, the last one the least |
| Endpoint.NoSchemeExactly | zre/node.py:96-97 | `_split_endpoint` raises IndexError if and only if `://` occurs nowhere in the text it is given |
| Zgs.RoundTrip | zre/gossip.py:52-112 | `zgs_decode` of any encodable message gives it back, whatever bytes follow |
| Zgs.DecodeSound | zre/gossip.py:79-112 | Everything accepted is a layout followed by ignored bytes |
| Zgs.TrailingBytesIgnored | zre/gossip.py:79-112 | Appending bytes to an accepted body changes nothing |
| Zgs.TruncatedRejected | zre/gossip.py:79-112 | Every strict prefix of an encoding decodes to None, but for the 4-byte PUBLISH head, which raises |
| Zgs.RaisesExactly | zre/gossip.py:88-92 | IndexError on exactly the bare PUBLISH head (the documentation promises None for malformed bodies) |
| Zgs.ForwardableExactly | zre/gossip.py:52-77 | A hub can forward a tuple it decoded exactly when its key is not empty and its value is at most 65535 bytes |
| Zgs.MessageOctets | zre/gossip.py:52-77 | The octets of each of the five messages |
| GossipHubClass.HubServer.AcceptTuple | zre/gossip.py:191-201 | In place: duplicates are dropped, a fresh tuple is stored with its deadline, noted and broadcast; raises where the encoder refuses. What that comes to is `GossipHub.PublishExactly` |
| GossipHubClass.HubServer.ReapTuples | zre/gossip.py:203-207 | In place: exactly the expired tuples go |
| GossipHubClass.HubServer.SendSnapshot | zre/gossip.py:227-230 | In place: one PUBLISH per stored tuple, in insertion order |
| GossipHubClass.HubServer.HandleMessage | zre/gossip.py:222-241 | In place: what one two-frame message does |
| GossipHubClass.HubServer.HandleSocket | zre/gossip.py:209-243 | In place: reap, drain, and hand over the deliveries |
| GossipHubClass.HubServer.Deliveries | zre/gossip.py:171-174 | The pending list is returned and emptied |
| GossipHubClass.HubServer.Unpublish | zre/gossip.py:159-162 | The key is gone, and nothing else |
| PyDict.OrderKept | zre/gossip.py:159-207 | The order of the stored tuples: a new key goes to the end, a replaced value keeps its place, a removed key leaves the others in order |
| GossipHub.DrainIsRun | zre/gossip.py:217-241 | A drain of any queue of messages is the run of one operation per two-frame message, up to the one that raises |
| GossipHub.HelloRaisesExactly | zre/gossip.py:227-230 | A HELLO raises out of the drain if and only if some stored tuple cannot be encoded, whoever it is from |
| GossipHub.PublishExactly | zre/gossip.py:191-201 | A publish of a stored value changes nothing; any other is noted, stored with the deadline its ttl gives it or none, and sent with its ttl to every client once, unless it cannot be encoded: then the hub raises, if it has a client |
| GossipHub.PublishInbound | zre/gossip.py:222-234 | A PUBLISH from a client is a publish by the hub after the client was noted, so the client is sent its own tuple back |
| GossipHub.PingAnswered | zre/gossip.py:235-236 | A PING is answered with exactly one PONG, to its sender, who is known from now on; nobody else is sent anything and no tuple changes |
| GossipHub.InvalidAnswered | zre/gossip.py:237-240 | An INVALID is answered with an INVALID, likewise |
| GossipHub.OthersUnanswered | zre/gossip.py:222-241 | A PONG, an unknown command and what is not a message are answered with nothing |
| GossipHistory.HubRefinesHistory | zre/gossip.py:159-243 | After any events the table is the one its history of changes describes, and the lists returned by `deliveries()` followed by what is pending are exactly the accepted changes in order |
| GossipHistory.SocketIsRun | zre/gossip.py:209-243 | `handle_socket` is a run of the hub's events: a reap, one event per message up to the one that raises, and the hand-over if none does |
| GossipHistory.StoredExactly | zre/gossip.py:191-201 | A key is stored with an entry if and only if an undisplaced fresh publish introduced that entry, so the value is the last one published; how long it stays is `GossipLifetime.LivesExactly` |
| GossipLifetime.LivesExactly | zre/gossip.py:191-207 | After a fresh publish at t, and until the key is unpublished or another value takes its place, the key is stored with that value if and only if the ttl is not positive or no reap since came later than t + ttl; otherwise it is not stored at all |
| GossipLifetime.StoredFromPublish | zre/gossip.py:191-207 | So after any events a value is stored if and only if some publish brought it that nothing has displaced since and whose ttl no reap has outlived |
| GossipHistory.NoRepeatedDelivery | zre/gossip.py:191-201 | No value is delivered again for a key unless it was removed or replaced in between |
| GossipHistory.SocketSnapshotsAreLive | zre/gossip.py:209-230 | Whenever the drain loop answers a HELLO, the table it sends holds unexpired tuples only |
| GossipClient.HubLink.HandleInbound | zre/node.py:1349-1381 | In place: the drain ends at the first frame whose decoding raises or whose endpoint is refused with an IndexError, and until then the client's table, the endpoints it is told of and the resets it answers are those of the frames taken |
| GossipClient.AbsorbSplit | zre/node.py:1367-1376 | Absorbing two batches is absorbing their concatenation |
| GossipNet.SnapshotUpdates | zre/gossip.py:227-230 | A snapshot brings any table up to date on the hub's keys and leaves the others alone |
| GossipNet.HelloAnswered | zre/gossip.py:227-230 | A HELLO that does not raise is answered with one PUBLISH per stored tuple, in the order they were stored, to its sender only |
| GossipNet.SnapshotOctets | zre/gossip.py:227-230 | The octets of those frames: key, value, and ttl 0 |
| GossipNet.NextInv | zre/gossip.py:209-243 | Every step of hub and clients, also one that publishes what the encoder refuses, keeps the convergence invariant |
| GossipNet.Converges | zre/gossip.py:191-243 | At every point of every run, a client whose HELLO was answered agrees with the hub, once it has absorbed what is queued for it, on every stored key whose value the encoder did not refuse |
| GossipNet.NothingStuck | zre/gossip.py:191-201 | In a run that publishes only tuples the encoder takes no key is refused, so the agreement is on every stored key |
| GossipNet.QuiescentClientsAgree | zre/node.py:1349-1381 | With nothing in flight to them all such clients hold the hub's value of every such key |
| GossipNet.AgreementNeedsEncodable | zre/gossip.py:191-201 | After a publish that a registered client does not hold yet, it will hold the tuple if and only if the hub did not store it already and the encoder accepts it |
| GossipNet.HubRuns | zre/gossip.py:191-243 | Whatever a hub does by itself is a legal run of the network, with the same hub at the end |
| PeerSpec.SendStamps | zre/node.py:353-395 | Any send keeps the numbering: the k-th frame handed over has number k modulo 65536, and EAGAIN ends the connection |
| PeerSpec.FrameNumberExactly | zre/node.py:353-395 | The k-th frame on a link carries k modulo 65536 if and only if the frames lost before it to errors other than EAGAIN number a multiple of 65536 |
| PeerSpec.LinkNumbering | zre/node.py:353-395 | If sends fail only by EAGAIN the k-th frame on a link is the k-th handed over |
| PeerSpec.GapsExactly | zre/node.py:1932-1955 | On a lossless link a gap is reported for a command exactly when it wraps the numbering around or follows a HELLO without being number 2 (and for the first frame as its expectation says); afterwards the receiver is in step |
| NodeSequence.RunFollows | zre/node.py:1932-1957 | Over any run in which a peer stays ready and no frame of it is lost, whatever is interleaved, the node expects and reports what a receiver of those frames alone does |
| NodeSequence.GapsOverRuns | zre/node.py:1932-1957 | In such a run, from any moment at which the peer is ready, a gap is reported for its first frame as the expectation then says, and for a later one exactly if it is a command that wraps the numbering around, or that follows a HELLO without being number 2 |
| NodeSequence.HelloWants | zre/node.py:1930-1937 | A HELLO by which a peer becomes ready leaves 1 as the expectation if the peer was in the table, and 0 if it is new or was only dialled |
| NodeSequence.GapsSinceHello | zre/node.py:1930-1957 | After any run, from the HELLO by which a peer becomes ready and while it stays so, its first command is reported unless it is number 2 for a peer that was in the table, number 1 for one that was not; the later ones as above |
| PeerClass.RemotePeer.Connect | zre/node.py:309-343 | In place: the socket is kept only if the address was taken; connecting again changes nothing |
| PeerClass.RemotePeer.Disconnect | zre/node.py:345-351 | In place: no socket, not ready |
| PeerClass.RemotePeer.NextSeq | zre/node.py:353-366 | In place: one more, modulo 65536 |
| PeerClass.RemotePeer.SendEncoded | zre/node.py:378-395 | In place: the number is consumed before the frame is handed over, and EAGAIN disconnects |
| PeerClass.RemotePeer.CheckSeq | zre/node.py:417-419 | In place: HELLO expects 1, anything else one more than before, without wrap-around |
| PeerClass.RemotePeer.Resynchronise | zre/node.py:1947-1955 | In place: after the check the expectation is the number received, and a loss was reported exactly when there was a gap |
| PeerClass.PeerGroup.Join | zre/node.py:432-433 | In place: the object is filed under its own uuid |
| PeerClass.PeerGroup.Leave | zre/node.py:435-436 | In place: nothing is filed under that uuid any more |
| NodeInvariant.AdoptInv | zre/node.py:1072-1097 | Adoption moves the ownership of a socket; it opens and closes none |
| NodeInvariant.DropInv | zre/node.py:2157-2175 | A departure closes the peer's socket, empties the index of it, and tells the application |
| NodeInvariant.OnCollisionInv | zre/node.py:1515-1534 | The collision exit closes the sockets of the table of peers; exactly those of dialled peers stay open |
| NodeInvariant.OnStopInv | zre/node.py:933-938 | `stop()` leaves no socket open |
| NodeInvariant.OpenAreHeld | zre/node.py:309-351 | The open sockets are exactly those of the peers in the two tables |
| NodeHandlers.OnBeaconInv | zre/node.py:1779-1863 | A beacon keeps index, ownership and event trace right |
| NodeHandlers.OnHelloInv | zre/node.py:2029-2155 | So does a HELLO |
| NodeHandlers.OnCommandInv | zre/node.py:1939-2027 | So does any other command |
| NodeHandlers.OnConnectInv | zre/node.py:1037-1070 | So does a dial |
| NodeHandlers.ReapPeerInv | zre/node.py:2186-2205 | So does a sweep |
| NodeRuns.EventsTellMembership | zre/node.py:1441-1470 | After any run, stopped or not, replaying the emitted events gives exactly the groups `peers_by_group` reports; every ready peer is believed present; and everyone believed present is ready, or in the table with a link that met EAGAIN, if and only if the node runs or nobody is believed present |
| NodeRuns.StopForgets | zre/node.py:933-938 | It happens: a HELLO with a group and a stop leave the peer known to the application and in the index, and in no table |
| NodeRuns.GroupIndexIsTwoWay | zre/node.py:422-436 | After any run the index is two-way - a peer is in a group's index if and only if it is in the table and lists the group - if and only if the node runs or the index is empty; entries sit under their own uuid; dialled peers are in no group |
| NodeRuns.SocketsConserved | zre/node.py:309-351 | After any run the open sockets are those of the connected peers in the two tables, each owned once, and a `stop()` leaves none |
| NodeRuns.CollisionLeavesSocket | zre/node.py:1515-1534 | It happens: a dial and a beacon of our own uuid with another port end the run with the socket of the dial open; a stop then closes it |
| NodeRuns.EnterRepeatsExactly | zre/node.py:2062-2145 | A HELLO of a peer the application counts as present announces it once more, with no EXIT in between, if and only if it finds the peer not ready, its link lost to EAGAIN; the peer is then ready without a connection |
| NodeRuns.EnterRepeats | zre/node.py:2062-2145 | It happens: beacon, HELLO, one send that meets EAGAIN leave the peer known and not ready, and the same HELLO announces it a second time |
| NodeRuns.TrafficElsewhere | zre/node.py:1911-2205 | No step that concerns another peer changes anything in a peer's record |
| NodeRuns.FanOut | zre/node.py:438-447 | A fan-out gives every peer named the frame with its own next number and touches no other |
| NodeRuns.WelcomeInOrder | zre/node.py:2117-2145 | Filling the index first and emitting ENTER and the JOINs after is the same as doing it peer by group |
| NodeEffects.DepartureIsComplete | zre/node.py:2157-2173 | After any run: a peer whose beacon has port 0, that says GOODBYE while ready, or whose sweep comes past its last deadline, is gone - out of the table and of every group, its socket closed, its report forgotten, one EXIT emitted - and nothing else has changed |
| NodeEffects.NobodyDeparts | zre/node.py:1826-1845 | The departure of a peer that is not there, or that says so before it is ready, changes nothing |
| NodeEffects.DepartsExactly | zre/node.py:1826-1845 | While the node goes on, a peer leaves the table in those three cases only |
| NodeEffects.StopsExactly | zre/node.py:1505-1534 | A running node stops exactly when told to, or when it hears a beacon of its own uuid with a port other than its own and 0, or a HELLO of its own uuid without its own port; the latter empties the table of peers and is told |
| NodeEffects.StoppedIgnores | zre/node.py:1779-1781 | A stopped node hears nothing, meets nobody and sends nothing |
| NodeEffects.OwnIgnored | zre/node.py:1802-1813 | A running node does not mind its own beacon, announcement or HELLO, nor an announcement that is no address |
| NodeEffects.HaltExactly | zre/node.py:933-938 | The teardown empties both tables, closes every socket, and leaves the rest as it was |
| NodeEffects.LifeMovesDeadlines | zre/node.py:413-415 | After every sign of life at t the peer is in the table with the deadlines t + ev and t + ex: a beacon or announcement of a peer that is known, dialled or reached; a HELLO that finds it ready, adopts it or dials it; any command of a ready peer but GOODBYE |
| NodeEffects.OnlyLifeMovesDeadlines | zre/node.py:413-415 | Nothing else moves them but a sweep; in particular not the HELLO of a peer in the table that is not ready yet |
| NodeEffects.SweepExactly | zre/node.py:2186-2205 | The sweep of a peer past its first deadline and not its last sends one PING, puts the first deadline off, and emits one EVASIVE exactly if the last one is the interval ago or none is on record and the time is at least the interval; before both deadlines it does nothing |
| NodeEffects.PendingSweepExactly | zre/node.py:2181-2184 | A dialled peer goes, with its socket, exactly when its deadline has passed |
| NodeEffects.WhisperTold | zre/node.py:1959-1968 | A WHISPER of a ready peer emits one event with its payload, moves the deadlines and the expected number, and does nothing else |
| NodeEffects.ShoutTold | zre/node.py:1969-1980 | So does a SHOUT, with its group |
| NodeEffects.JoinTold | zre/node.py:1981-1995 | A JOIN of a group with a name files the peer there, in its record and in the index, and emits one event; of the empty name it does neither |
| NodeEffects.LeaveTold | zre/node.py:1996-2011 | A LEAVE undoes both, likewise |
| NodeEffects.PingAnswered | zre/node.py:2024-2025 | A PING is answered with exactly one PING_OK on the link to its sender, and is not told |
| NodeEffects.OthersUntold | zre/node.py:2012-2027 | PING_OK, election frames and unknown commands add no event and no frame here |
| NodeEffects.CandidateExactly | zre/node.py:1080-1096 | The dialled address wins over an earlier peer that only shares the port; without it the first one dialled on the port is taken, and none exactly if no dialled peer has the port |
| NodeEffects.DialExactly | zre/node.py:1037-1070 | A dial opens one socket and sends HELLO number 1 on it, unless the node is stopped, a connected peer is at the address, it was dialled already, or nothing answers; then it changes nothing |
| NodeEffects.FoundAgain | zre/node.py:1846-1848 | A beacon or announcement of a known peer moves its deadlines, and nothing else |
| NodeEffects.FoundDialled | zre/node.py:1850-1852 | Of a peer that was dialled it moves that object, with its socket, to the table and sends it one more HELLO |
| NodeEffects.FoundNew | zre/node.py:1854-1863 | Of any other it opens one socket and sends HELLO number 1 on it, or does nothing if it cannot be reached |
| NodeEffects.HelloOfReady | zre/node.py:2062-2068 | The HELLO of a ready peer replaces its name, headers and status, moves its deadlines, forgets its report, expects number 2 next, and does nothing else |
| NodeEffects.HelloOfKnown | zre/node.py:2117-2145 | The HELLO of a peer in the table that is not ready makes it ready, files it in its groups, emits ENTER and one JOIN per group, and is not answered |
| NodeEffects.HelloOfDialled | zre/node.py:2071-2145 | The HELLO of a dialled peer does the same after it has moved to the table with its socket |
| NodeEffects.HelloOfNew | zre/node.py:2071-2145 | The HELLO of a peer not heard of does the same on a new socket, and is answered with our HELLO number 1 |
| NodeEffects.HelloUnreachable | zre/node.py:2071-2115 | The HELLO of such a peer with no usable address, or that cannot be reached, changes nothing but that its report is forgotten |
| NodeEffects.HelloWithoutEndpoint | zre/node.py:2049-2050 | A HELLO without an endpoint is ignored, but that the number expected of its sender starts over |
| NodeLinks.LinksOverRuns | zre/node.py:1895-1909 | After any run the first frame to a peer is HELLO number 1, at most one more HELLO follows, and the k-th frame on the link carries k modulo 65536 if sends fail only by EAGAIN |
| NodeMessage.HelloArrives | zre/node.py:1911-2155 | End to end: the HELLO a node encodes, with the address it prints, is handled by another node as a HELLO from that uuid with that address, those groups, headers, name and status, if and only if the address has no zone id |
| NodeMessage.MembershipArrives | zre/node.py:1911-2011 | The JOIN and LEAVE a node encodes are the ones another node obeys |
| NodeMessage.AnnouncedRaisesExactly | zre/node.py:1305-1314 | An announced endpoint makes the node raise IndexError if and only if no `://` comes before its first vertical bar, at which it is cut before it is split |
| NodeMessage.AnnouncementArrives | zre/node.py:1305-1314 | An address announced through a hub is read as the one that was printed, with a key after it or not, if and only if it has no zone id |
| NodeArrivals.IgnoredExactly | zre/node.py:1911-1923 | A message is ignored exactly if it has fewer than two frames, its routing id is not 01 and a uuid, or its second frame does not decode |
| NodeArrivals.ForeignIgnored | zre/node.py:197-207 | A frame that is too short, or has another signature or version, changes nothing |
| NodeArrivals.BareHelloArrives | zre/node.py:1932-1939 | From a HELLO whose endpoint is empty: nothing but that the number expected of its sender starts over |
| NodeArrivals.OwnHelloArrives | zre/node.py:2029-2048 | From a HELLO of the node's own uuid: nothing if its endpoint is an address with the node's own port and nothing after it; otherwise COLLISION, and the node stops |
| NodeArrivals.WhisperArrives | zre/node.py:1959-1968 | From the octets AA A1 02 02 and a number, of a ready peer: exactly one WHISPER event with the payload that follows, and no frame |
| NodeArrivals.ShoutArrives | zre/node.py:1969-1980 | From AA A1 03 02, a number and a group: exactly one SHOUT event with group and payload, and no frame |
| NodeArrivals.JoinArrives | zre/node.py:1981-1995 | From AA A1 04 02, a number, a group and a status: the peer is in the group, and one JOIN event |
| NodeArrivals.LeaveArrives | zre/node.py:1996-2011 | From AA A1 05 02, likewise: the peer is not in the group, and one LEAVE event |
| NodeArrivals.PingArrives | zre/node.py:2024-2025 | From AA A1 06 02 and a number: one PING_OK on the link to the sender, and no event |
| NodeArrivals.PingOkArrives | zre/node.py:2026-2027 | From AA A1 07 02, or a command that is not known: no event and no frame |
| NodeArrivals.VoteArrives | zre/node.py:2012-2021 | From an ELECT or a LEADER: no event and no frame by the node itself, and a new quiet period |
| NodeArrivals.GoodbyeArrives | zre/node.py:2022-2023 | From AA A1 0A 02 and a number, of a ready peer: it is gone, as above |
| NodeArrivals.ByeBeaconArrives | zre/node.py:1779-1845 | From "ZRE", 01, its uuid and 00 00, of a peer in the table: the same |
| NodeArrivals.UnreadyIgnored | zre/node.py:1941-1942 | Any frame but a HELLO of a peer that is not ready changes nothing |
| NodeArrivals.SimpleOctets | zre/node.py:177-186 | These are the octets `encode_simple` gives for the command, number, group and status, and it refuses exactly what does not fit |
| NodeThrottle.StepRecords | zre/node.py:2186-2205 | A step emits one EVASIVE and records its time exactly if it sweeps the peer past its first deadline and not its last, the interval or more after the last one; it forgets the record exactly if it is a HELLO, an application-level command or a departure |
| NodeThrottle.EvasiveSpacing | zre/node.py:2190-2202 | While no HELLO, departure or application-level command of the peer intervenes, its EVASIVE events over any run are at least the throttle interval apart |
| NodeThrottle.EvasiveNotMissed | zre/node.py:2190-2202 | And none is missed: in a quiet stretch every sweep of the peer past its first deadline and not its last, the interval or more after the last EVASIVE, emits one |
| NodeThrottle.EvasiveBound | zre/node.py:482-487 | So a quiet stretch of length `span` has at most span / interval + 1 of them |
| NodeHeartbeat.SweepFollowsVerdict | zre/node.py:2186-2205 | A sweep removes the peer exactly when its last deadline is set and has passed; otherwise it sends it one PING and puts the first deadline off by ev exactly when that is set and has passed |
| NodeHeartbeat.HeartbeatOverRun | zre/node.py:2186-2205 | Over any run that begins with a sign of life at t and in which the peer is then silent, it is kept through every sweep up to t + ex, its k-th probe comes after t + k*ev, the next sweep removes it if and only if it comes after t + ex, and until then sends it a PING exactly when it comes more than ev after the last probe or, if there was none, after t |
| NodeHeartbeat.ProbesPerSilentRun | zre/node.py:2186-2205 | k probes in one silence after a sign of life need k*ev < ex: at most 5 with the defaults |
| NodeHeartbeat.NeverRevives | zre/node.py:1779-1781 | A node that has stopped stays stopped |
| Handshake.DeliverSide | zre/node.py:2062-2126 | A delivered HELLO leaves its sender ready and greeted |
| Handshake.HandshakeCompletes | zre/node.py:1846-1863 | Two nodes, reliable links, any interleaving of dials, beacons, HELLOs and other traffic: once no HELLO is in flight and one was sent, each node holds the other as ready and connected |
| Handshake.NoHelloStorm | zre/node.py:2062-2120 | In such a run each node sends at most two HELLOs through one peer object, as its first two frames, and exactly one frame through an object that was dialled and not adopted |
| Membership.OrdinarySpeaks | zre/node.py:1895-1909 | A step of a node on healthy links queues at most one frame, on a socket that is open, opens at most one socket and that with a HELLO, and never changes the socket of a peer in the table |
| Membership.OnHelloGroups | zre/node.py:2062-2132 | A HELLO adds its groups to those of a peer that was not ready, and none to those of a ready one |
| Membership.OnCommandGroups | zre/node.py:1977-2011 | Of the other commands only JOIN and LEAVE of a group with a name change the groups of a ready peer; a peer that is not ready is not heard at all |
| MembershipNet.ActDirs | zre/node.py:1618-1642 | Every step of either node keeps, for each group, what the last JOIN or LEAVE on its way will make of the other's list, or what the first HELLO heard made of it |
| MembershipNet.MembershipConvergesExactly | zre/node.py:1618-1642 | Two nodes, reliable links, any interleaving of dials, beacons, HELLOs, deliveries, joins and leaves: once nothing is on its way a node is listed by the other in a group exactly when it is in it, if and only if it joined or left it with the other in its table, or the HELLO heard first said the same as its groups when the other entered its table |
| MembershipNet.SteadyMembersAreListed | zre/node.py:1464-1470 | So `peers_by_group` of either node in the end tells exactly the other's own groups, if that one changed them only before its first HELLO or with the other in its table |
| MembershipNet.JoinedWhileDialling | zre/node.py:1037-1097 | It fails: for any two nodes, a dial, a join, a HELLO and its answer end with nothing on its way, the peer ready, and the group not listed |
| NodeClass.ZreNode.constructor | zre/node.py:463-490 | A new node satisfies the whole invariant, owns no object, and is the state from which the runs start |
| NodeClass.ZreNode.EnterTable | zre/node.py:1080-1097 | In place: a peer object enters the table under its uuid, and no object sits at two places |
| NodeClass.ZreNode.AdoptEntry | zre/node.py:1080-1096 | In place: the same object moves from the pending table to the table of peers, with its socket |
| NodeClass.ZreNode.FindPending | zre/node.py:1080-1090 | The two searches settle on the dialled address, or else on the first pending peer with the port |
| NodeClass.ZreNode.AdoptPending | zre/node.py:1072-1097 | In place: `NodeSpec.TryAdopt` |
| NodeClass.ZreNode.RequireGroup | zre/node.py:1103-1110 | In place: an absent group is made, a present one kept, and it is contested from now on if it was to be |
| NodeClass.ZreNode.SetContest | zre/node.py:734-739 | In place: the group is to be contested, at once if there is one; nothing else of the node changes |
| NodeClass.ZreNode.EnrolEntry | zre/node.py:1981-1987 | In place: peer and group index learn of each other, the index holding the very object of the table |
| NodeClass.ZreNode.WithdrawEntry | zre/node.py:1996-2002 | In place: peer and group index forget each other |
| NodeClass.ZreNode.LeaveAllGroups | zre/node.py:2158-2162 | The loop over the peer's groups |
| NodeClass.ZreNode.RemoveEntry | zre/node.py:2157-2173 | In place: `NodeSpec.Drop`, which `NodeEffects.DepartureIsComplete` is about |
| NodeClass.ZreNode.Demand | zre/node.py:1846-1863 | In place: a peer announced at an address is refreshed, adopted or dialled, and sent a HELLO unless it was known |
| NodeClass.ZreNode.HandleBeacon | zre/node.py:1779-1863 | In place, from the bytes of a datagram: nothing, IndexError, UUIDCollisionError, a departure (`NodeArrivals.ByeBeaconArrives`), or `NodeSpec.Require` |
| NodeClass.ZreNode.GossipRequire | zre/node.py:1295-1330 | In place: `NodeSpec.OnGossip` for the address the announcement parses to; IndexError exactly when the node runs, the key is another's and no `://` comes before the first vertical bar |
| NodeClass.ZreNode.MeetPeer | zre/node.py:2071-2115 | In place: the sender of a HELLO is found, adopted or dialled, and a reply is due only to one that was dialled |
| NodeClass.ZreNode.WelcomePeer | zre/node.py:2117-2145 | In place, in the order of the source: ready, answered, indexed, then announced |
| NodeClass.ZreNode.HandleHello | zre/node.py:2029-2145 | In place: `NodeSpec.OnHello`, with UUIDCollisionError exactly where it says |
| NodeClass.ZreNode.ObeyPeer | zre/node.py:1959-2027 | In place: what each command does |
| NodeClass.ZreNode.HandleCommand | zre/node.py:1939-2027 | In place: `NodeSpec.OnCommand` |
| NodeClass.ZreNode.HandlePeerMsg | zre/node.py:1911-2027 | In place, from the frames of a message: routing id, decoding and dispatch end in `NodeSpec.OnHello`, `NodeSpec.OnCommand` or nothing, which `NodeArrivals` tells for each command from its octets |
| NodeClass.ZreNode.ServeMessage | zre/node.py:1505-1534 | One message, with the exit of `run()` on UUIDCollisionError, is one step of the runs the theorems are about; its effect is the one that `NodeArrivals` states |
| NodeClass.ZreNode.ServeDatagram | zre/node.py:1505-1534 | So is one datagram, unless the handler raised IndexError |
| NodeClass.ZreNode.DoConnect | zre/node.py:1037-1070 | In place: `NodeSpec.OnConnect`, with the loop that looks for a connected peer at the address |
| NodeClass.ZreNode.ReportEntry | zre/node.py:2191-2202 | In place: EVASIVE when the throttle allows, which `NodeEffects.SweepExactly` is about |
| NodeClass.ZreNode.ProbeEntry | zre/node.py:2190-2205 | In place: EVASIVE if due, a PING, and the next deadline |
| NodeClass.ZreNode.Reap | zre/node.py:2181-2205 | In place: the two loops are the run of one sweep per pending entry and then one per peer, each on a snapshot of the keys |
| NodeClass.ZreNode.DoShout | zre/node.py:1652-1655 | In place, running or stopped: one send per peer filed in the group, of which a forgotten one is sent nothing |
| NodeClass.ZreNode.SendToAll | zre/node.py:1624-1627 | In place: one send per peer in the table |
| NodeClass.ZreNode.CollisionExit | zre/node.py:1515-1534 | In place: `NodeSpec.OnCollision`, and every object that was in the table is disconnected |
| NodeClass.ZreNode.Stop | zre/node.py:933-938 | In place, from any state: both tables are emptied, no socket is open, and every object that was in the table of peers is disconnected |
| ConfigSync.ConfigManager.Set | examples/config_sync.py:80-100 | In place: the next version, and one update shouted |
| ConfigSync.ConfigManager.HandleUpdate | examples/config_sync.py:133-147 | In place: our own, stale and corrupt updates change nothing |
| ConfigSync.TakesExactly | examples/config_sync.py:133-147 | Our own update, one not newer than what is held, and one whose checksum does not fit change nothing; any other becomes value and version of its key and of no other |
| ConfigSync.SetExactly | examples/config_sync.py:80-100 | A set makes value and next version ours, 1 at first, and tells both with the checksum; no other key changes |
| ConfigSync.ConfigManager.BroadcastFullConfig | examples/config_sync.py:108-122 | One update per key, with its present version and value |
| ConfigSync.UpdatesCommuteExactly | examples/config_sync.py:133-147 | Two updates can be taken in either order if and only if they are not two acceptable values for one version of one key |
| ConfigNet.HoldsHighestReceived | examples/config_sync.py:124-147 | With one writer per key, after any reordering and duplication, and with damaged updates in between, a replica holds per key the highest version received intact, with the value the writer gave it |
| ConfigNet.MangledIgnored | examples/config_sync.py:133-147 | A damaged update delivered to a replica leaves the whole net as it was |
| ConfigNet.SameUpdatesSameConfig | examples/config_sync.py:124-147 | Replicas that received the same updates are equal on every key neither writes |
| ConfigNet.NewestUpdateSuffices | examples/config_sync.py:108-147 | A replica that received the newest update of a key agrees with its writer |
| ConfigNet.AgreesExactly | examples/config_sync.py:108-147 | A reader agrees with the writer of a key that was ever set if and only if it has been brought the newest version |
| ConfigNet.VersionsGrow | examples/config_sync.py:80-147 | Versions never decrease |

## Left out

- Resends by `_maintain_elections`, restarts by `_restart_election_if_needed` and a second start by one member: they break one frame per wave and link, and the theorems about elections do not hold across them. Group membership is fixed during an election, identities are distinct well-formed uuids, and a member contests before it has handled an ELECT.
- Elections inside the node machine: frames that a JOIN, a HELLO or a departure sends for an election are further `SendOne` steps of a run, LEADER events are `Announce` steps. The class `Group` of `ElectionMember` and the class `PeerGroup` of `PeerClass` are two views of one class of the source.
- ElectionMember.Group.HandleElect: the challenger is the uppercase hex of a uuid, as every node sends it; the source compares any text.
- ElectionMember.Group.HandleLeader: the leader is the uppercase hex of a uuid, likewise.
- NodeClass.ZreNode.HandleBeacon: the election that may be restarted after a departure is not part of the state.
- NodeClass.ZreNode.WelcomePeer: the address kept in `endpoint_str` and given with ENTER is not part of the state.
- NodeClass.ZreNode.HandleHello: the same address.
- NodeClass.ZreNode.ObeyPeer: ELECT, LEADER and the election after a JOIN change nothing here; their effect on a group's election is `ElectionMember.Group`.
- NodeClass.ZreNode.HandleCommand: ELECT and LEADER, likewise.
- NodeClass.ZreNode.HandlePeerMsg: ELECT and LEADER, likewise.
- NodeClass.ZreNode.ServeMessage: frames and LEADER events of an election handled in the same message are further steps of a run.
- NodeClass.ZreNode.Reap: `_maintain_elections`, called between the two loops, is left out.
- NodeClass.ZreNode.GossipRequire: the key is a uuid already; its lower-casing, and keys that are no uuid, are left out.
- NodeClass.ZreNode.DoShout: the peers named by the index are looked up in the table; while the node runs the index holds the very objects of the table, and what a stopped node has forgotten is disconnected (`NodeClass.ZreNode.CollisionExit`), so it is sent nothing.
- NodeClass.ZreNode.Stop: the beacon, GOODBYE and LEAVE frames sent by a running node on its way down are sends before the step; closing the ROUTER and UDP sockets is not part of the model.
- NodeSpec.InsertPending: the placeholder name of a dialled peer is not modelled; its key is the host and port.
- Endpoint.SplitEndpoint: `int()` also takes signs, blanks and underscores; only plain decimal digits are modelled.
- NodeRuns.EventsTellMembership: the event queue is taken as unbounded (the source drops what does not fit), and groups are compared as bytes, before they are decoded for display.
- Handshake.HandshakeCompletes: nothing is said of runs in which a send fails or the other node departs.
- MembershipNet.MembershipConvergesExactly: nor here; and every socket a node opens is taken to lead to the other.
- GossipClient.HubLink.HandleInbound: which announced endpoints raise is a parameter, since the link does not hold the peers of the node; the HELLO and PUBLISH frames that answer an INVALID are counted, not modelled; nor are the times of reception.
- GossipNet.Converges: one hub, reliable queues, no unpublish by a client; a client's own announcements are publishes of the hub's run.
- ConfigNet.HoldsHighestReceived: one writer per key; timestamps, watchers and malformed payloads are not modelled, JSON and the checksum are a parameter.
- NodeMessage.HelloArrives: how the node decodes bytes into text is a parameter; a HELLO is encoded without CURVE headers.
- Peer ids are the 16 bytes of a uuid where the tables use their hex form.
- CURVE: keys, ZAP, server-key tables and the key suffix of endpoints. The model is of plain mode.
- Sockets, poller, asyncio scheduling, UDP sends and interface lookups.
- `examples/distributed_lock.py`, whose votes do not give mutual exclusion, and the other examples, scripts and bindings.
