# A verified model of hyperswarm-rs

Two parts of the repository keep their own state and make promises about whole runs. Both are modelled
here, and the promises proved.

**The swarm engine.** Configure calls, made on the swarm or sent through a handle's channel, become DHT
and mDNS commands on rising flags. DHT commands wait for the bootstrap. Peers found by the DHT and mDNS
merge into one stream, each is dialed over TCP and uTP, and the connections that result reach the
consumer, without a second one that this side opened to the same address.

**The chat link and broadcaster.** Messages travel in frames with a four-byte big-endian length, over a
loop that waits in a `select` for the next header byte or the next outgoing message. A list of peers,
each with its own queue, receives every broadcast.

## How it is built

Each component has a state datatype, step functions over it, and a class with the source's fields whose
methods update them in place. Every method is proved to take the class's `View` exactly where the step
function takes the state, so what the lemmas say of the functions holds of the objects.
`Swarm.Hyperswarm.Valid` and `Broadcast.HyperBroadcast.Valid` also carry the invariant itself.

Histories (`Log`, and the fields called history in the comments) record what happened in order; a step
only adds to them and decides nothing by them. The main results compare them with references that do not mention the fields: the
edges of a configure history, the remotes and sightings of a run field by field, the fate of a transport
arrival given the arrivals before it, the messages a byte stream decodes to, and what a history of
listings and removals means for one chat connection.

The sources are adversarial. Each holds the items it will answer before its next Pending, and a run
(`Runs.Step`) adds to them in any order between polls. An item that turns up during a poll counts as
there before it if the poll took it, and as arriving after it if not. The DHT is polled until it yields a
peer or answers Pending, each other source at most once, so no poll can tell the difference. The
connects that a poll itself starts are the exception: they can end the first time they are polled, which
is in that same poll, so each `Poll` step carries what the environment lets them end with at once
(`Transport.AtOnce`). Running connects end in any order, with any result. `Runs.Run`, `ChatLink.Run` and
`ChatNetwork.Run` range over every interleaving.

| file | source |
|---|---|
| Basics.dfy | value types and histories |
| Dht.dfy | src/discovery/dht.rs |
| Discovery.dfy | src/discovery/combined.rs, and mDNS as one source |
| Links.dfy | src/transport/tcp.rs and src/transport/utp.rs |
| Transport.dfy | src/transport/combined.rs |
| Swarm.dfy | src/swarm.rs |
| Runs.dfy, Commands.dfy, Dialing.dfy, Waiting.dfy | whole runs of the swarm |
| Framing.dfy, ChatLink.dfy, ConnectionLoop.dfy, Broadcast.dfy | examples/hyperchat.rs |
| ChatNetwork.dfy | the broadcaster and all its links as one system, whole runs |

## What turned out not to hold

Each of these comes with a run that shows it and the exact condition under which the property does hold.

- A swarm poll may answer Pending while a source has not answered Pending in that poll, so no wake-up is
  due although an item may be ready (`Waiting.PendingWithPeerReady`, `Waiting.PendingWithStreamReady`).
  All sources wait exactly when nothing was on hand at any of them as the poll began
  (`Waiting.WaitsExactlyWhenNothingOnHand`), and which polls answer Pending is read off the fronts of
  the sources and the connects that end at once (`Waiting.PendsExactly`).
- De-duplication is meant to leave one connection per peer, and the comment at
  src/transport/combined.rs:95-100 doubts that it does. It looks only at connections this side opened,
  and only at their addresses; a node that dials us over TCP comes from an ephemeral port, not from the
  address it listens on (`Dialing.TwoConnectionsToOneNode`). Whichever node is behind each address, one
  connection per node is left exactly when any two streams that arrived from one node were both opened
  by this side, to one address (`Dialing.OneConnectionPerNodeExactly`). In terms of what the sources
  gave, that is one route per node (`Dialing.ConnectionsAreRoutesOffered`).
- The chat loop drops a partly read header when an outgoing message wins the `select`
  (`ChatLink.InterruptedRunLosesMessage`), and casts lengths to 32 bits. A direction of the link is
  conserved exactly when neither happens (`ChatLink.LinkConservedExactly`), and a dropped header is
  never made up for (`ChatLink.LossIsForGood`).

## Model

| member | source | states |
|---|---|---|
| Dht.EnqueueKeepsInv | src/discovery/dht.rs:63-79 | a lookup or announce joins the end of the requests and disturbs no peer, event or earlier command |
| Dht.ExecutePendingKeepsInv | src/discovery/dht.rs:52-59 | after bootstrap, a flush leaves the issued commands equal to the requested ones, each issued once in request order |
| Dht.TakeEventKeepsInv | src/discovery/dht.rs:94-113 | an event taken with the buffer empty and commands flushed leaves the trace legal; its peers are the new buffer and bootstrap is noted |
| Dht.PollNextKeepsInv | src/discovery/dht.rs:84-115 | a poll keeps the trace legal: commands issued only after bootstrap, once and in order, peers emitted in report order, no event taken while a peer is buffered; no event is lost |
| Dht.PollNextAnswer | src/discovery/dht.rs:84-115 | the answer is the first peer buffered or about to be reported; Pending means there is none, the handle is drained and, once bootstrapped, no command is pending |
| Dht.PollNextTakesFirst | src/discovery/dht.rs:84-115 | the same by fields: the answer has the address and topic of the first buffered peer, or else of the first remote of the lookup results unread; the others stay ahead |
| Dht.PollNextFlushes | src/discovery/dht.rs:84-94 | a poll starting bootstrapped and unbuffered ends with no pending command; one starting with a buffer only takes its head |
| Dht.RequestsCarryPort | src/discovery/dht.rs:63-79 | the requests are the asked-for topics one for one, in order and of the same kind, each with the bound port set and no local address |
| Dht.DhtDiscovery.constructor | src/discovery/dht.rs:40-50 | starts unbootstrapped with both queues empty |
| Dht.DhtDiscovery.ExecutePendingCommands | src/discovery/dht.rs:52-59 | the loop pops and issues as the flush function does |
| Dht.DhtDiscovery.LookUp | src/discovery/dht.rs:63-70 | queues one lookup with the topic, the bound port and no local address |
| Dht.DhtDiscovery.AnnounceOn | src/discovery/dht.rs:72-79 | queues one announce with the topic, the bound port and no local address |
| Dht.DhtDiscovery.BufferPeers | src/discovery/dht.rs:102-109 | the buffer grows by one peer per remote, the i-th with the i-th remote's address and the result's topic |
| Dht.DhtDiscovery.HandleEvent | src/discovery/dht.rs:96-113 | each kind of event changes exactly the fields the event function says |
| Dht.DhtDiscovery.Poll | src/discovery/dht.rs:84-115 | the loop terminates and agrees with the poll function; the answer is the first of the addresses ahead (buffered, then remotes unread), which loses exactly that one |
| Discovery.PollMdnsAccounts | src/discovery/mdns.rs:140-196 | as one atomic source: the first sighting is answered, with its own address and topic if that has 32 bytes and as the invalid-topic error if not; one command is received and dropped per poll |
| Discovery.SendKeepsInv | src/discovery/combined.rs:25-35 | a command reaches both sources, so both have always been asked for the same |
| Discovery.PollNextKeepsInv | src/discovery/combined.rs:39-50 | what was found stays an order-preserving merge of what each source gave, and nothing a source held is lost |
| Discovery.AnswersInPriorityOrder | src/discovery/combined.rs:39-50 | the DHT's next peer comes first, then mDNS, then Pending, read off the state before the poll |
| Discovery.CombinedDiscovery.Lookup | src/discovery/combined.rs:26-29 | sends the lookup to mDNS and the DHT |
| Discovery.CombinedDiscovery.Announce | src/discovery/combined.rs:31-34 | sends the announce to mDNS and the DHT |
| Discovery.CombinedDiscovery.Poll | src/discovery/combined.rs:39-50 | agrees with the merged poll in both sources' states and the answer |
| Discovery.MdnsDiscovery.Poll | src/discovery/mdns.rs:140-196 | drops at most one command and answers the first sighting with its own address and topic, or the error |
| Links.ConnectKeepsInv | src/transport/tcp.rs:50-54 | a connect joins the started ones; either it runs, and the running count of exactly its address rises by one, or it has ended at once and joins the ended ones last with its outcome |
| Links.ResolveKeepsInv | src/transport/tcp.rs:65-68 | a running connect that ends joins the ended ones with its own outcome; nothing else changes, and without one nothing does |
| Links.PollNextKeepsInv | src/transport/tcp.rs:59-70 | a poll takes at most one item; accepted streams, and ended connects each with its own outcome, are those taken followed by those waiting, in order; started = running + completed + taken for every address |
| Links.PeerTransport.Dial | src/transport/utp.rs:46-49 | adds one connect, running or ended at once, and nothing else |
| Links.PeerTransport.Poll | src/transport/utp.rs:54-65 | agrees with the poll function; streams become connections with the peer's address, direction and protocol |
| Transport.OnArrivalFollowsFate | src/transport/combined.rs:64-128 | an arrival is handed up, failed or skipped exactly as the arrivals before it decide; skipped only if this side opened it and an earlier connect reached that address; `connected` is the set of addresses reached |
| Transport.ConnectKeepsInv | src/transport/combined.rs:133-138 | an address is dialed once over each protocol, and exactly the connects that end at once join the ended ones |
| Transport.PollNextKeepsInv | src/transport/combined.rs:143-158 | what a poll hands up extends the delivered connections or the failures of the merged arrivals, and nothing else changes them |
| Transport.PriorityOrder | src/transport/combined.rs:143-158 | accepted before opened within a protocol, TCP before uTP except past a TCP duplicate |
| Transport.DeliveredOnce | src/transport/combined.rs:103-127 | at most one opened connection per address is ever delivered, for any merge of the two protocols |
| Transport.ReachedIffDelivered | src/transport/combined.rs:104-111 | an address was reached by a connect if and only if a connection opened to it was delivered |
| Transport.AttemptsConserved | src/transport/combined.rs:81-138 | per address and protocol: started = running + completed + yielded + skipped + failed, where those taken with a stream are the yielded and skipped and those taken with an error the failed |
| Transport.FatesFollowOutcomes | src/transport/combined.rs:64-128 | for any merge of the protocols: ended connects that failed are the failed ones, those that succeeded the yielded and skipped ones |
| Transport.IncomingInOrder | src/transport/combined.rs:104-106 | the incoming connections delivered over a protocol are exactly the streams it accepted, in order |
| Transport.OpenedInOrder | src/transport/combined.rs:81-128 | the opened connections delivered over a protocol carry exactly the streams of its ended connects, in that order, less those whose address a delivered opened connection had reached |
| Transport.CombinedTransport.Dial | src/transport/combined.rs:133-138 | dials over both protocols |
| Transport.CombinedTransport.OnConnection | src/transport/combined.rs:81-128 | drops only an opened connection to an address already in `connected`, and adds the address otherwise |
| Transport.CombinedTransport.OnPollConnection | src/transport/combined.rs:64-79 | Pending, errors and connections go where the reference step sends them |
| Transport.CombinedTransport.Poll | src/transport/combined.rs:143-158 | agrees with the poll function; uTP is polled only if TCP handed nothing up |
| Swarm.ConfigureKeepsInv | src/swarm.rs:55-71 | a configure asks discovery for exactly the new edges of its topic and changes neither peers nor connections |
| Swarm.DrainKeepsInv | src/swarm.rs:97-100 | draining leaves the channel empty and every invariant intact, and touches no peer or connection |
| Swarm.DrainExecutes | src/swarm.rs:97-100 | every queued configure is executed once, in queue order |
| Swarm.AfterDiscoveryKeepsFlow | src/swarm.rs:104-131 | a found peer is dialed and its connects, if they end at once, may be taken in the same poll; a discovery error surfaces, a transport error is only logged, and each record stays equal to its reference |
| Swarm.PollNextKeepsInv | src/swarm.rs:93-132 | a swarm poll keeps the whole invariant, accounts for every source item and every connect it starts that ends at once, and records exactly what the consumer got |
| Swarm.SwarmHandle.Configure | src/swarm.rs:86-88 | appends to the channel the swarm reads |
| Swarm.Hyperswarm.Bind | src/swarm.rs:38-53 | starts with no topic and establishes the invariant |
| Swarm.Hyperswarm.Handle | src/swarm.rs:73-77 | the handle shares the swarm's own channel |
| Swarm.Hyperswarm.Configure | src/swarm.rs:55-71 | keeps the invariant and agrees with the direct configure |
| Swarm.Hyperswarm.Poll | src/swarm.rs:93-132 | keeps the invariant and agrees with the poll function in state and answer, whatever its new connects do at once |
| Runs.RunKeepsInv | src/swarm.rs:55-132 | the invariant holds in every state any run reaches, connects that end in the poll that starts them included |
| Runs.RunAccounts | src/swarm.rs:93-132 | over any run, each source's items (events, sightings, accepted streams, connects that ended between polls or at once, with their outcomes) are those taken followed by those still waiting, in order |
| Runs.ConfiguresExecuteOnce | src/swarm.rs:55-100 | the direct configures executed are exactly those called; those executed from the channel, followed by the queued, are exactly those sent, in sending order |
| Runs.ConfiguresExecuteInOrder | src/swarm.rs:55-100 | the whole executed history, direct and channel configures interleaved, is the run's schedule: direct ones at the call, sent ones at the next poll |
| Commands.OneCommandPerRise | src/swarm.rs:55-71 | per topic and whatever other topics do: announces and lookups asked for equal the rises of that topic's two flags |
| Commands.ConfigureQueuesInOrder | src/swarm.rs:62-67 | one configure queues an announce if that flag rises and then a lookup if that one does, with topic, port and no local address, and nothing else |
| Commands.RisesReachDht | src/swarm.rs:55-71 | over any run, the announces and lookups of a topic, with the bound port, that the DHT was given or is owed are as many as the rises of its two flags over the configures carried out |
| Commands.RepeatingAsksNothing | src/swarm.rs:56-68 | configuring a topic as it already is changes neither discovery source |
| Commands.NothingBeforeBootstrap | src/discovery/dht.rs:90-92 | no command is issued before a Bootstrapped event was consumed, at any point of a legal trace |
| Commands.CommandsDelivered | src/swarm.rs:55-71 | in every reachable state, issued then pending DHT commands equal the edges of the executed configures, one for one in kind and topic, each with the bound port set and no local address; mDNS was sent the same |
| Commands.TopicsHoldLastConfigs | src/swarm.rs:56-70 | `topics` holds exactly the configured topics, each with its last config |
| Commands.CommandsIssuedInTime | src/discovery/dht.rs:84-94 | from a bootstrapped state with k buffered peers, the (k+1)-th poll leaves nothing pending, whatever happens between |
| Dialing.FoundIsMergeOfSources | src/discovery/combined.rs:39-50 | over any run, found is an order-preserving merge of all peers of all lookup results and all mDNS results, less a suffix still waiting |
| Dialing.DhtPeersAreRemotes | src/discovery/dht.rs:102-109 | over any run, the addresses of DHT peers found, then those ahead, are the remotes of all lookup results, in order; their topics are those of their results |
| Dialing.MdnsPeersAreSightings | src/discovery/mdns.rs:178-192 | over any run, the addresses and topics of mDNS peers found, then those unread, are those of the sightings with a 32-byte topic, in order; every other sighting is one error |
| Dialing.DialedAreRemotesAndSightings | src/swarm.rs:102-111 | over any run, the addresses dialed over either protocol are an order-preserving merge of the remotes of all lookup results and of all validly sighted addresses, less what is still ahead |
| Dialing.EveryFoundPeerIsDialed | src/swarm.rs:102-111 | both protocols dial exactly the found addresses in the order found |
| Dialing.AttemptsConserved | src/swarm.rs:107-110 | per address and protocol: times found = running + completed + yielded + skipped + failed; those taken are a prefix of the run's ended connects, the successful yielded or skipped and the rest failed |
| Dialing.OneInitiatorPerAddress | src/transport/combined.rs:103-127 | the consumer never gets two opened connections to one address, and `connected` is exactly their addresses |
| Dialing.ConnectedOnlyGrows | src/transport/combined.rs:106-108 | no step removes an address from `connected` |
| Dialing.AcceptedStreamsReachConsumer | src/transport/tcp.rs:59-64 | each protocol's accepted streams reach the consumer in order, none lost |
| Dialing.OpenedStreamsReachConsumer | src/transport/tcp.rs:65-68 | the opened connections the consumer got over a protocol carry exactly the streams its connects ended in, in order, less the late duplicates; the untaken still wait, in order |
| Dialing.ErrorsRouted | src/swarm.rs:104-128 | the consumer's errors are discovery's, in order; the transports' are only logged |
| Dialing.ErrorsChangeNothingElse | src/swarm.rs:104-128 | a poll that surfaces an error has not touched the transports; one that logs an error leaves `connected` and every running connect as dialing left them, connects that ended at once aside, and takes only queue fronts |
| Dialing.ConnectsOnlyToFound | src/swarm.rs:102-129 | if streams lead where they were dialed to, every opened connection yielded is to an address found by then, be it in the very poll that yields it |
| Dialing.OneConnectionPerNodeExactly | src/transport/combined.rs:95-111 | whichever node is behind each address, the consumer has at most one connection per node if and only if any two streams that arrived from one node were both opened by this side to one address |
| Dialing.ConnectionsAreRoutes | src/transport/combined.rs:103-127 | for any merge of the protocols, the connections delivered to a node are as many as its routes: one for each stream accepted from it and one for each of its addresses reached by a connect |
| Dialing.ConnectionsAreRoutesOffered | src/transport/combined.rs:95-127 | in any reachable state with nothing waiting at the links, the consumer has as many connections to each node as the run's accepts and ended connects made routes, hence at most one each if and only if there is at most one route each |
| Dialing.TwoConnectionsToOneNode | src/transport/combined.rs:95-106 | a run of the whole swarm, from the configured lookup on, in which one node is connected twice, once from the ephemeral port it dialed from and once at its listening address |
| Waiting.WaitsExactlyWhenNothingOnHand | src/swarm.rs:93-132 | a poll answers Pending with all four sources waiting if and only if nothing was on hand when it began |
| Waiting.PendingIsHonestExactly | src/swarm.rs:102-131 | among Pending polls, all sources wait if and only if no result was found, no error logged and no duplicate skipped |
| Waiting.PendsExactly | src/swarm.rs:93-132 | read off the state before the poll and what its new connects do at once: it answers Pending if and only if discovery's front is no invalid topic and, once the found peer is dialed, TCP's front is an error, or is nothing or a duplicate and uTP's is one of the three; some source is then not waiting if and only if something was on hand |
| Waiting.PendingWithPeerReady | src/swarm.rs:107-131 | a run, from the configured lookup on, whose next poll answers Pending with a second lookup result ready and the DHT not waiting |
| Waiting.PendingWithStreamReady | src/swarm.rs:107-131 | a run whose next poll answers Pending with an accepted uTP stream ready and uTP not polled, because the TCP connect it starts fails at once; otherwise it would have yielded the stream |
| Waiting.BusyPollsBounded | src/swarm.rs:93-132 | over any steps from any state, the polls that begin with something on hand are at most as many as what was there and what came in weigh, three for a peer and one for a stream or ended connect, less what is left |
| Waiting.SettlesInTime | src/swarm.rs:93-132 | if nothing more comes in, that many polls leave nothing on hand, whatever is configured meanwhile and whatever new connects do at once |
| Waiting.QuietInTime | src/swarm.rs:93-132 | the poll after those answers Pending with every source waiting |
| Framing.BeRoundTrip | examples/hyperchat.rs:260-270 | reading a written big-endian length gives it back |
| Framing.BeRoundTripBack | examples/hyperchat.rs:260-270 | writing a read big-endian length gives its bytes back |
| Framing.BeOrder | examples/hyperchat.rs:260-270 | the most significant byte comes first: numbers below 2^32 are ordered as their bytes, read from the left |
| Framing.RoundTripExactly | examples/hyperchat.rs:259-272 | a list of messages survives framing if and only if each is shorter than 2^32 bytes |
| Framing.ChunksDoNotMatter | examples/hyperchat.rs:254-262 | decoding gives the same messages and state however the bytes are cut |
| Framing.ChunkedStreamDecodes | examples/hyperchat.rs:254-272 | chunks that make up any prefix of the frames decode to a prefix of the messages, and to all of them at the end |
| Framing.FeedCounts | examples/hyperchat.rs:259-263 | every byte read belongs to a delivered message or to the one being read |
| Framing.ReadingReencodes | examples/hyperchat.rs:254-263 | any bytes read, honest or not, are exactly the frames of the messages decoded from them followed by the bytes of the one being read |
| ChatLink.WriterKeepsFlow | examples/hyperchat.rs:267-273 | no step of the writing side breaks the direction's accounts |
| ChatLink.ReaderKeepsFlow | examples/hyperchat.rs:254-266 | no step of the reading side breaks them either, a dropped header being counted as lost |
| ChatLink.ConservedExactly | examples/hyperchat.rs:251-277 | delivered plus decoded-from-flight equals taken if and only if no header byte was lost and every message fits |
| ChatLink.RunKeepsInv | examples/hyperchat.rs:251-277 | both directions' accounts hold in every state any run reaches |
| ChatLink.LosesExactlyByInterrupting | examples/hyperchat.rs:254-257 | a side has lost nothing if and only if it never turned to an outgoing message with header bytes in hand |
| ChatLink.LinkConservedExactly | examples/hyperchat.rs:251-277 | for every interleaving and both directions at once, conservation if and only if the two conditions hold |
| ChatLink.LossIsForGood | examples/hyperchat.rs:254-257 | once a side has interrupted a header, no continuation of the run is conserved in that direction |
| ChatLink.DeliversInOrder | examples/hyperchat.rs:251-277 | under those conditions the other side has a prefix of what was queued, and all that was taken once nothing is in flight |
| ChatLink.EveryByteIsTaken | examples/hyperchat.rs:254-266 | in the select and in a body, a live loop takes any bytes its read still wants: they join the bytes held or complete one message, which is delivered |
| ChatLink.AnyMessageIsTaken | examples/hyperchat.rs:267-271 | in the select a live loop takes the first waiting message, drops the header bytes in hand and has the four length bytes and the message to write |
| ChatLink.AnyPartIsWritten | examples/hyperchat.rs:272 | a live loop writes any part of its frame from the front and returns to the select after the last |
| ChatLink.EndedDoesNothing | examples/hyperchat.rs:264-275 | a loop that has returned reads, takes and writes nothing, and no message joins its queue |
| ChatLink.DeliverableExactly | examples/hyperchat.rs:251-277 | from any run with both ends live, reading, taking and writing can bring everything queued to the other side, in both directions at once, if and only if no header was interrupted so far and nothing queued is oversized |
| ChatLink.InterruptedRunLosesMessage | examples/hyperchat.rs:254-257 | a six-step run that drops one header byte, after which the direction is not conserved however the run goes on |
| ConnectionLoop.ConnectionLoop.OnBytes | examples/hyperchat.rs:254-266 | bytes fill the reused header buffer or the body buffer, and a full one is decoded or delivered, as the reader function says |
| ConnectionLoop.ConnectionLoop.OnHeaderBytes | examples/hyperchat.rs:254-261 | a full header allocates a body of the decoded length; an empty message is delivered at once |
| ConnectionLoop.ConnectionLoop.OnBodyBytes | examples/hyperchat.rs:261-263 | a full body is delivered and the loop returns to the select |
| ConnectionLoop.ConnectionLoop.OnOutgoing | examples/hyperchat.rs:267-271 | the message leaves the queue, its frame is built and the header bytes in hand are lost |
| ConnectionLoop.ConnectionLoop.OnWritable | examples/hyperchat.rs:272 | the next bytes of the frame leave in order, and after the last the loop returns to the select |
| ConnectionLoop.ConnectionLoop.Enqueue | examples/hyperchat.rs:147-155 | a message joins the outbound queue of a live loop; a loop that has ended takes none |
| ConnectionLoop.ConnectionLoop.End | examples/hyperchat.rs:265-274 | the loop stops for good with its buffers and queues as they are |
| Broadcast.SendAllReaches | examples/hyperchat.rs:147-155 | a broadcast is placed once on the queue of each listed live peer and on no other |
| Broadcast.RunKeepsInv | examples/hyperchat.rs:147-217 | after any steps, ids, queues, liveness and the list are what the history of steps says, each computed from the steps alone |
| Broadcast.QueueHoldsBroadcasts | examples/hyperchat.rs:147-213 | over any run, a connection's queue was given the initial message and exactly the broadcasts from its first listing until it ended or its id was taken off, all three points read off the steps |
| Broadcast.ListHoldsListed | examples/hyperchat.rs:192-213 | the list holds exactly the connections listed and not taken off since, with the ids they were opened with, in the order of listing |
| Broadcast.ListingAppends | examples/hyperchat.rs:213 | listing an opened connection for the first time puts it at the end and leaves the others as they were |
| ChatNetwork.RunKeepsInv | examples/hyperchat.rs:147-277 | in every run of the broadcaster with all its links, each connection's loop was queued exactly what the broadcaster placed and lives as long as the connection |
| ChatNetwork.RemoteReceivesBroadcasts | examples/hyperchat.rs:147-277 | in every such run, a remote whose link meets the two conditions has a prefix of the initial message and the broadcasts from its listing until it ended or was taken off, and all of them once the queue and the flight are empty |
| ChatNetwork.RemoteCanCatchUp | examples/hyperchat.rs:147-277 | in every such run, while both ends of a connection live and nothing has spoilt its link, steps of that link alone can bring the remote all of that |
| Broadcast.HyperBroadcast.Broadcast | examples/hyperchat.rs:147-155 | the loop over the list agrees with the broadcast function and keeps the invariant |
| Broadcast.HyperBroadcast.OpenConnection | examples/hyperchat.rs:168-195 | a new connection's queue starts with the initial message |
| Broadcast.HyperBroadcast.ListPeer | examples/hyperchat.rs:213 | the peer, with its connection's id, joins the end of the list |
| Broadcast.HyperBroadcast.ConnectionEnded | examples/hyperchat.rs:188-191 | later sends to the connection fail; its queue stays as it is |
| Broadcast.HyperBroadcast.KeepOthers | examples/hyperchat.rs:192 | keeps exactly the peers with another id, in order |
| Broadcast.HyperBroadcast.Retain | examples/hyperchat.rs:192 | takes every peer with the ended connection's id off the list and keeps the invariant |

## Left out

- Sockets, listeners, multicast, hyperswarm-dht, libutp-rs and colmeia: they are the adversarial sources, and none of their code is part of this model.
- The end of a source's stream: the DHT handle never ends (src/discovery/dht.rs:96 panics if it does), incoming streams never end, and a connect bag that is empty counts as waiting, though it answers that it has ended.
- TCP and uTP are one class with a protocol field, because src/transport/tcp.rs and src/transport/utp.rs have the same connect and poll; the accept future that TCP puts back after each accept is the front of the incoming queue.
- `stream.peer_addr().unwrap()` (src/transport/tcp.rs:82) can panic during a poll: every modelled stream has a peer address.
- Which node an address belongs to is fixed for a run in Dialing.OneConnectionPerNodeExactly; addresses that change hands are not modelled.
- Builds without the `transport_utp` feature: the default feature set is modelled.
- The bag of running connects has no identities: connects to one address over one protocol are counted, not told apart.
- mDNS command handling: commands are received and dropped, as the code does pending its own to-do; the announcer, the locator and a pending future that is never set are one source of sightings.
- Withdrawing announces and lookups: not implemented in the code, so nothing is claimed.
- Fairness between sources: priorities are fixed, so a busy source may starve the others and no claim is made.
- Broadcast.HyperBroadcast.Retain: the list is not claimed to equal the live peers, because removal goes by id and races with listing.
- ChatLink.LinkConservedExactly: pipes have no capacity, so a link on which both sides block in a full write is not modelled; why a loop stops (end of stream, error, closed queue) is not told apart.
- Broadcast messages are byte sequences; conversion of strings to UTF-8, names, printing and command lines are left out.
- Reading and writing of streams by delegation, formatting, logging, topic hashing, configuration builders and the bootstrap programs: forwarding or library calls that would add only easy members.
