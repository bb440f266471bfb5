# Verification of the mio MQTT broker

This project models the event-loop MQTT 3.1.1 broker in `mio_broker/src/main.rs` and proves
properties of it over all inputs and all runs. The threaded broker in `mqtt_broker.rs` serves
as the simple form that the indexed fan-out refines.

The network, the clock and the iteration order of hash tables are inputs:

- strings are byte sequences; a topic is split on `/` into levels;
- one call to `write` takes some bytes, blocks or fails (`Outbox.WriteResult`);
- time is the set of in-flight entries whose timer has expired, handed to the tick;
- where the source iterates a `HashMap`, the order is arbitrary;
- a result of `None`, or `ok == false` where a comment says so, stands for a Rust panic.

Objects that the source updates in place are classes: `Trie` and `TrieNode`, `Client`, `Broker`,
`ThreadedBroker`. Each of their methods is proved against a function of the old state, and the
properties are proved about those functions. The source's `HashMap<usize, Client>` owns its
clients, so `Broker.clients` is a map of values, and `Client.Borrow` stands for `get_mut`.

| file | what it holds |
|---|---|
| `Bytes.dfy` | bytes, big-endian pairs, counting in sequences, slice lemmas |
| `Topics.dfy` | `topic_matches` and its meaning |
| `SubscriptionTrie.dfy` | `Trie`: the linked nodes, and the path every entry is stored under |
| `Wire.dfy` | packet builders, PUBLISH parsers, the reading back of queued packets |
| `Framing.dfy` | cutting the byte stream into packets, and the flood guard |
| `Outbox.dfy` | the bounded queue, eviction, the write loop; conservation of bytes, and how the loop ends |
| `Connection.dfy` | one connection as a value: packet ids, deliveries, acknowledgements, retries |
| `Client.dfy` | class `Client`, the same operations as methods |
| `FanOut.dfy` | the two-tier index, and the descending loop that removes while it iterates |
| `BrokerModel.dfy` | the broker's events as functions on its state |
| `Broker.dfy` | class `Broker`, the same events as methods |
| `Serving.dfy` | what deliveries may do to a connection |
| `Runs.dfy` | runs of the whole broker: safety, retransmissions, wills, giving up |
| `Sessions.dfy` | the session store: offline stage, saving, restoring |
| `Inbound.dfy` | received messages over runs: QoS 2 deduplication, the other QoS published each time |
| `StateFile.dfy` | the state file: writer, reader, round trip, truncation |
| `FlatScan.dfy` | the threaded broker's scan, and the refinement |
| `Leftovers.dfy` | connections that a delivery drops: which, what they leave behind, what happens later |
| `Leaving.dfy` | what a persistent client's leaving keeps and loses, and sessions that are stuck |
| `Forwarding.dfy` | which copies of a publish a connection gets, and which subscriptions it costs |
| `Subscribing.dfy` | retained messages, and what a SUBSCRIBE answers |
| `Answering.dfy` | what each packet does, what the client reads in answer, and which packets end a connection |
| `Keeping.dfy` | what a connection keeps from event to event: entries in flight, its will; retransmissions |
| `Resuming.dfy` | what leaving takes away, and what coming back restores |
| `Delivery.dfy` | what is in flight has been sent or will be, over every run |
| `Panics.dfy` | two runs from the start that end in a panic |

The lemmas about runs assume the invariant `Runs.Inv`, which `Runs.EveryRunIsSafe` proves of every
reachable state.

## Where the code and its documents differ

The model follows the code. Each item names the members that prove it.

- The comments at `mio_broker/src/main.rs:433-435` and `:805-814` call the index candidates a
  superset that the final check narrows. They are exact, so the check removes nothing
  (`FanOut.CandidatesMatch`, `Broker.RetainMatching`).
- `README.md:19` of the repository says that a slow QoS 0 subscriber only loses messages. A full
  queue makes `deliver_to` fail (`Connection.FullQueueIsReported`), and `publish` prunes one
  subscription for each copy that does not fit (`FlatScan.SlowSubscriberIsPruned`); it prunes
  nothing exactly when there is room for all (`FlatScan.IndexedFanOutRefinesScan`).
- The comment at `:881-882` says that every disconnect goes through `remove_client`. `deliver_to`
  drops a client itself at `:1015` and `:1022`, exactly when a message above QoS 0 finds its
  window full or its queue full of reliable packets (`Connection.LostExactly`; for a whole
  publish, `Leftovers.FanOutDropsExactly`). Its will is then never published, its session never
  saved, and its other subscriptions stay (`Leftovers.DroppedWithoutTrace`,
  `Leftovers.GoneForGood`), but never deliver again (`Leftovers.LeftoversNeverDeliver`).
- A PUBLISH can drop its own sender (`Leftovers.SenderIsDroppedExactly`). Packets read together
  with it are handled all the same, and make the broker panic where they need the connection
  (`Leftovers.OrphansPanic`; a run that ends so, `Panics.OwnPublishPanics`).
- `remove_client` takes queued packets apart as if their length field had one byte. It reads back
  the right messages exactly when all bodies have at most 127 bytes (`Wire.DecodeQueuedExactly`,
  `Sessions.ReadBackExactly`), and panics for all body lengths from 128 to 16383, some above,
  and any queued PUBREL repetition (`Wire.DecodePanicsExactly`, `Wire.DecodeQueuedPubrel`,
  `Sessions.RemovePanicsExactly`; a run that ends so, `Panics.UnsentMessagePanics`).
- A persistent client that leaves loses what was written but not acknowledged
  (`Leaving.LosesNothingExactly`, `Leaving.WrittenIsLost`).
- A CONNECT on a fresh connection fails, and keeps the session, while more than 256 stored
  messages go out above QoS 0 (`Sessions.ConnectRestores`). If that many match the session's own
  subscriptions, it can never be taken up again (`Leaving.NeverTakenUp`).
- The no-subscriber fast path agrees with the general path exactly when the QoS is 1 or 2 or the
  body parses (`BrokerModel.FastPathRefines`).
- Whether good packets in front of an oversized one are handled depends on how the stream was cut
  (`Framing.HandledCut`).
- The state file comes back exactly when every count and length fits 16 bits and every QoS is at
  most 2 (`StateFile.RoundTripExactly`); payloads may be larger than that on the wire.
- A SUBACK is well-formed exactly up to 125 grants (`Framing.SubackIsReadExactly`).
- A retry decided on before an acknowledgement arrives is applied after it: the message is sent
  again, or the client is removed for it, exactly when its queue is full of reliable packets
  (`Connection.StaleRetryIsSent`, `Leftovers.StaleRetryInARun`).
- The repository's README lists wills and persistent sessions as missing (`README.md:81`); the
  code has both, and so has the model.

## Model

| member | source | states |
|---|---|---|
| Topics.TopicMatches | mio_broker/src/main.rs:129-147 | the matching loop answers whether the filter, up to its first `#`, accepts the topic level by level, and in full length unless there is a `#` |
| Topics.LevelsMatchMeaning | mqtt_broker.rs:108-127 | the meaning of matching spelled out position by position, both directions: levels before the first `#` are equal or `+`, and lengths agree when there is no `#` |
| Topics.JoinSplit | mio_broker/src/main.rs:130-131 | splitting on `/` and joining again gives the string back |
| Topics.SplitInjective | mio_broker/src/main.rs:438 | different strings have different levels, so a trie path names one filter |
| Topics.ExactMatchesOnlyItself | mio_broker/src/main.rs:738-749 | a filter without `+` and `#` matches exactly the topic it spells, which is why a table lookup can serve it |
| SubscriptionTrie.Trie.Insert | mio_broker/src/main.rs:411-429 | the index is stored at the node whose path spells the filter's levels, with the `#` flag, and no other entry moves; every node still has one path and every path one node |
| SubscriptionTrie.Trie.Clear | mio_broker/src/main.rs:406-408 | the trie is empty and well-formed again |
| SubscriptionTrie.Trie.Collect | mio_broker/src/main.rs:436-439 | appends what the topic's levels reach from the root, and counts each report |
| SubscriptionTrie.Trie.CollectNode | mio_broker/src/main.rs:441-463 | the recursive walk reports exactly the entries stored along the `+`, exact and `#` branches, also where nodes are missing |
| SubscriptionTrie.Trie.MissingMeansUnused | mio_broker/src/main.rs:456-462 | where a link is missing no entry's path passes through, so the walk misses nothing by stopping |
| SubscriptionTrie.GatheredExactly | mio_broker/src/main.rs:436-463 | the walk reports each subscription exactly as often as it has entries that cover the topic: no duplicates through two branches, none lost |
| SubscriptionTrie.Entry.ReachesOneWay | mio_broker/src/main.rs:443-462 | an entry covers the remaining levels through at most one of the places the walk looks into, and through one if it covers them at all |
| SubscriptionTrie.EntryMeaning | mio_broker/src/main.rs:411-429 | an entry inserted for a filter covers, from the root, exactly the topics the filter matches |
| FanOut.IndexIsExact | mio_broker/src/main.rs:798-805 | for every subscription list and topic, the exact table and the trie together name each matching index once and no other index |
| FanOut.CandidatesMatch | mio_broker/src/main.rs:806-814 | every candidate matches even before the final check |
| FanOut.SortedCandidates | mio_broker/src/main.rs:798-818 | sorting the candidates downwards gives the one strictly descending list of the matching indices |
| FanOut.OrderIsUnique | mio_broker/src/main.rs:815-818 | there is only one such list, so the order in which the index reports does not matter |
| FanOut.PickAfterRemove | mio_broker/src/main.rs:815-829 | a swap-remove does not disturb what the still pending lower indices name |
| FanOut.SweepRemovesFailed | mio_broker/src/main.rs:819-831 | what is left together with the failed subscriptions is a permutation of the original list |
| BrokerModel.WalkTriesOriginals | mio_broker/src/main.rs:819-831 | for every pattern of failures the loop tries, once each and in order, the subscriptions its indices named at the start |
| BrokerModel.PublishToNobody | mio_broker/src/main.rs:790-792 | with no subscription and no session the shortcut gives what the full routing would |
| BrokerModel.FastPathRefines | mio_broker/src/main.rs:1228-1287 | for one broker state and packet, the no-subscriber path and the general path give the same result and error exactly when the QoS is 1 or 2 or the body parses |
| BrokerModel.OthersMeaning | mio_broker/src/main.rs:946 | exactly the token's subscriptions go; every other stays as often as it was, in order |
| BrokerModel.MineMeaning | mio_broker/src/main.rs:902-907 | the wishes saved are the token's own subscriptions, each with its filter and QoS as often as it has it, in order |
| BrokerModel.UnsubscribedMeaning | mio_broker/src/main.rs:1210 | exactly the token's subscriptions with one of the filters go; every other stays as often as it was, in order |
| BrokerModel.RestoredMeaning | mio_broker/src/main.rs:1126-1133 | position by position, each stored filter comes behind the old subscriptions with this token and its stored QoS |
| Wire.EncodeRem | mio_broker/src/main.rs:60-72 | the loop writes the remaining length seven bits per byte; `Framing.FrameEncoded` reads it back |
| Wire.PidOnlyAgrees | mio_broker/src/main.rs:249-287 | the short parser accepts the same bodies as the full one and finds the same id |
| Wire.BodySlices | mio_broker/src/main.rs:104-126 | where length, topic, id and payload lie in a forward's body |
| Wire.ForwardRoundTrip | mio_broker/src/main.rs:104-126 | parsing a forward gives back topic, QoS, id, payload and retain flag |
| Wire.ParseRebuilds | mio_broker/src/main.rs:249-275 | every body that parses is the body of the message it parses to |
| Wire.DecodeQueuedExactly | mio_broker/src/main.rs:916-927 | reading back a queued forward gives its message exactly when the body has at most 127 bytes |
| Wire.DecodePanicsExactly | mio_broker/src/main.rs:916-927 | reading back a queued forward panics exactly for these body lengths n: every n from 128 to 16383, and from 16384 to 2097151 those for which the second and third byte of the length field, taken for a topic length, reach past the end |
| Wire.DecodeQueuedPubrel | mio_broker/src/main.rs:916-927 | reading back a queued PUBREL panics, for every id |
| Framing.DecodeRemaining | mio_broker/src/main.rs:1064-1078 | the inner loop finds the length and the index of its last byte, or that at most four bytes do not end it |
| Framing.NextPacket | mio_broker/src/main.rs:1056-1091 | one turn of the outer loop finds the first packet of the rest, waits, or refuses, as `Frame` does |
| Framing.SplitPackets | mio_broker/src/main.rs:1052-1098 | offsets, lengths and the consumed count describe the framing of the buffer: packets, tail and error |
| Framing.FrameCut | mio_broker/src/main.rs:1049-1104 | where the stream is cut does not matter: framing a buffer, keeping its tail and going on gives the same packets, tail and error as framing all at once |
| Framing.HandledCut | mio_broker/src/main.rs:1104-1106 | handling is as independent of the cut exactly if no oversized packet follows good ones in the buffer |
| Framing.FrameEncoded | mio_broker/src/main.rs:60-72 | a stream of encoded packets with bodies up to MAX_PACKET is framed into exactly those packets |
| Framing.ForwardIsRead | mio_broker/src/main.rs:104-126 | a client reads a forward as one PUBLISH with the message and DUP flag that went into it |
| Framing.AcksAreRead | mio_broker/src/main.rs:85-100 | the acknowledgements are read with their type and id, PUBREL with its fixed flags and, repeated, with DUP |
| Framing.PlainRepliesAreRead | mio_broker/src/main.rs:74-103 | CONNACK is read as accepted without a session present, PINGRESP as empty |
| Framing.SubackIsReadExactly | mio_broker/src/main.rs:77-84 | a SUBACK is read as it was meant exactly when it grants at most 125 filters |
| Framing.LegalTail | mio_broker/src/main.rs:1093-1097 | after a legal buffer the tail is at most MAX_PACKET + 4 bytes |
| Framing.LegalStreamIsNeverClosed | mio_broker/src/main.rs:1436-1458 | over all reads of a legal stream, cut anywhere into chunks of a read's size, the flood guard and the size check never close the connection |
| Outbox.MakeRoomOnce | mio_broker/src/main.rs:347-359 | a bounded queue gives up at most its oldest unreliable packet |
| Outbox.InsistRefusesOnlyReliable | mio_broker/src/main.rs:347-359 | a reliable packet is refused exactly when the queue is full of reliable ones |
| Outbox.FlushKeepsBytes | mio_broker/src/main.rs:1370-1411 | whatever the socket does, the bytes it took and those still owed add up to those owed before, in order |
| Outbox.FlushDoneMeansEmpty | mio_broker/src/main.rs:1380-1384 | when the loop reports that all was flushed, nothing is owed |
| Outbox.BatchIsShortest | mio_broker/src/main.rs:1385-1392 | a batch is the shortest front of the queue, in whole packets, that has 32768 bytes, or the whole queue if that has fewer |
| Outbox.FlushFinishes | mio_broker/src/main.rs:1370-1411 | if the socket takes something each time, it gets everything that is owed and the loop ends as done |
| Outbox.FlushDiesExactly | mio_broker/src/main.rs:1393-1409 | the loop ends as dead exactly if the socket fails at a write that it comes to: it took something each time before, and something is still owed |
| Outbox.StepKeepsBounds | mio_broker/src/main.rs:337-359 | the queue never exceeds WRITE_QUEUE_CAP and the offset never the batch |
| Outbox.EveryRunHasAnAccount | mio_broker/src/main.rs:337-359 | conservation over every interleaving of queueing and writing: bytes taken, pending and queued are the accepted packets, whole and in order, less evicted ones, and only unreliable packets are evicted |
| Connection.SearchFinds | mio_broker/src/main.rs:366-376 | the wrapping search ends at the first id of the cyclic order that is free (pigeonhole) |
| Connection.AllocPidExactly | mio_broker/src/main.rs:362-377 | no id exactly when the window is full, from every starting point including 0; otherwise the next free id of the cyclic order 1..65535 |
| Connection.DeliverKeepsValid | mio_broker/src/main.rs:979-1029 | a delivery keeps the connection's invariant and every entry in flight |
| Connection.AcknowledgedKeepsValid | mio_broker/src/main.rs:1289-1298 | PUBACK and PUBCOMP keep the invariant, for any id |
| Connection.ReceivedKeepsValid | mio_broker/src/main.rs:1300-1323 | PUBREC keeps the invariant, for any id and state of its entry |
| Connection.RetryKeepsValid | mio_broker/src/main.rs:1655-1664 | applying a retry keeps the invariant, even if it is older than the entry, as long as the entry has a retry left and the packet is a forward or a PUBREL repetition, as every one on the list is |
| Connection.StaleRetryIsSent | mio_broker/src/main.rs:1655-1674 | a retry taken before its acknowledgement is refused exactly when the queue is full of reliable packets; otherwise its packet is queued behind what eviction leaves, and the connection is as the acknowledgement left it, without an entry |
| Connection.LostExactly | mio_broker/src/main.rs:979-1029 | a delivery costs the connection exactly when it is above QoS 0 and the window is full or the queue is full of reliable packets |
| Connection.FullQueueIsReported | mio_broker/src/main.rs:980-990 | a QoS 0 delivery fails exactly when the queue is full, and never costs the connection |
| Clients.Client.constructor | mio_broker/src/main.rs:1505-1538 | a new connection is empty, with `next_pid` 1 and no session |
| Clients.Client.QueueQos0 | mio_broker/src/main.rs:337-343 | appends unless the queue is full |
| Clients.Client.QueueQos1 | mio_broker/src/main.rs:347-359 | evicts oldest unreliable packets until there is room, then appends; after a refusal the queue is what eviction left |
| Clients.Client.Position | mio_broker/src/main.rs:350 | finds the oldest unreliable packet, or that there is none |
| Clients.Client.AllocPid | mio_broker/src/main.rs:362-377 | the loop gives the id and the new `next_pid` that `AllocPidExactly` is about; a full window leaves `next_pid` alone |
| Clients.Client.Deliver | mio_broker/src/main.rs:979-1029 | queues the forward and records it in flight, or says whether the message or the connection is lost |
| Clients.Client.FlushWrites | mio_broker/src/main.rs:1370-1411 | the write loop leaves queue, batch and offset as `Flush` says, for every sequence of socket results |
| Clients.Client.WriteOnce | mio_broker/src/main.rs:1380-1410 | one turn: refill when the batch is used up, then one write |
| Clients.Client.FillBatch | mio_broker/src/main.rs:1385-1392 | moves whole packets, oldest first, until the batch has 32768 bytes or the queue is empty |
| Clients.Client.Receive | mio_broker/src/main.rs:1436-1458 | the read buffer plus one chunk is refused if it is too long or holds an oversized packet; otherwise its packets are taken; what stays in the buffer is given in each case |
| Clients.Client.OnPuback | mio_broker/src/main.rs:1289-1298 | the entry with that id is gone, whatever it was waiting for |
| Clients.Client.OnPubrec | mio_broker/src/main.rs:1300-1319 | a QoS 2 entry still waiting for PUBREC now waits for PUBCOMP with no retries, and a PUBREL is queued; nothing else reacts |
| Clients.Client.OnPubrel | mio_broker/src/main.rs:1324-1332 | the id is forgotten and PUBCOMP queued |
| Clients.Client.AnswerPublish | mio_broker/src/main.rs:1257-1272 | PUBACK or PUBREC is queued, and a repeated QoS 2 id is reported as such |
| Clients.Client.DueNow | mio_broker/src/main.rs:1596-1613 | in any iteration order, each expired entry is on exactly one list, once: give up when its retries are used up, else retransmit PUBREL or PUBLISH with DUP |
| Clients.Client.ApplyRetry | mio_broker/src/main.rs:1655-1664 | queues the retransmission and counts it if the entry still exists; after a refusal nothing is counted and the queue is what eviction left |
| Brokers.Broker.AddSub | mio_broker/src/main.rs:744-753 | appends a subscription and keeps both tiers of the index exact |
| Brokers.Broker.RebuildIndex | mio_broker/src/main.rs:757-768 | both tiers describe the subscription list, whatever they held before |
| Brokers.Broker.Route | mio_broker/src/main.rs:802-818 | lookup, walk, check and sort give the descending list of all matching indices |
| Brokers.Broker.RetainMatching | mio_broker/src/main.rs:814 | the final check removes nothing |
| Brokers.Broker.DeliverTo | mio_broker/src/main.rs:979-1029 | one message to one connection; a lost connection is removed, and nothing else of the broker changes |
| Brokers.Broker.TryEach | mio_broker/src/main.rs:815-831 | the loop stays in bounds and ends as `Walk` says; delivered and pruned add up to the indices tried |
| Brokers.Broker.FanOutTo | mio_broker/src/main.rs:798-839 | connections and subscriptions are those of trying all original matches and sweeping the failed; the index is exact again afterwards |
| Brokers.Broker.Publish | mio_broker/src/main.rs:775-859 | retained table, fan-out, pruning and offline stage together, with an exact index, and the number delivered |
| Brokers.Broker.RouteMessage | mio_broker/src/main.rs:793-859 | fan-out and offline stage together, with an exact index |
| Brokers.Broker.StashOffline | mio_broker/src/main.rs:840-857 | each wanting session with room gets one copy, in any iteration order |
| Brokers.Broker.SessionsWanting | mio_broker/src/main.rs:841-849 | names exactly the sessions with a matching filter, at the QoS of the first that matches |
| Brokers.Broker.FirstMatching | mio_broker/src/main.rs:843-848 | the first matching filter's QoS, if any |
| Brokers.Broker.PublishLwt | mio_broker/src/main.rs:866-880 | publishes the will of a connection that has one, with its QoS and retain flag |
| Brokers.Broker.RemoveClient | mio_broker/src/main.rs:883-951 | will unless clean, session saved if persistent, subscriptions and connection gone, index exact; or a panic where reading a queued packet panics |
| Brokers.Broker.Bury | mio_broker/src/main.rs:893-949 | the part after the will: session, subscriptions, index, connection |
| Brokers.Broker.SaveSession | mio_broker/src/main.rs:893-945 | the stored session is extended by the client's subscriptions and its queued reliable messages |
| Brokers.Broker.Connect | mio_broker/src/main.rs:1116-1177 | the CONNECT arm after parsing: resumption or a clean start, an error if the resumption fails, a panic if the connection is gone |
| Brokers.Broker.TakeUp | mio_broker/src/main.rs:1122-1175 | its order: restore subscriptions, CONNACK, flush, forget the session, or fail and keep it |
| Brokers.Broker.OpenSession | mio_broker/src/main.rs:1122-1134 | a clean session forgets the stored one, otherwise its subscriptions are added |
| Brokers.Broker.Welcome | mio_broker/src/main.rs:1135-1175 | CONNACK, then the stored messages in order; the session is forgotten only when all were queued |
| Brokers.Broker.FlushStored | mio_broker/src/main.rs:1157-1170 | sends each stored message at the lower of its QoS and that of the first matching filter, up to the first failure |
| Brokers.Broker.SubscribeFilter | mio_broker/src/main.rs:1181-1200 | adds the subscription, then sends the matching retained messages |
| Brokers.Broker.Subscribe | mio_broker/src/main.rs:1178-1207 | all filters in turn and one SUBACK; an error at the first failed retained delivery, also when the connection is gone; a panic at the SUBACK if it is gone |
| Brokers.Broker.Unsubscribe | mio_broker/src/main.rs:1208-1221 | exactly the client's subscriptions with these filters go, the index is exact, UNSUBACK is queued; a panic there if the connection is gone |
| Brokers.Broker.HandlePublish | mio_broker/src/main.rs:1222-1287 | takes the path the guard selects; an error changes nothing; a panic exactly if the packet wants an answer and the connection is gone |
| Brokers.Broker.HandleAck | mio_broker/src/main.rs:1288-1347 | PUBACK, PUBREC, PUBREL, PUBCOMP by type; a short body is an error and changes nothing, also when the connection is gone; otherwise a missing connection is a panic |
| Brokers.Broker.Ping | mio_broker/src/main.rs:1348-1352 | PINGRESP, or a panic if the connection is gone |
| Brokers.Broker.Leave | mio_broker/src/main.rs:1353-1358 | DISCONNECT marks the connection as leaving cleanly and ends with an error, for which the caller removes the client; a panic if the connection is gone |
| Brokers.Broker.HandlePacket | mio_broker/src/main.rs:1113-1361 | the dispatch runs the arm of the packet and ends as it does; an unknown or malformed packet is an error |
| Brokers.Broker.HandlePackets | mio_broker/src/main.rs:1113-1362 | the loop handles the packets of one buffer in turn up to the first error, with an exact index throughout |
| Brokers.Broker.FlushWrites | mio_broker/src/main.rs:1370-1416 | the write loop on the connection; a failed socket removes the client |
| Brokers.Broker.Accept | mio_broker/src/main.rs:730-734 | a connection gets the next token, and the counter moves on |
| Brokers.Broker.TakeRound | mio_broker/src/main.rs:1590-1614 | over all connections, the lists hold each expired entry exactly once, on the list it belongs to |
| Brokers.Broker.Retry | mio_broker/src/main.rs:1655-1674 | one retry is applied to what the connection is by then; a refusal removes the client |
| Brokers.Broker.GiveUp | mio_broker/src/main.rs:1675-1680 | the client is removed if it is still there |
| Serving.SendServes | mio_broker/src/main.rs:979-1029 | a delivery only ever removes its connection or adds to its queue and window; identity, will and other connections stay |
| Serving.PublishServes | mio_broker/src/main.rs:775-859 | the same for a whole publish, and no token is handed out |
| Serving.RemoveServes | mio_broker/src/main.rs:883-951 | after `remove_client`, even if its will removes that client first, the token is gone and every other connection is gone or kept |
| Forwarding.PublishGives | mio_broker/src/main.rs:775-831 | for every publish and connection: the connection is dropped exactly when its copies above QoS 0 do not fit; otherwise it takes one copy for each of its subscriptions that match, at the lower of the publish's and the subscription's QoS, without the retain flag, those at QoS 0 as long as its queue has room; each new window entry holds its copy, not yet retried, with `qos2` exactly at QoS 2; nothing else of it changes |
| Forwarding.PublishGivesAll | mio_broker/src/main.rs:979-1029 | with room in the queue that is the old queue with all the copies behind it |
| Forwarding.CopyIsRead | mio_broker/src/main.rs:104-126 | a copy is read as one PUBLISH without DUP, with the topic, payload, QoS and retain flag of the message and the id of its window entry |
| Forwarding.PublishPrunes | mio_broker/src/main.rs:819-831 | a publish removes, of a connection that stays, exactly the matching subscriptions at QoS 0 whose copies find the queue full, and of a connection that is gone all that match; every other stays as often as it was |
| Answering.PublishIsTaken | mio_broker/src/main.rs:1222-1287 | on either path a PUBLISH that parses and is not a QoS 2 repetition is published with its topic, payload, QoS and retain flag, and counted, at QoS 0 too and for a sender that is gone; before that QoS 1 is answered with PUBACK and QoS 2 with PUBREC for its id |
| Answering.BadPublishIsRefused | mio_broker/src/main.rs:1228-1287 | a PUBLISH that does not parse is an error and changes nothing, unless it is at QoS 0 or 3 and takes the fast path, which counts it |
| Answering.AckEndsItsEntry | mio_broker/src/main.rs:1289-1347 | PUBACK and PUBCOMP remove exactly the entry with their id; every other entry, field and connection stays |
| Answering.PubrecAdvances | mio_broker/src/main.rs:1300-1319 | PUBREC moves a QoS 2 entry that waits for it on to PUBCOMP with no retry counted, and is answered with a PUBREL for its id; in any other case nothing changes |
| Answering.PubrelReleases | mio_broker/src/main.rs:1324-1335 | PUBREL forgets its id and is answered with a PUBCOMP for it |
| Answering.SubackTellsGrants | mio_broker/src/main.rs:77-84 | a client reads from a SUBACK the id and the QoS of each filter, in order |
| Answering.UnsubscribeTakesExactly | mio_broker/src/main.rs:1208-1221 | exactly the client's subscriptions with these filters go, the others stay in order, and it reads an UNSUBACK for the id |
| Answering.PingIsAnswered | mio_broker/src/main.rs:1348-1352 | PINGREQ is answered with PINGRESP, and changes nothing else |
| Answering.ConnectTakesUp | mio_broker/src/main.rs:1116-1177 | on any connection CONNECT records id, session flag and will and answers with CONNACK; a clean session leaves nothing stored; a stored one is taken up exactly if the connection has room for its messages, with its filters at their QoS in order and its messages each at the lower of its QoS and that of the first stored filter that matches; else the store keeps it |
| Answering.PacketsThatEnd | mio_broker/src/main.rs:1113-1361 | a packet of a connection that is there never panics, and ends the connection exactly if it is DISCONNECT, malformed, unknown, or a CONNECT or SUBSCRIBE whose messages do not fit |
| Runs.StepKeepsInv | mio_broker/src/main.rs:1587-1680 | every event keeps the invariant, also between the steps of the tick |
| Runs.EveryRunIsSafe | mio_broker/src/main.rs:296-305 | in every reachable state: at most 256 entries in flight with ids 1..65535, each with its own DUP-clear PUBLISH, at most 3 retries and `await_pubcomp` only on QoS 2; every reliable packet queued or to be retried is a forward or a PUBREL repetition; pending retries have one left; each token's will was published at most once, only for a connection that is gone, and not after its DISCONNECT |
| Runs.WillsAreRecorded | mio_broker/src/main.rs:866-892 | an event adds a token to the history of wills exactly when it calls `remove_client` for it and the will is due |
| Runs.BatchIsRun | mio_broker/src/main.rs:1113-1362 | what the dispatch loop makes of a buffer, without a panic, is a run of the events of its packets |
| Delivery.FlushKeepsAccounted | mio_broker/src/main.rs:1370-1411 | writing moves whole packets from the queue to the bytes taken and the batch, so every packet in flight stays in one of them |
| Delivery.NothingInFlightIsLost | mio_broker/src/main.rs:979-1411 | over every run, for every connection as long as it is there: the packet of each entry in flight is whole in the queue, or in the bytes the socket took and the batch |
| Runs.EntryOverItsLife | mio_broker/src/main.rs:1300-1319 | while an entry lives its message and QoS are fixed, waiting for PUBCOMP never reverts, and each counted retransmission uses up a measure of phase and retries left |
| Runs.RetransmissionsAreBounded | mio_broker/src/main.rs:1655-1664 | at most 3 counted retransmissions in each phase, 6 over a QoS 2 entry's life, even with stale lists |
| Runs.UsedUpEntriesEndTheClient | mio_broker/src/main.rs:1606-1607 | if the tick finds an expired entry with its retries used up, then, whatever comes in between, its client is gone when the lists are worked off |
| Keeping.OnlyItsAckEndsAnEntry | mio_broker/src/main.rs:1289-1347 | while the connection is there, an event takes an entry out of its window exactly if it is a PUBACK or PUBCOMP with its id on its own connection |
| Keeping.EntryStaysUntilItsAck | mio_broker/src/main.rs:1289-1347 | so over every run an entry stays, with its message and QoS, until that acknowledgement or the end of its connection |
| Keeping.WillOfConnectIsPublished | mio_broker/src/main.rs:1137-1147 | the will that a CONNECT brings is the one published when the connection is removed, whatever comes in between but another CONNECT or a DISCONNECT |
| Keeping.DecidedRetryIsSent | mio_broker/src/main.rs:1596-1674 | whatever comes between the tick and an entry of its list, the packet is queued last, the PUBREL of the id for an entry that waits for PUBCOMP and else its PUBLISH with only the DUP flag set, and counted if the entry is still there; only a queue full of reliable packets refuses it, and then the client is removed |
| Sessions.FirstMatchMeaning | mio_broker/src/main.rs:843-848 | the wanted QoS is that of the first matching filter, and there is one exactly when some filter matches |
| Sessions.OfflineStage | mio_broker/src/main.rs:840-857 | a publish above QoS 0 appends one copy, at the lower of its QoS and that of the first matching filter, to each session that wants it and has room, behind its old queue, and changes no other |
| Sessions.AppendCappedMeaning | mio_broker/src/main.rs:938-942 | as many messages as there is room for are kept, in order |
| Sessions.MergeMeaning | mio_broker/src/main.rs:933-937 | stored subscriptions stay in place and missing ones are added once |
| Sessions.ReadBackExactly | mio_broker/src/main.rs:908-928 | whatever other packets a queue holds, its reliable ones are read back as the messages they were made from exactly when each is a forward with a body of at most 127 bytes |
| Sessions.ReadBackPanics | mio_broker/src/main.rs:908-928 | reading a queue back panics exactly when it does for one of its reliable packets |
| Sessions.RemovePanicsExactly | mio_broker/src/main.rs:883-951 | `remove_client` panics exactly when the client is persistent once its will is published, and its queue then holds a PUBREL repetition or a forward of one of those body lengths |
| Sessions.RemovePanicsInRuns | mio_broker/src/main.rs:883-951 | in every reachable state every queue is made of such packets, so the condition decides |
| Sessions.SaveKeepsEverything | mio_broker/src/main.rs:893-945 | for such queues the save step adds the queue's reliable messages to the session in order up to OFFLINE_CAP, and the client's subscriptions, each at its QoS, and no other |
| Sessions.StoreOverStep | mio_broker/src/main.rs:1116-1177 | no event but CONNECT removes a session, a subscription or a message from the store, and CONNECT only the session of its client id |
| Sessions.OfflineNeverExceedsCap | mio_broker/src/main.rs:33 | over every run, no stored queue exceeds OFFLINE_CAP |
| Sessions.ConnectRestores | mio_broker/src/main.rs:1116-1177 | resuming on a fresh connection succeeds exactly when at most 256 stored messages go out above QoS 0; then the queue is CONNACK and the messages in stored order, each at the lower of its QoS and that of the first stored filter that matches, ids are 1..k, the session is gone; otherwise the session keeps everything and the connection is dropped; the stored filters are added in order, each with this token and its stored QoS |
| Resuming.LeavingTakesItsOwn | mio_broker/src/main.rs:883-951 | `remove_client` takes away the connection and exactly its own subscriptions; every other stays as often and in order; it changes no stored session but that of a client with an id and no clean session |
| Resuming.StoredOnLeaving | mio_broker/src/main.rs:893-945 | what is stored for such a client is what was stored before, in front, and its subscriptions, each at its QoS |
| Resuming.ReturnRestoresExactly | mio_broker/src/main.rs:883-1177 | leaving and connecting again without a clean session gives the new connection exactly the same filters at the same QoS, and those stored for its id by then |
| Resuming.ReturnAfterARun | mio_broker/src/main.rs:883-1177 | so it is after any run in between without a CONNECT of that client id: all its subscriptions are back at their QoS, and the messages it left are in front of those that are sent again, if they fit |
| Leaving.LeavingKeepsEverything | mio_broker/src/main.rs:883-951 | a persistent client whose queue, once its will is published, has only short forwards as reliable packets leaves all of them to its session, in order up to OFFLINE_CAP, with all its subscriptions |
| Leaving.LosesNothingExactly | mio_broker/src/main.rs:883-951 | of the messages such a client has not taken over, none is lost exactly when those in its queue that fit the session hold a copy for each, also where two are equal |
| Leaving.LosesNothingByNumbers | mio_broker/src/main.rs:883-951 | if the queue holds no acknowledged and no repeated message, that is so exactly when the queue has as many messages as are untaken and the session has room for them |
| Leaving.AfterWillCounts | mio_broker/src/main.rs:866-892 | publishing its will drops the client exactly when the copies it gets itself above QoS 0 do not fit; otherwise they are in its queue |
| Leaving.WrittenIsLost | mio_broker/src/main.rs:883-951 | a persistent client that leaves when everything reliable was written adds to its session just the copies of its own will that it gets itself above QoS 0, as far as there is room; and if those drop it, nothing is saved |
| Leaving.DoneLeavesNoneReliable | mio_broker/src/main.rs:1380-1384 | whatever the socket did, once the write loop is done no reliable packet waits, so `Leaving.WrittenIsLost` applies to a client that leaves then |
| Leaving.StuckConnectFails | mio_broker/src/main.rs:1116-1177 | no connection can take up a session with more than 256 messages that match its own subscriptions above QoS 0, and the attempt leaves the session as it is |
| Leaving.NeverTakenUp | mio_broker/src/main.rs:1116-1177 | over every run without a clean CONNECT for its client id, such a session stays and every CONNECT for it fails |
| Panics.UnsentMessagePanics | mio_broker/src/main.rs:916-927 | a run of a freshly started broker: with 122 bytes of payload an unsent message goes to the session of the client that leaves, with 123 bytes the broker panics |
| Panics.OwnPublishPanics | mio_broker/src/main.rs:1222-1352 | a run of a freshly started broker: a client that acknowledges nothing drops itself with its own 257th PUBLISH, and its next packet makes the broker panic |
| Subscribing.PublishRetains | mio_broker/src/main.rs:775-784 | a retained publish stores its payload and QoS under its topic, or clears it if the payload is empty, and leaves other topics alone; a publish without the flag leaves all |
| Subscribing.RetainedReachesSubscribers | mio_broker/src/main.rs:775-1200 | who subscribes after a retained publish is sent its topic exactly if the filter matches and the payload is not empty, once, with that payload at the lower QoS |
| Subscribing.SubscribeAnswers | mio_broker/src/main.rs:1178-1207 | a SUBSCRIBE succeeds exactly when the retained messages it gets above QoS 0 fit the window and the reliable part of the queue, and each at QoS 0 finds the queue not full when its turn comes; then all filters are subscribed, and behind the old queue come a copy of each matching retained message, filter by filter, with the retain flag and the lower QoS, and the SUBACK; a queue that fills up keeps its reliable packets and all copies above QoS 0, in order, and the SUBACK is dropped |
| Inbound.PublishQos2 | mio_broker/src/main.rs:1222-1287 | on either path, a QoS 2 PUBLISH whose id is not waiting for PUBREL is answered, published and counted; a repetition is only answered |
| Inbound.WaitsStep | mio_broker/src/main.rs:1324-1335 | an id starts to wait with a PUBLISH, stops with a PUBREL, and no other event of any connection touches it |
| Inbound.WaitsIsPending | mio_broker/src/main.rs:1257-1272 | over every run, an id waits exactly when some PUBLISH with it has not been followed by a PUBREL |
| Inbound.RoutedExactlyOnce | mio_broker/src/main.rs:1228-1287 | over every run, the PUBLISH packets with an id whose message is published are as many as those that come first since the start or since the last PUBREL |
| Inbound.EveryConnectionIsExactlyOnce | mio_broker/src/main.rs:1222-1335 | the same for every connection of every run of a freshly started broker, from its accept on |
| Inbound.PlainMessagesAreRouted | mio_broker/src/main.rs:1222-1287 | over every run, the well-formed PUBLISH packets at QoS 0, 1 or 3 that are published are as many as were received, also from senders that are gone |
| Leftovers.FanOutDropsExactly | mio_broker/src/main.rs:819-831 | a fan-out drops a connection exactly when the copies it gets above QoS 0 do not fit its window or the part of its queue that is not reliable |
| Leftovers.FanOutAdds | mio_broker/src/main.rs:819-831 | a connection that survives a fan-out has the copies it gets above QoS 0 in its queue |
| Leftovers.PublishDropsExactly | mio_broker/src/main.rs:775-859 | the same for a publish, by the subscriptions that match |
| Leftovers.SenderIsDroppedExactly | mio_broker/src/main.rs:1222-1287 | a PUBLISH drops its own sender exactly when it is routed and the sender's own copies do not fit |
| Leftovers.OrphansPanic | mio_broker/src/main.rs:1113-1361 | a packet whose connection is gone makes the broker panic exactly if it is not malformed, a PUBLISH that asks for no answer or does not parse, an acknowledgement without an id, or a SUBSCRIBE with a filter that some retained message matches |
| Leftovers.DroppedWithoutTrace | mio_broker/src/main.rs:1008-1026 | a publish that drops a connection stores no session for it and leaves its subscriptions that do not match; a later `remove_client` publishes no will and saves nothing |
| Leftovers.GoneForGood | mio_broker/src/main.rs:730-734 | over every run, a connection that is gone never comes back, and its will is never published if it was not by then |
| Leftovers.LeftoversNeverDeliver | mio_broker/src/main.rs:979-1029 | over every run, no subscription of a connection that is gone delivers again |
| Leftovers.NewConnectionsInheritNothing | mio_broker/src/main.rs:730-734 | over every run, every subscription belongs to a token that was handed out, so a new connection starts with none |
| Leftovers.StaleRetryInARun | mio_broker/src/main.rs:1587-1674 | whatever comes between the tick and any entry of its retry list: if the entry is acknowledged by then, its message is sent again all the same, or, exactly if the queue is full of reliable packets, the client is removed for it |
| StateFile.Serialize | mio_broker/src/main.rs:531-566 | the file written parses back to both tables exactly when every count and length fits 16 bits and every QoS is at most 2, and then none of its strict prefixes parses; the order of iteration is arbitrary |
| StateFile.Deserialize | mio_broker/src/main.rs:586-656 | the reader with its position counter parses what `Parse` parses and refuses the rest |
| StateFile.TakeAt | mio_broker/src/main.rs:569-576 | takes exactly the next bytes, or fails when there are too few |
| StateFile.RoundTripExactly | mio_broker/src/main.rs:531-656 | both tables come back from the file, in any iteration order, exactly when every count and length fits 16 bits and every QoS is at most 2 |
| StateFile.TruncatedFileIsRefused | mio_broker/src/main.rs:583-585 | every strict prefix of such a file is refused as a whole |
| StateFile.TablesExtend | mio_broker/src/main.rs:586-656 | bytes after the tables do not change what is read |
| StateFile.ParsedFits | mio_broker/src/main.rs:586-656 | whatever is accepted from any file fits the format |
| FlatScan.ThreadedBroker.Subscribe | mqtt_broker.rs:160-162 | appends the subscription |
| FlatScan.ThreadedBroker.Unsubscribe | mqtt_broker.rs:164-166 | removes exactly this token's subscriptions with this filter; every other stays as often as it was, in order |
| FlatScan.ThreadedBroker.DisconnectClient | mqtt_broker.rs:168-170 | removes exactly this token's subscriptions; every other stays as often as it was, in order |
| FlatScan.ThreadedBroker.Publish | mqtt_broker.rs:176-203 | for every outcome of every channel, the counters are the matching subscriptions by outcome and only disconnected ones go |
| FlatScan.EveryMatchIsCounted | mqtt_broker.rs:181-203 | delivered, dropped and dead add up to the matching subscriptions |
| FlatScan.SurvivorsKeepOrder | mqtt_broker.rs:181-200 | the survivors keep their order |
| FlatScan.TriedIsScanned | mio_broker/src/main.rs:815-831 | the indexed fan-out tries each subscription as often as the scan reaches it |
| FlatScan.Qos0ReachesAll | mio_broker/src/main.rs:979-990 | every copy of a QoS 0 fan-out is queued exactly when each target's connection is there with room for its own copies |
| FlatScan.Qos0Exactly | mio_broker/src/main.rs:979-990 | each connection gets one copy for each of its subscriptions tried, as far as its queue has room; exactly the others fail |
| FlatScan.SlowSubscriberIsPruned | mio_broker/src/main.rs:819-831 | a publish takes from a slow QoS 0 subscriber exactly as many subscriptions as copies did not fit |
| FlatScan.IndexedFanOutRefinesScan | mio_broker/src/main.rs:819-831 | the indexed publish tries what the scan reaches, each as often, and a QoS 0 publish prunes nothing exactly when each such connection is there with room for its own copies |

## Left out

- Sockets, polling, the accept loop, poll interest, environment variables, logging, statistics and `$SYS` topics beyond the fact that they are retained publishes.
- The contents of CONNECT, SUBSCRIBE and UNSUBSCRIBE packets: their handlers take the parsed fields.
- UTF-8 repair (`from_utf8_lossy`): strings are the bytes they are made of.
- Keepalive: an expired deadline is one of the reasons for the event `Dropping`, which can happen at any time.
- `sent_at`: whether an entry's timer has expired is an input of each tick, so nothing is claimed about how often entries are retried in real time.
- Writing and reading the state file on disk, and the `dirty` flag: the two conversions are modelled, not when they happen.
- In `Runs` other events may come between the packets of one buffer, which allows more runs than the broker has; `Broker.HandlePackets` is the loop itself.
- Reading and framing are proved per connection and are not events of `Runs`; its events start from framed packets.
- That queued bytes are written at all: a batch left over when the queue is empty waits until another packet is queued (`mio_broker/src/main.rs:1555-1569`).
- Brokers.Broker.RemoveClient: does not state the broker's state after a panic, because the process ends there; when it panics is stated by `Sessions.RemovePanicsExactly`.
- Brokers.Broker.Bury: does not state the broker's state after a panic, for the same reason.
- A poll event for a connection dropped earlier in the same poll round, which makes `drain_client` panic before it reads (`mio_broker/src/main.rs:1436-1443`): reading is not an event of `Runs`.
- Wildcards and topics that begin with `$` (section 4.7.2 of MQTT Version 3.1.1), which the code does not treat specially, and the rejection of QoS 3, which it does not do.
- Threads, channels and packet handling of the threaded broker: each channel's answer to a send is an input.
