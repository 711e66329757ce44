# Verified models of PROX

PROX is a packet engine that generates, delays, translates and measures traffic. This project models its state machines and
algorithms in Dafny and proves what they keep over all inputs and all runs. `dafny verify dfyconfig.toml` checks everything.

Each component has a value-level specification with the results about runs, and, where the program updates objects in place, a class
whose methods are proved against it field by field, so that the results hold for the arrays and counters of the program.

- **Scripted TCP endpoints** (`tcp_*.dfy`). Two peers run one script of actions over a small TCP of their own: handshake, MSS
  segmentation, cumulative acks, go-back retransmission, FIN close, TIME_WAIT (a subset of sections 3.3.2, 3.4 and 3.6 of RFC 9293).
  `TcpStream` is one end, `TcpEndpoint.StreamCtx` the context object the program keeps, `TcpSystem` two ends over two lossy FIFO
  channels with the steps timer, deliver and lose. Token buckets and clocks are arbitrary inputs of every step. `TcpTheorems` holds
  what every run keeps, `TcpCompletion` and `TcpRecovery` that every run can still be played to the end of its script. A script is
  valid when each peer's actions are contiguous in its content from 0 on, exactly the last action has length 0, and the bytes of
  each peer stay below 2^32 - 400000.
- **Bundle pool** (`bundle*.dfy`). Free stack, tuple table, timers, weighted choice of configurations and statistics of the layer 4
  generator. The hash table is a partial map from tuples to slots, the timer heap the bundles
  its elements refer to, a multiset, beside each bundle's own reference.
- **Carrier-grade NAT** (`cgnat*.dfy`). Port pools, the two translation tables, endpoint-independent mapping and paired pooling
  (section 4.1 of RFC 4787; REQ-2 in section 3 of RFC 6888).
- **Weighted sampler** (`cdf*.dfy`). The implicit search tree over cumulative weights.
- **Server scheduling** (`fqueue.dfy`, `server*.dfy`). A ring with wrapping counters feeds two handlers that share one cancelled flag.
- **Early loss detection** (`eld*.dfy`), for any number of positions and queue ids.
- **Lockstep ranges and the flow table** (`ranges*.dfy`).
- **Rate searches** (`search*.dfy`): the step search of ETSI GS NFV-TST 009 clause 12.3, and bisection.
- **Delay line** (`delay.dfy`), on the rings of `ring.dfy`.
- `words.dfy`, `division.dfy`, `draws.dfy` and `wrappers.dfy` hold shared arithmetic and types.

Findings the proofs brought out, each with its exact condition or a concrete run in the table below:

- An end can be in FIN_WAIT while the other has not completed its last data action; all bytes have been accepted, though.
- A bundle that moves to its next stream is rescheduled exactly when its new hash slot is not 0 or the handler asked for a timer;
  when the new tuple finds no room the bundle is lost to the pool.
- A second packet of a new flow in one NAT burst leaves with the wrong port. A failed public insertion leaves a flow whose answers
  never reach it, for ever, and can make two flows share a port; everything else a run keeps survives it.
- The sampler is exact if and only if its first weight is not zero; otherwise index 0 takes the draws of a whole block of leaves. It
  also accepts one draw past its last share.
- Losses are counted partly twice when the last packet is on the last table position, and not at all at positions that never saw a
  packet when its queue id is the largest.
- The step search reports one step too few exactly when the last step that passes is not on its path of probes, as the top step never
  is; and with one step it only ends when that step fails.
- While the memory pool is out of buffers, and only then, the server fails to answer packets that there are tokens for: when the
  scheduled handler has its turn and lacks buffers. A new server whose pool is empty gets there in its first call.

## Model

| member | source | states |
|---|---|---|
| `TcpTheorems.SafeClose` | src/genl4_stream_tcp.c:598-611 | in every run over lossy first-in first-out channels: once either end is in FIN_WAIT, LAST_ACK or TIME_WAIT, each end has accepted exactly the bytes the script has the other end say |
| `TcpTheorems.OnlyScriptedBytes` | src/genl4_stream_tcp.c:240-294 | in every run, at all times, what an end has accepted is a prefix of what the script has the other end say |
| `TcpTheorems.EndsOnlyWhenClosed` | src/genl4_stream_tcp.c:766-861 | in every run a stream that ends without a RST is in one of the closing states, so that SafeClose applies to it |
| `TcpTheorems.CurActionInScript` | src/genl4_stream_tcp.c:737-745 | in every run cur_action stays inside the script, the two ends are at most one action apart, and the one ahead is the receiver of the earlier, non-empty action |
| `TcpTheorems.WhereTheOtherEndIs` | src/genl4_stream_tcp.c:797-839 | in every run, while one end is closing, the other end is at the closing action exactly when no ack is outstanding for its data; otherwise it is one action behind a FIN_WAIT |
| `TcpCompletion.CloseBeforeOtherEndKnows` | src/genl4_stream_tcp.c:598-611 | a concrete run in which an end is in FIN_WAIT while the other has not completed its own last data action: accepted bytes are complete, completed actions are not |
| `TcpTheorems.AckedReceivedSent` | src/genl4_stream_tcp.c:334-361 | in every run acked <= received <= highest sent, for both directions |
| `TcpTheorems.SenderIsSound` | src/genl4_stream_tcp.c:617-672 | whenever an end decides in an action of its own: after a late ack has overtaken a rewound next_seq it sends nothing new, the assertion that nothing is outstanding at the start of an action holds, and a retransmission is never empty and never longer than the action |
| `TcpPacing.SendsWhileWindowOpen` | src/genl4_stream_tcp.c:613-694 | in every run, an end whose turn it is, with tokens and below the limit: while at most 300000 bytes are outstanding and the action has more, exactly one segment goes out, at next_seq, with the next 1460 bytes or all that are left; otherwise nothing new goes out, and the segment at the first byte not acknowledged is repeated exactly when the timer has run out, data left over by the call before was not what kept it busy, and the other side has not just made progress with its bucket still filling |
| `TcpPacing.SecondHalfGoesOut` | src/genl4_stream_tcp.c:622-624 | a concrete action of two segments: the second goes out while the first is not acknowledged |
| `TcpPacing.CountsRetransmissions` | src/genl4_stream_tcp.c:60-68 | in every run the calls counted as retransmissions, in both counters, are exactly those that send from another sequence number than next_seq or repeat an ack of nothing new; a stream expires after 10 of them without progress and not before |
| `TcpPacing.HearsProgress` | src/genl4_stream_tcp.c:296-426 | what counts as progress, which clears the count of retransmissions: a newer ack, a SYN, a FIN that is due, or data accepted; and a RST ends the stream |
| `TcpPacing.Listens` | src/genl4_stream_tcp.c:696-735 | the end whose turn it is not acknowledges in every call with tokens, and answers a FIN with its own; an ack without new data counts as a retransmission |
| `TcpPacing.Dials` | src/genl4_stream_tcp.c:428-526 | the client sends SYNs with sequence number 99 that announce segments of 1460 bytes, until both the answer and the ack have come |
| `TcpPacing.Answers` | src/genl4_stream_tcp.c:450-585 | the server answers with sequence number 200, until that is acknowledged |
| `TcpPacing.FinIsRepeated` | src/genl4_stream_tcp.c:766-839 | in every run an end that has sent its FIN repeats it exactly when it is not acknowledged and nothing new was heard since the last call; what it does once it is acknowledged |
| `TcpPacing.StraysAreReset` | src/genl4_stream_tcp.c:450-470 | a packet other than a SYN that finds no server is answered with a RST, unless it is one, and leaves no server behind |
| `TcpPacing.ClientResets` | src/genl4_stream_tcp.c:70-86 | one that finds no client comes back as a RST with its own sequence number |
| `TcpPacing.NothingWithoutTokens` | src/genl4_stream_tcp.c:428-861 | a call without tokens transmits nothing and changes no sequence number and no counter, in any state |
| `TcpTheorems.SendsOnlyCurrentAction` | src/genl4_stream_tcp.c:675-686 | every data segment ever transmitted lies inside the sender's current action, carries the content's bytes at its sequence number, and is at most one MSS long |
| `TcpTheorems.ReceiverNeverRefuses` | src/genl4_stream_tcp.c:240-294 | a payload that arrives in order is never too long and never differs from the script: the warning branches are unreachable in every run |
| `TcpTheorems.SegmentsNeverStraddle` | src/genl4_stream_tcp.c:388-401 | in every run each data segment in flight is a whole MSS-grid segment of one action and is either all new or all old to its receiver |
| `TcpTheorems.NeverForgotten` | src/genl4_stream_tcp.c:863-892 | in every run the retransmission counter of each end is within its limit, and an end that is not gone has a timer pending |
| `TcpRuns.RunOk` | src/genl4_stream_tcp.c:898-912 | the invariant that links both ends and both channels holds in every run of timers, deliveries and losses |
| `TcpRuns.ApplyOk` | src/genl4_stream_tcp.c:898-912 | each single step keeps that invariant, including the packets that reach an end that is gone |
| `TcpGrid.RunOnGrid` | src/genl4_stream_tcp.c:666-686 | in every run every sequence number, ack and payload lies on the MSS grid of the script, across all retransmissions |
| `TcpRetransmit.CallCounts` | src/genl4_stream_tcp.c:418-424 | one call with any packet moves same_state and retransmits together unless the packet makes progress; a stream that is not over asks for a timer; a stream ends only in certain states |
| `TcpRetransmit.AtMostTenRetransmissions` | src/genl4_stream_tcp.c:865-868 | whatever packets arrive, a stream retransmits at most 10 times between two packets that make progress, and same_state never exceeds 10 |
| `TcpRetransmit.ThenItExpires` | src/genl4_stream_tcp.c:865-868 | at the limit the next call without progress transmits nothing and expires the stream, unless the other side resets it |
| `TcpRetransmit.ExhaustedStreamsEnd` | src/genl4_stream_tcp.c:865-868 | in every sequence of calls, a stream at the limit is over after the next call without progress and stays exactly as it is, with no further retransmission |
| `TcpSystem.RunExists` | src/genl4_stream_tcp.c:898-912 | every sequence of timers, deliveries and losses is a run, so that none of the results about runs is empty |
| `TcpReceive.AckPhase` | src/genl4_stream_tcp.c:334-362 | reading an acknowledgement keeps the link between both ends and changes nothing but the sending half and the action it completes |
| `TcpReceive.DataPhase` | src/genl4_stream_tcp.c:240-294 | accepting a data segment in order keeps the link and extends the accepted bytes by its payload |
| `TcpTransmit.OutEstablishedTxOk` | src/genl4_stream_tcp.c:587-694 | whatever the sender does in an action of its own, what it leaves behind is again linked to the other end and what it transmits is sound |
| `TcpTransmit.ProcOutOk` | src/genl4_stream_tcp.c:863-892 | the same for every state |
| `TcpRecovery.CanComplete` | src/genl4_stream_tcp.c:898-912 | from every state of every run in which the client is there and below the limit of retransmissions, and so is the server, or the client has not heard of any server (none was created yet, or the last one is gone), whatever was lost, late or rewound on the way, the run can go on to its end: both ends end after closing, with nothing on its way, and each has accepted exactly what the script has the other say |
| `TcpRecovery.EveryScriptCompletes` | src/genl4_stream_tcp.c:898-912 | so every valid script has a run to its end, from the first SYN to the end of TIME_WAIT |
| `TcpRecovery.GetSegment` | src/genl4_stream_tcp.c:587-694 | however far a speaker has got with its action and whatever of it was lost, its timers alone make it send the segment with exactly what the other end lacks next |
| `TcpRecovery.WhoSpeaks` | src/genl4_stream_tcp.c:528-735 | two ends with an established connection never wait for each other in vain: one may speak, or will once the other has repeated what it has heard |
| `TcpRecovery.RunTidy` | src/genl4_stream_tcp.c:766-795 | in every run, an end in LAST_ACK whose FIN is acknowledged is over |
| `TcpRecovery.StatesTogether` | src/genl4_stream_tcp.c:453-839 | the pairs of states two ends can be in together: a server still in the handshake has a peer that called, is connected or has closed at once, and of two closing ends exactly one is in LAST_ACK |
| `TcpRecovery.FinishHalfOpen` | src/genl4_stream_tcp.c:528-585 | a client that is connected, or has closed at once, while the server has heard nothing but its SYN still gets the script to its end |
| `TcpCompletion.PlayOn` | src/genl4_stream_tcp.c:587-735 | while one segment that is in order is on its way, delivering it puts the next one, or the FIN, on its way, and what is left to send shrinks |
| `TcpCompletion.CloseAnswered` | src/genl4_stream_tcp.c:696-735 | delivering a FIN that is in order puts the other end's FIN on its way |
| `TcpCompletion.CloseAcked` | src/genl4_stream_tcp.c:797-839 | delivering that puts the last ack on its way |
| `TcpEndpoint.StreamCtx.constructor` | src/genl4_stream.h:136-150 | the context starts as InitCtx describes |
| `TcpEndpoint.StreamCtx.ProcIn` | src/genl4_stream_tcp.c:296-426 | reading a packet has exactly the effect of the value-level ProcIn on every field, progress and counters included |
| `TcpEndpoint.StreamCtx.ProcOut` | src/genl4_stream_tcp.c:863-892 | the call of the current state, or expiry at the limit: what is sent, whether a timer is asked for and every field are those of the value-level ProcOut |
| `TcpEndpoint.StreamCtx.Proc` | src/genl4_stream_tcp.c:898-912 | one call of the stream handler is exactly one step of the two-ended system whose runs TcpTheorems is about |
| `TcpScript.Script.ActionsMoveBytes` | src/handle_genl4.c:785-790 | in a valid script every action before the last moves the position of its peer, and only its, by its positive length |
| `Cgnat.FindIsNearest` | src/handle_cgnat.c:204-229 | the search for an address returns, of those with a free port, the one that comes first going round from the one after the last, so that the last itself is only taken when no other has one; it fails exactly when none has, and the place it is left at |
| `Cgnat.AddEntryInv` | src/handle_cgnat.c:273-320 | one insertion keeps the invariant - tables inverse, each address's ports split exactly into free and mapped ones, paired pooling - if and only if it is not the private insertion alone that found room |
| `CgnatRuns.NewHostsSpread` | src/handle_cgnat.c:204-229 | two new private addresses, one after the other, while every public address has a free port, get different public addresses if and only if the first one's packet was let through |
| `CgnatRuns.NewHostIs` | src/handle_cgnat.c:428-493 | a new host gets the address found, and when its flow cannot be added the search is set back by one, cyclically, while the host stays |
| `CgnatRuns.SkipsAddress` | src/handle_cgnat.c:436-462 | a second new flow of a host that is new in the same burst keeps the host's address, takes the port on top, and moves the search on past an address that no host gets |
| `CgnatRuns.NewFlowOk` | src/handle_cgnat.c:428-511 | a packet of a new flow, whatever room its insertions find, keeps every mapping, the ports and the pairing of addresses, and makes an orphan of its flow - one whose answers do not reach it - if and only if only the private table has room; its source is the recorded mapping when its flow was not entered before, and otherwise a port that the public table maps to no flow |
| `CgnatRuns.TranslatesRight` | src/handle_cgnat.c:391-511 | after any burst, a packet that is let through leaves with the public address of its private address, and with the recorded port if and only if its flow was known before the burst or no earlier packet of the flow in the burst was let through, but for flows of which an earlier packet was half entered |
| `CgnatRuns.InTableWhenSent` | src/handle_cgnat.c:428-511 | a new flow is in the table at any point of a burst if and only if a packet of it was let through, or half entered, before |
| `CgnatRuns.RunSound` | src/handle_cgnat.c:273-320 | in every run of bursts from the configured start, whatever insertions fail: each address keeps its configured ports, free or mapped, all flows of one private address use one public address, and what the public table maps to a flow is that flow's mapping |
| `CgnatRuns.TablesStayInverse` | src/handle_cgnat.c:273-320 | in every run the two tables are inverse maps, besides, if and only if no insertion so far has failed between them |
| `CgnatRuns.OrphansInRun` | src/handle_cgnat.c:307-311 | in every run the flows whose answers do not reach them are exactly those of which an insertion has failed between the tables; none is ever repaired |
| `CgnatRuns.MappingsStay` | src/handle_cgnat.c:273-320 | in every run a mapping, once made, the public address of a private one, and whether answers reach a flow stay for ever |
| `CgnatRuns.OutAndBack` | src/handle_cgnat.c:514-554 | in every run, failed insertions included, and for every packet let through: its answer, at any later time, is translated back to the private endpoint it came from if and only if answers to its flow were before the burst, or its flow was new and no earlier packet of the burst had entered it |
| `CgnatRuns.RepeatedSourceGoesAstray` | src/handle_cgnat.c:291-294 | a concrete burst in which the second packet of a new flow leaves with a port whose answers find nobody |
| `CgnatRuns.HalfAddSharesPort` | src/handle_cgnat.c:307-311 | a concrete run in which a failed public insertion leaves a private entry behind and two flows come to share a public endpoint |
| `CgnatPools.PortPools.ReleasePort` | src/handle_cgnat.c:189-202 | the port goes back on top of its address's stack, and nothing else changes |
| `CgnatPools.PortPools.GetNewPort` | src/handle_cgnat.c:231-243 | the port on top is taken, and nothing else changes |
| `CgnatPools.PortPools.GetNewIp` | src/handle_cgnat.c:204-229 | the address found, and last_ip, are those of Find, about which FindIsNearest says which address that is |
| `CgnatTask.Task.constructor` | src/handle_cgnat.c:907-982 | an empty translation state over the configured ports |
| `CgnatTask.Task.AddNewPortEntry` | src/handle_cgnat.c:273-320 | the new tables and pools are those of AddEntry for the room the hash tables had |
| `CgnatTask.Task.HostPoolFor` | src/handle_cgnat.c:436-475 | the address used for a private host, and whether it is new, are those of HostPool |
| `CgnatTask.Task.NewMapping` | src/handle_cgnat.c:428-511 | the whole treatment of a new flow is NewFlow |
| `CgnatTask.Task.HandlePrivate` | src/handle_cgnat.c:371-513 | what a burst leaves behind and sends is what AfterBurst and Translated say, so that the results about runs hold for the arrays |
| `CgnatTask.Task.HandlePublic` | src/handle_cgnat.c:514-554 | each answer goes to the private endpoint its destination is mapped from |
| `BundleRuns.PoolAgrees` | src/genl4_bundle.c:116-248 | over every run of a new pool: bundles split into free and active ones without duplicates, every active one is found by its tuple and tuples are distinct, a bundle has exactly one element in the timer heap when its reference is set and none otherwise, a free one never, created - finished - expired is the number of active bundles per protocol, the configurations left and held make up those created, and a free bundle always finds a configuration |
| `BundleRuns.RunInv` | src/genl4_bundle.c:116-346 | the invariant behind it holds in every state of every run |
| `BundleRuns.ConnectInv` | src/handle_genl4.c:234-276 | opening a connection keeps it, with room in the table or without |
| `BundleRuns.AcceptInv` | src/handle_genl4.c:322-353 | accepting one keeps it, with room, without, or with no free bundle |
| `BundleRuns.AdvanceInv` | src/genl4_bundle.c:193-240 | moving to the next stream keeps it if and only if the new tuple finds room; otherwise the bundle is neither free nor found |
| `BundleRuns.LeaveInv` | src/genl4_bundle.c:239-245 | a bundle that leaves keeps it once its stream is counted |
| `BundleRuns.IterateInv` | src/genl4_bundle.c:175-248 | going past any number of ended streams keeps it, and the bundle is free afterwards exactly when the result is negative |
| `BundleRuns.ProcDataInv` | src/genl4_bundle.c:313-346 | a packet or timer for an active bundle keeps it |
| `BundleRuns.HeapAddInv` | src/genl4_bundle.c:332-343 | a timer added while none is pending keeps it, and it is so added wherever it is |
| `BundleRuns.PoppedIsActive` | src/handle_genl4.c:427-428 | what the timer heap gives out is an active bundle, which then has no element left |
| `BundleRuns.HeapFits` | src/handle_genl4.c:925 | elements and free bundles together are never more than the bundles, so that a heap of that size is never full |
| `BundleRuns.CreatedInv` | src/genl4_bundle.c:40-114 | it holds for a new pool |
| `BundleRuns.DisplayIsTrue` | src/display_l4gen.c:135-139 | the figure displayed as active is the true number of active bundles |
| `BundleHistory.StatsTellHistory` | src/genl4_bundle.c:175-346 | in every run of a new pool each counter is the number of its events: streams started, by protocol; those ended, by protocol and for TCP by whether there were retransmissions; those whose handler left them expired; retransmissions; bundles opened. The streams of a bundle are played in the order of its configuration, each once |
| `BundleHistory.IterateTells` | src/genl4_bundle.c:175-248 | the loop over ended streams counts the current one and the empty ones behind it, stops at the next one with something to play, whose tuple and slot are those drawn for it, and lets the bundle go when there is none |
| `BundleHistory.ExpiredIsNotFinished` | src/genl4_bundle.c:288-311 | a concrete TCP stream that expires: tcp_expired is 1 and nothing counts it as finished |
| `BundleHistory.EndedIsFinished` | src/genl4_bundle.c:182-236 | a concrete TCP stream that ends: it counts by whether it was retransmitted, and the next one as created |
| `BundleHistory.ConnectIs` | src/handle_genl4.c:234-276 | the client takes the bundle on top of the stack, at the first stream of the configuration drawn, without a timer, and its tuple leads to it; without room everything is given back |
| `BundleHistory.AcceptIs` | src/handle_genl4.c:322-353 | the server does so for the configuration of the packet; without a free bundle or room nothing happens |
| `BundleRuns.ConfigurationsSuffice` | src/genl4_bundle.c:123-166 | configurations left minus free bundles never changes, so that choosing one never finds the list empty |
| `BundleRuns.MovedIsRescheduled` | src/genl4_bundle.c:338-343 | after any packet or timer, and however many streams the bundle went past, a bundle that is still active has a timer pending if and only if the handler asked for one, or the bundle moved on after the handler and the hash slot of its last tuple is not 0 |
| `BundleRuns.SlotZeroIsForgotten` | src/genl4_bundle.c:236-343 | a concrete move onto slot 0 that leaves an active bundle with a stream to play and no timer |
| `BundleRuns.NoRoomLosesBundle` | src/genl4_bundle.c:229-233 | a concrete move that finds no room and leaves the bundle neither free nor found |
| `BundleRuns.EachPositionEqually` | src/genl4_bundle.c:123-141 | each of n positions is chosen by exactly RAND_MAX / n of the raw draws |
| `BundlePool.FillOccur` | src/genl4_bundle.c:80-102 | the filled pool is the first multiple of the total weight that is large enough, and holds each configuration exactly (size / total) * weight times |
| `BundlePool.BundleCtxPool.constructor` | src/genl4_bundle.c:40-114 | a new pool with its configurations in proportion |
| `BundlePool.BundleCtxPool.Get` | src/genl4_bundle.c:116-121 | the bundle on top of the free stack |
| `BundlePool.BundleCtxPool.GetCfg` | src/genl4_bundle.c:123-141 | the first accepted draw decides the position, and its configuration is replaced by the last one |
| `BundlePool.BundleCtxPool.Put` | src/genl4_bundle.c:143-166 | the bundle and its configuration are given back |
| `BundlePool.BundleCtxPool.Leave` | src/genl4_bundle.c:162-173 | out of the hash table, without timer, and given back |
| `BundlePool.BundleCtxPool.Advance` | src/genl4_bundle.c:193-236 | all fields after a move to the next stream, and the slot or failure |
| `BundlePool.BundleCtxPool.Connect` | src/handle_genl4.c:234-276 | keeps everything the invariant says; all fields are those of Connect, and a configuration was left to choose |
| `BundlePool.BundleCtxPool.Accept` | src/handle_genl4.c:322-353 | keeps everything the invariant says; all fields are those of Accept |
| `BundlePool.BundleCtxPool.Iterate` | src/genl4_bundle.c:175-248 | the loop over ended streams, all fields and the result; the timer of a bundle that stays is not touched |
| `BundlePool.BundleCtxPool.Finish` | src/genl4_bundle.c:239-245 | the last stream is counted and the bundle leaves |
| `BundlePool.BundleCtxPool.Expire` | src/genl4_bundle.c:288-311 | the stream is counted as expired and the bundle leaves |
| `BundlePool.BundleCtxPool.HeapAdd` | src/genl4_bundle.c:332-343 | the bundle has one more element in the heap, and has none before, wherever the program adds one |
| `BundlePool.BundleCtxPool.HeapDel` | src/genl4_bundle.c:313-322 | the bundle's only element goes, which is in the heap wherever the program deletes one |
| `BundlePool.BundleCtxPool.ProcTimer` | src/handle_genl4.c:427-431 | an element of the heap is an active bundle's; afterwards everything the invariant says, and all fields are those of ProcData without it |
| `BundlePool.BundleCtxPool.ProcData` | src/genl4_bundle.c:313-346 | all fields after a packet or timer; HeapAdd and HeapDel are only called as they demand |
| `Cdf.DescentIsLinearScan` | src/cdf.h:29-50 | for every draw below rand_max the tree descent returns the index a linear scan of the cumulative weights returns |
| `Cdf.SharesAreExact` | src/cdf.c:104-129 | every index is returned by exactly (2147483646 / total weight) * weight of the draws below rand_max, for all indices, if and only if the first weight is not zero |
| `Cdf.LargestMultiple` | src/cdf.c:108-111 | rand_max is the largest multiple of the total weight below the largest raw draw |
| `Cdf.OneThird` | src/cdf.c:104-121 | for weights 1 and 2: rand_max is 2147483646, and the draws below 715827882 give index 0 |
| `Cdf.LastDrawAccepted` | src/cdf.h:34-36 | the draw equal to rand_max, which is accepted, returns index 0 when the weights of the first half of the leaves are all zero, and otherwise one past the last index when there are spare leaves, and the last index when there are none |
| `Cdf.ZeroTakesBlock` | src/cdf.h:38-50 | when the first weight is zero: for the smallest block of first leaves, of a power of two, that holds a weight above zero, every draw up to the block's share returns index 0, and every draw when the block is the whole tree; all other draws return what a linear scan does |
| `Cdf.ZeroTakes` | src/cdf.c:104-129 | so index 0, of weight zero, gets exactly the draws of that block |
| `Cdf.ZeroTakesAll` | src/cdf.c:84-149 | a concrete sampler, for the weights 0 and 1, that gives the index without weight for every draw |
| `Cdf.DescendIsScan` | src/cdf.h:38-50 | from any node, over ascending leaves, the descent ends at the first leaf below the node that is at least the draw |
| `Cdf.WholeTree` | src/cdf.c:129-149 | below the root lie exactly the leaves p .. 2p - 1 |
| `Cdf.Siblings` | src/cdf.c:135-143 | the leaves below a left child end just before those below its right sibling |
| `CdfTree.RoundPow2` | src/cdf.c:26-41 | the smallest power of two not below the value, and 0 exactly when it does not fit in 32 bits |
| `CdfTree.CdfSampler.constructor` | src/cdf.c:55-77 | an empty sampler for the announced number of weights |
| `CdfTree.CdfSampler.Add` | src/cdf.c:79-82 | the weight is appended |
| `CdfTree.CdfSampler.GetRMax` | src/cdf.c:43-53 | the element of the last leaf below the node |
| `CdfTree.CdfSampler.FillLeaves` | src/cdf.c:111-121 | each leaf becomes the last draw of its share, with all 32-bit wraps cancelling |
| `CdfTree.CdfSampler.BuildTree` | src/cdf.c:129-149 | every inner node holds the last leaf of its left child, the leaves unchanged |
| `CdfTree.CdfSampler.Setup` | src/cdf.c:84-149 | fails exactly when weights are missing, and otherwise leaves elements for which the results about draws hold, and in rand_max the largest multiple of the total weight below the largest raw draw |
| `CdfTree.CdfSampler.Sample` | src/cdf.h:29-50 | the first accepted draw decides the index, by the descent |
| `Ring.PutBlock` | src/fqueue.h:39-41 | a block copied behind the contents of a ring is appended to them, wherever the ring starts |
| `Ring.PutOne` | src/fqueue.h:43-48 | an element written behind the contents is appended and disturbs none of them |
| `FQueue.DropMany` | src/fqueue.h:58-61 | advancing the consumer counter by d drops the first d packets, also across the wrap of the counter |
| `FQueue.SlotOf` | src/fqueue.h:34-41 | a wrapped counter points at the place of the unwrapped one |
| `FQueue.FastQueue.Put` | src/fqueue.h:32-50 | by either copy branch, as many packets as fit are appended in order; one place stays empty |
| `FQueue.FastQueue.Get` | src/fqueue.h:52-69 | by either copy branch, the oldest packets are handed over in order |
| `FQueue.FastQueue.constructor` | src/fqueue.h:71-85 | an empty queue, whatever the counters start at |
| `ServerRuns.ExactlyOnce` | src/handle_genl4.c:469-497 | in every run of calls: accepted packets leave in the order in which they came, each with the one decision made about it, at most one decision being ahead; packets of timed-out streams leave in order from buffers that are all different; what was transmitted costs no more than the tokens granted |
| `ServerRuns.DroppedOnlyWhenFull` | src/handle_genl4.c:477-483 | in every run each call accepts a prefix of its burst and drops exactly the rest, and drops a packet only when with those accepted before it as many wait as the queue holds |
| `ServerRuns.OneOfTwoFits` | src/fqueue.h:32-37 | two packets that come when there is room for one: the first is accepted, the second dropped |
| `ServerRuns.BurstIs` | src/handle_genl4.c:296-302 | a new burst is the oldest 64 packets waiting, or all of them |
| `ServerRuns.OnlyRepliesCost` | src/handle_genl4.c:313-392 | a concrete burst of two replies and a dropped packet between them: how far it gets with any number of tokens, and what is left of these |
| `ServerRuns.Delivered` | src/handle_genl4.c:469-497 | in every run, whatever happens in between: f calls with enough tokens and buffers transmit the burst under way and f - 1 full ones, or every packet that was waiting, and the packet of a timed-out stream that was held back |
| `ServerRuns.RunGrows` | src/handle_genl4.c:469-497 | in every run what has been accepted, rejected, decided, transmitted and granted stays so |
| `ServerRuns.RunOk` | src/handle_genl4.c:469-497 | the books and the turn are in order in every state of every run |
| `ServerRuns.HandleBulkOk` | src/handle_genl4.c:469-497 | a call keeps the books, and the turn: whichever handler set the cancelled flag runs first, and no handler ever finds the other one's flag |
| `ServerRuns.HandleQueuedOk` | src/handle_genl4.c:285-400 | the queued handler transmits the first k packets of the burst under way, or of the next at most 64, with their verdicts, the held-back reply first with its saved one, and pays for the replies among them; it succeeds exactly when these are all, and fails only at a reply that costs more than the tokens left |
| `ServerRuns.HandleScheduledOk` | src/handle_genl4.c:402-467 | the scheduled handler transmits the saved packet, then one for each due stream with something to send, as far as 64 buffers go; it fails only for lack of buffers, or at a packet that costs more than the tokens left, which it then saves |
| `ServerRuns.FundedFlushes` | src/handle_genl4.c:469-497 | after a call with buffers and tokens for 129 packets of the largest size nothing is held back, and the whole burst has been transmitted |
| `ServerRuns.QueueWaitsForBuffers` | src/handle_genl4.c:423-492 | in every run: once it is the scheduled handler's turn and it lacks buffers, no received packet is answered until the memory pool has some again, whatever tokens there are, although answers need no new buffer |
| `ServerRuns.AnsweredUnlessStarved` | src/handle_genl4.c:469-497 | with tokens for everything, a call answers the packets it looks at if and only if it is not the scheduled handler's turn, or that handler has its buffers, or the memory pool has some |
| `ServerRuns.AnsweredOnceThereIsRoom` | src/handle_genl4.c:423-492 | in every run, from a state in which that handler is due and lacks buffers while packets wait, with tokens for everything in every call: nothing is answered over any number of calls if and only if the memory pool has no buffers in any of them |
| `ServerRuns.PacketUnanswered` | src/handle_genl4.c:423-492 | for any number of calls and any tokens granted, a concrete run from a new server that accepts a packet and does not answer it |
| `ServerRuns.DecideIs` | src/handle_genl4.c:313-392 | the main loop spends exactly what the replies it lets through cost, and stops early only at a reply it cannot pay |
| `ServerRuns.CallBackIs` | src/handle_genl4.c:427-462 | the callbacks fill as many buffers as there are due streams with a packet, unless buffers or tokens run out, and spend exactly what these cost |
| `ServerRuns.RefillOk` | src/handle_genl4.c:116-133 | unused buffers are kept, behind new ones that are all different from every buffer in use |
| `ServerTask.GenServer.constructor` | src/handle_genl4.c:934-937 | an empty server |
| `ServerTask.GenServer.HandleQueued` | src/handle_genl4.c:285-400 | all fields, the result and what was transmitted are those of the value-level HandleQueued |
| `ServerTask.GenServer.HandleScheduled` | src/handle_genl4.c:402-467 | all fields, the result and what was transmitted are those of the value-level HandleScheduled |
| `ServerTask.GenServer.RefillMbufs` | src/handle_genl4.c:116-133 | the used buffers are replaced at the front, or nothing changes |
| `ServerTask.GenServer.Enqueue` | src/handle_genl4.c:477-483 | what fits is appended to the queue and the rest dropped |
| `ServerTask.GenServer.HandleBulk` | src/handle_genl4.c:469-497 | one call on the arrays is one step of the runs ServerRuns is about |
| `Eld.LossesConserved` | src/eld.h:34-84 | for packets arriving in order, the losses found on the way plus the remaining ones are exactly the packets up to the last that did not arrive, when the last is not on the last position: if and only if its queue id is not the largest or every earlier position has seen a packet |
| `Eld.LastPositionCountsTwice` | src/eld.h:52 | with the last packet on the last position, whatever its queue id, the count is right if and only if the packets counted again are as many as those not counted for overflow; below the largest queue id that is when every position has seen one of its last two packets |
| `Eld.OverflowNotCounted` | src/eld.h:60-66 | a concrete table in which two of four losses are not counted because the number for a position does not fit |
| `Eld.LastPositionCountedAgain` | src/eld.h:52-58 | a concrete table in which three losses are counted as four because the last packet is on the last position |
| `Eld.FoundIs` | src/eld.h:71-84 | losses found plus packets received are what the table has seen, after every run |
| `Eld.AddIs` | src/eld.h:71-84 | a newer packet at a position finds exactly the packets since the last one lost, and one that is older than that finds those up to a whole round of queue ids later |
| `Eld.RemainingIs` | src/eld.h:41-69 | the remaining losses, but for overflows of the queue id, are the packets up to the last that the table has not seen |
| `Eld.Masked` | src/eld.h:55-64 | masking the 32-bit difference of entries gives the difference of the queue ids they stand for, -1 included |
| `EldTable.EarlyLossDetect.Reset` | src/eld.h:34-39 | the table of no packets |
| `EldTable.EarlyLossDetect.Add` | src/eld.h:71-84 | the new table and the losses found |
| `EldTable.EarlyLossDetect.CountRemainingLoss` | src/eld.h:41-69 | the remaining losses, and the entry of the last packet reset |
| `EldTable.EarlyLossDetect.Measure` | src/handle_lat.c:260-275 | a whole measurement counts every packet lost up to the last one received exactly once if and only if LossesConserved's or LastPositionCountsTwice's condition holds of the table |
| `Ranges.PeriodIsExact` | src/handle_gen.c:465-517 | the vector of range values is the same d packets later if and only if the least common multiple of the range sizes divides d |
| `Ranges.LcmIs` | src/handle_gen.c:493-508 | the multiples of the computed least common multiple are exactly the common multiples |
| `Ranges.CountsUp` | src/handle_gen.c:471-475 | a value goes up by one from packet to packet, and from the largest of its range back to the smallest |
| `Ranges.LcmOfIs` | src/handle_gen.c:510-517 | the fold over the ranges is divided by exactly the common multiples of all sizes |
| `Ranges.Bezout` | src/handle_gen.c:493-503 | what the Euclidean algorithm computes is an integer combination of both numbers |
| `Ranges.GcdDivides` | src/handle_gen.c:493-503 | and divides both |
| `Ranges.OccursInPeriod` | src/handle_gen.c:564-566 | any value vector to come occurs among one period of them, from wherever it starts |
| `RangesGen.Restamp` | src/handle_gen.c:465-480 | stamping values over older ones leaves no trace of these, even when fields overlap |
| `RangesGen.FieldHoldsValue` | src/handle_gen.c:476-478 | the field of a range holds the low bytes of its value, most significant first, and no other byte of the header changes |
| `RangesGen.KeyIs` | src/handle_gen.c:579-593 | the flow key is byte 23 and bytes 26 to 37 of the frame: time to live and checksum play no part |
| `RangesGen.KeysTellValues` | src/handle_gen.c:465-480 | when the fields of the ranges lie in the key and do not overlap, two headers made from one template are of the same flow if and only if all their values are the same |
| `RangesGen.FlowsDiffer` | src/handle_gen.c:550-577 | so two packets of one template are of the same flow if and only if the period divides their distance: a period has as many flows as packets |
| `RangesGen.GcdLoop` | src/handle_gen.c:493-503 | the loop computes the recursive greatest common divisor |
| `RangesGen.LcmWord` | src/handle_gen.c:505-508 | the least common multiple, when it fits in 32 bits |
| `RangesGen.RangeGen.constructor` | src/handle_gen.c:1704-1721 | every range starts at its minimum |
| `RangesGen.RangeGen.GetNRangeFlows` | src/handle_gen.c:510-517 | the period of all ranges, when it fits in 32 bits |
| `RangesGen.RangeGen.ApplyRanges` | src/handle_gen.c:465-480 | every range moves on by one and is written to its field |
| `RangesGen.RangeGen.AddFlow` | src/handle_gen.c:565-575 | the next flow of a template is added and no other lost |
| `RangesGen.RangeGen.BuildFlowTable` | src/handle_gen.c:550-577 | the table then knows the flow of every template with every value vector to come, and the values are back where they were |
| `RangesGen.RangeGen.MakePacket` | src/handle_gen.c:1197-1203 | every packet built in any run from then on finds its flow |
| `RateSearch.ReportedIsClose` | rapid/rapid_flowsizetest.py:65-108 | for a threshold below which all steps pass: the highest step that passed a probe is the last passing one or the one before, it is the last exactly when no step passes or the last that passes lies on the path of probes through the steps, a condition on the number of steps and the threshold alone, and there are at most log2(n) probes, rounded down |
| `RateSearch.TopStepNeverReported` | rapid/rapid_flowsizetest.py:86-96 | when all n steps pass the reported step is the one below the top: the top step is never probed |
| `RateSearch.EightSteps` | rapid/rapid_flowsizetest.py:65-96 | among eight steps a threshold right above step 0, 2, 4 or 7 is missed by one, and no other |
| `RateSearch.OneStepNeedsFailure` | rapid/rapid_flowsizetest.py:184-304 | with a single step the loop ends if and only if that step fails |
| `RateSearch.EndsAtThreshold` | rapid/rapid_flowsizetest.py:65-78 | from any window around the threshold the search ends with the threshold at its single step or just after it |
| `RateSearch.FewProbes` | rapid/rapid_flowsizetest.py:65-78 | each probe at least halves the window |
| `RateSearch.Log2Is` | rapid/rapid_flowsizetest.py:65-78 | the bound on probes is the binary logarithm, rounded down |
| `RateSearchRun.FlowSizeTest.StartSteps` | rapid/rapid_flowsizetest.py:91-96 | the whole window and its middle |
| `RateSearchRun.FlowSizeTest.NewStep` | rapid/rapid_flowsizetest.py:70-78 | the window shrinks as Shrink says and the next step is its middle |
| `RateSearchRun.FlowSizeTest.RunSteps` | rapid/rapid_flowsizetest.py:184-304 | the loop reports the step ReportedIsClose is about, after as many probes |
| `RateSearchRun.FlowSizeTest.RunSpeeds` | rapid/rapid_flowsizetest.py:184-304 | the bisection ends: what it reports passed, nothing more than accuracy above it does, and the number of probes is logarithmic in start speed / accuracy |
| `RateSearchRun.FlowSizeTest.RunIncrements` | rapid/rapid_flowsizetest.py:300-302 | the last speed before the first that fails |
| `Delay.DelayLine.HandleBulk` | src/handle_impair.c:235-329 | arriving packets are queued up to the room there is and the rest dropped; of those queued then, exactly the due ones at the head leave, at most a burst, in order of arrival and now, so none before its arrival plus the delay; when fewer than a burst leave, nothing due stays |
| `Delay.DelayLine.Append` | src/handle_impair.c:252-284 | the branch for bursts that fit and the branch that checks each packet do the same |
| `Delay.DelayLine.EmptySlots` | src/handle_impair.c:252 | the number of free places, one of which stays empty |
| `Delay.DelayLine.EnqueueEach` | src/handle_impair.c:264-284 | as many packets as fit are queued |
| `Delay.DelayLine.ReleaseBurst` | src/handle_impair.c:287-325 | exactly the due packets at the head leave, at most 64 |
| `Delay.DelayLine.Flush` | src/handle_impair.c:130-150 | every waiting packet leaves, in order and none early, burst by burst: each burst is the due packets at the head at the time read for it, and the flush ends with the first burst after which nothing waits |
| `Delay.DelayLine.Update` | src/handle_impair.c:105-205 | a reconfiguration passes on what waited just as Flush does, loses no packet and starts an empty ring of the length asked for, at least 64, for the new delay |
| `Delay.LeavesAtBurst` | src/handle_impair.c:130-150 | every packet flushed leaves in one of the bursts, at the time read for it, and is due by then |
| `Delay.BurstsKeepOrder` | src/handle_impair.c:130-150 | bursts take the packets that waited in their order and leave the others |
| `Delay.NothingDueStays` | src/handle_impair.c:287-325 | in an ordered queue stopping at the first packet not due leaves none that is due |

## Left out

- Masking with a power of two minus one is written as a remainder, shifting as a division; both agree on the unsigned values involved.
- DPDK calls, packet memory, configuration loading, checksums, header templates, prefetching and logging: packets are abstract, with the fields the properties are about.
- The random parts of tuples: the loops that draw a tuple until it is not in use are represented by the tuple finally drawn; that they end is not claimed. The model takes such a tuple as an input of `Connect` and of every `Move`.
- TcpRuns.RunOk: reading content past the end of its buffer yields arbitrary default bytes in the model; CurActionInScript and SendsOnlyCurrentAction show that no run does so.
- TcpRuns.ApplyOk: a server context made for a packet of no connection starts with full token buckets, and there is one client connection; that FIN_WAIT is ever left is not claimed, since it can wait for the peer's FIN for ever.
- TcpRecovery.CanComplete: that the run can go on so, not that it must, since no fairness of the channels or the buckets is assumed; and nothing of runs in which an end is at the limit, or is gone while the client has heard of a server, after which AtMostTenRetransmissions and ThenItExpires say what happens.
- TcpTheorems.SafeClose: speaks of accepted bytes, not of completed actions, because the last ack may still be on its way (CloseBeforeOtherEndKnows).
- BundleRuns.RunInv: excludes moves to a next stream that find no room in the table, after which AdvanceInv shows the invariant is broken; every tuple drawn is not in use.
- BundlePool.BundleCtxPool.ProcData: what the stream handler does is an input (its context afterwards and whether it asked for a timer); timers fire at arbitrary times.
- CgnatRuns.RunSound: static entries are not modelled. Headers are endpoints as values, not bytes rewritten in place. `delete_port_entry` is never reached and is not modelled.
- BundlePool.BundleCtxPool.HeapAdd: the order of the heap by time (`heap.c`) is not modelled; an element popped is any element.
- BundlePool.BundleCtxPool.HeapDel: nor is how the heap is kept in order around the element taken out.
- CdfTree.RoundPow2: excludes the value 0, for which the program's loop does not end.
- CdfTree.CdfSampler.Setup: for at most 2^30 weights with a total above 0 and below RAND_MAX; beyond that the program divides by zero or its multiplier is 0.
- ServerTask.GenServer.HandleBulk: what becomes of each packet is an input; shutting the server down is not modelled.
- ServerTask.GenServer.HandleScheduled: which timers have run out, and which streams then have something to send, are inputs.
- Eld.LossesConserved: for packets that arrive in order; reordered packets are not modelled.
- RangesGen.RangeGen.BuildFlowTable: completeness when the period fits in 32 bits, for ranges other than the full 32-bit one, whose size wraps to 0; no random fields; frames with at least 38 bytes; every insertion into the hash table succeeds.
- RateSearchRun.FlowSizeTest.RunSteps: a single step that passes, with which the loop does not end, is excluded (OneStepNeedsFailure); without the early end on a generator that falls short of the requested speed, and with steps instead of percentages of line rate.
- RateSearchRun.FlowSizeTest.RunSpeeds: speeds are real numbers, without rounding.
- Delay.DelayLine.Flush: the clock is an input that does not stand still for ever; the random-delay wheel, whose slots can be skipped at a full burst, is not modelled.
- Delay.DelayLine.HandleBulk: MAC rewriting is left out.
- `handle_aggregator.c`, `handle_esp.c`, `handle_gre_decap_encap.c`, the displays, the command parser and the rest of `rapid/`: user interface, input and output, hardware.
